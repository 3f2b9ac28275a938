/** Reading a response body under a byte bound (ui/report/paged-client.ts, readBoundedResponse). */
module BoundedRead {
  import opened Common

  newtype Byte = x: int | 0 <= x < 256

  datatype ReadError = CapacityExceeded

  lemma BytesAppend(chunks: seq<seq<Byte>>, i: nat)
    requires i < |chunks|
    ensures Flatten(chunks[..i + 1]) == Flatten(chunks[..i]) + chunks[i]
  {
    assert chunks[..i + 1][..i] == chunks[..i];
  }

  lemma {:induction false} BytesNeverShrink(chunks: seq<seq<Byte>>, i: nat)
    requires i <= |chunks|
    ensures Bytes(chunks[..i]) <= Bytes(chunks)
    decreases |chunks| - i
  {
    if i < |chunks| {
      BytesAppend(chunks, i);
      BytesNeverShrink(chunks, i + 1);
    } else {
      assert chunks[..i] == chunks;
    }
  }

  /** Copies the chunks one behind the other into a buffer of exactly their size. */
  method Join(chunks: seq<seq<Byte>>, size: nat) returns (joined: array<Byte>)
    requires size == Bytes(chunks)
    ensures fresh(joined) && joined[..] == Flatten(chunks)
  {
    joined := new Byte[size];
    var offset := 0;
    for i := 0 to |chunks|
      invariant offset == Bytes(chunks[..i]) && offset <= size
      invariant joined[..offset] == Flatten(chunks[..i])
    {
      BytesAppend(chunks, i);
      BytesNeverShrink(chunks, i + 1);
      var chunk := chunks[i];
      assert offset + |chunk| <= size;
      for k := 0 to |chunk|
        invariant joined[..offset] == Flatten(chunks[..i])
        invariant joined[offset..offset + k] == chunk[..k]
      {
        joined[offset + k] := chunk[k];
        assert joined[offset..offset + k + 1] == joined[offset..offset + k] + [chunk[k]];
      }
      assert chunk[..|chunk|] == chunk;
      assert joined[..offset + |chunk|] == joined[..offset] + joined[offset..offset + |chunk|];
      offset := offset + |chunk|;
    }
    assert chunks[..|chunks|] == chunks;
    assert joined[..size] == joined[..];
  }

  /** `declared` is the content-length header when it is a finite number, `body` the chunks the stream will
      deliver. The read succeeds exactly when neither the declaration nor the stream exceeds the bound, and
      then yields every byte in order; otherwise it stops at the first chunk that crosses the bound, and no
      more than `limit` bytes were ever kept. */
  method ReadBoundedResponse(declared: Option<int>, body: Option<seq<seq<Byte>>>, limit: nat)
    returns (result: Result<seq<Byte>, ReadError>, consumed: nat)
    ensures result.Ok? <==>
            (declared.Some? ==> declared.value <= limit) && (body.Some? ==> Bytes(body.value) <= limit)
    ensures result.Ok? ==> result.value == if body.Some? then Flatten(body.value) else []
    ensures body.Some? ==> consumed <= |body.value|
    ensures result.Ok? && body.Some? ==> consumed == |body.value|
    ensures declared.Some? && declared.value > limit ==> consumed == 0
    ensures result.Err? && consumed > 0 ==>
              body.Some? && Bytes(body.value[..consumed]) > limit && Bytes(body.value[..consumed - 1]) <= limit
  {
    consumed := 0;
    if declared.Some? && declared.value > limit { return Err(CapacityExceeded), 0; }
    if body.None? { return Ok([]), 0; }
    var stream := body.value;
    var chunks: seq<seq<Byte>> := [];
    var size := 0;
    while consumed < |stream|
      invariant consumed <= |stream|
      invariant chunks == stream[..consumed]
      invariant size == Bytes(chunks) && size <= limit
    {
      var value := stream[consumed];
      BytesAppend(stream, consumed);
      consumed := consumed + 1;
      size := size + |value|;
      if size > limit {
        BytesNeverShrink(stream, consumed);
        return Err(CapacityExceeded), consumed;
      }
      chunks := chunks + [value];
    }
    assert chunks == stream;
    var joined := Join(chunks, size);
    return Ok(joined[..]), consumed;
  }
}
