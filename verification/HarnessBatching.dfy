/** The performance harness's drain (xtask/src/main.rs, `receive_batch`, `drain_with_cpu_token`, `observation`):
    bounded batches with one message of lookahead, committed one by one. */
module HarnessBatching {
  import opened Common

  const DURABLE_BATCH_RECORDS := 32
  const DURABLE_BATCH_BYTES := 524288
  const MAX_IDENTIFIER_BYTES := 512

  /** A message as its bytes, one `char` a byte. */
  type Message = string

  datatype Source = Codex | ClaudeCode | Cursor

  function NameOf(source: Source): string {
    match source
    case Codex => "codex"
    case ClaudeCode => "claude-code"
    case Cursor => "cursor"
  }

  datatype Command = Command(source: Source, cursor: string)

  datatype Observation = Observation(source: Source, previous: Option<string>, cursor: string)

  function BarAt(text: string): (n: nat)
    ensures n <= |text|
  {
    if text == "" || text[0] == '|' then 0 else BarAt(text[1..]) + 1
  }

  function SourceNamed(name: string): Option<Source> {
    if name == NameOf(Codex) then Some(Codex)
    else if name == NameOf(ClaudeCode) then Some(ClaudeCode)
    else if name == NameOf(Cursor) then Some(Cursor)
    else None
  }

  /** `name|cursor`, split at the first bar. The longest identifier built from it is `performance-name-cursor`. */
  function Decode(text: Message): Option<Command> {
    var n := BarAt(text);
    if n == |text| then None
    else
      var source, cursor := SourceNamed(text[..n]), text[n + 1..];
      if source.None? || cursor == "" || |"performance-"| + n + 1 + |cursor| > MAX_IDENTIFIER_BYTES then None
      else Some(Command(source.value, cursor))
  }

  /** The line that a command is sent as. */
  function Encode(c: Command): Message { NameOf(c.source) + "|" + c.cursor }

  lemma {:induction false} BarAfter(name: string, rest: string)
    requires '|' !in name
    ensures BarAt(name + "|" + rest) == |name|
  {
    var text := name + "|" + rest;
    if name != "" {
      assert name[0] in name;
      assert text[1..] == name[1..] + "|" + rest;
      BarAfter(name[1..], rest);
    }
  }

  lemma NamesHaveNoBar(source: Source)
    ensures '|' !in NameOf(source) && SourceNamed(NameOf(source)) == Some(source)
  {
    assert NameOf(Codex)[1] == 'o' && NameOf(ClaudeCode)[1] == 'l' && NameOf(Cursor)[1] == 'u';
  }

  lemma {:induction false} BarIsFirst(text: string)
    ensures BarAt(text) < |text| ==> text[BarAt(text)] == '|'
  {
    if text != "" && text[0] != '|' { BarIsFirst(text[1..]); }
  }

  /** A line is a command exactly if it is one's encoding, its cursor is not empty, and the identifier made of it,
      `performance-` and the line, is not too long. The cursor may hold further bars. */
  lemma DecodeIff(text: Message, c: Command)
    ensures Decode(text) == Some(c) <==> text == Encode(c) && c.cursor != "" && |text| + 12 <= 512
  {
    NamesHaveNoBar(c.source);
    BarIsFirst(text);
    assert |"performance-"| == 12;
    var n := BarAt(text);
    if n < |text| { assert text == text[..n] + "|" + text[n + 1..]; }
    if text == Encode(c) {
      BarAfter(NameOf(c.source), c.cursor);
      assert text[..n] == NameOf(c.source) && text[n + 1..] == c.cursor;
    }
  }

  type Previous = map<Source, string>

  /** The observation of each message in turn, each naming the cursor its source had before. */
  function Observe(previous: Previous, messages: seq<Message>): Option<(seq<Observation>, Previous)> {
    if messages == [] then Some(([], previous))
    else
      var n := |messages| - 1;
      var front, command := Observe(previous, messages[..n]), Decode(messages[n]);
      if front.None? || command.None? then None
      else
        var (observations, before) := front.value;
        var Command(source, cursor) := command.value;
        Some((observations + [Observation(source, if source in before then Some(before[source]) else None, cursor)],
              before[source := cursor]))
  }

  /** Cutting a stream into batches does not change what is observed: the map carries the cursors across. */
  lemma {:induction false} ObserveConcat(previous: Previous, xs: seq<Message>, ys: seq<Message>)
    ensures Observe(previous, xs + ys) ==
              (match Observe(previous, xs)
               case None => None
               case Some((observed, between)) =>
                 match Observe(between, ys)
                 case None => None
                 case Some((more, after)) => Some((observed + more, after)))
  {
    hide Decode;
    var observed := Observe(previous, xs);
    if ys == [] {
      assert xs + ys == xs;
      if observed.Some? { assert observed.value.0 + [] == observed.value.0; }
    } else {
      var n := |ys| - 1;
      assert (xs + ys)[..|xs + ys| - 1] == xs + ys[..n];
      ObserveConcat(previous, xs, ys[..n]);
      if observed.Some? && Observe(observed.value.1, ys).Some? {
        var more := Observe(observed.value.1, ys[..n]).value.0;
        var all := Observe(observed.value.1, ys).value.0;
        assert observed.value.0 + all == (observed.value.0 + more) + [all[|more|]];
      }
    }
  }

  predicate Decodable(messages: seq<Message>) { forall i :: 0 <= i < |messages| ==> Decode(messages[i]).Some? }

  lemma {:induction false} ObserveSucceedsIff(previous: Previous, messages: seq<Message>)
    ensures Observe(previous, messages).Some? <==> Decodable(messages)
    ensures Observe(previous, messages).Some? ==> |Observe(previous, messages).value.0| == |messages|
  {
    hide Decode;
    if messages == [] {
    } else {
      var n := |messages| - 1;
      ObserveSucceedsIff(previous, messages[..n]);
      assert forall i :: 0 <= i < n ==> messages[..n][i] == messages[i];
    }
  }

  /** The cursor of the last of these messages that is from `source`. */
  function SourceCursor(source: Source, messages: seq<Message>): Option<string> {
    if messages == [] then None
    else
      var command := Decode(messages[|messages| - 1]);
      if command.Some? && command.value.source == source then Some(command.value.cursor)
      else SourceCursor(source, messages[..|messages| - 1])
  }

  /** Every observation is of its own message, and its previous cursor is the last one its source had, wherever in
      the stream that was. */
  lemma {:induction false} ObservationsChain(messages: seq<Message>, k: nat)
    requires Observe(map[], messages).Some? && k < |messages|
    ensures var observations := Observe(map[], messages).value.0;
            && |observations| == |messages| && Decode(messages[k]).Some?
            && var Command(source, cursor) := Decode(messages[k]).value;
               observations[k] == Observation(source, SourceCursor(source, messages[..k]), cursor)
  {
    hide Decode;
    ObserveSucceedsIff(map[], messages);
    var n := |messages| - 1;
    if k < n {
      ObserveSucceedsIff(map[], messages[..n]);
      ObservationsChain(messages[..n], k);
      assert messages[..n][..k] == messages[..k];
    } else {
      ObserveSucceedsIff(map[], messages[..n]);
      PreviousIsLast(messages[..n]);
    }
  }

  lemma {:induction false} PreviousIsLast(messages: seq<Message>)
    requires Observe(map[], messages).Some?
    ensures var previous := Observe(map[], messages).value.1;
            forall source :: SourceCursor(source, messages) == if source in previous then Some(previous[source]) else None
  {
    hide Decode;
    if messages == [] {
    } else {
      PreviousIsLast(messages[..|messages| - 1]);
    }
  }

  // ----- batches

  predicate BatchFits(batch: seq<Message>, maxRecords: nat, maxBytes: nat) {
    0 < |batch| <= maxRecords && Bytes(batch) <= maxBytes
  }

  function AsSeq<T>(o: Option<T>): seq<T> { if o.Some? then [o.value] else [] }

  /** The receiving end of the channel: everything that will ever be sent, and how much has been taken. `prompt(n)`
      says whether message `n` is there within the coalescing window when it is waited for. */
  class Receiver {
    const messages: seq<Message>
    const prompt: nat -> bool
    var taken: nat

    ghost predicate Valid()
      reads this
    {
      taken <= |messages|
    }

    ghost function Remaining(): seq<Message>
      requires Valid()
      reads this
    {
      messages[taken..]
    }

    constructor (messages: seq<Message>, prompt: nat -> bool)
      ensures Valid() && this.messages == messages && this.prompt == prompt && taken == 0
    {
      this.messages, this.prompt, taken := messages, prompt, 0;
    }

    /** Waits for a message; `None` once every sender is gone. */
    method Recv() returns (message: Option<Message>)
      requires Valid()
      modifies this
      ensures Valid() && taken >= old(taken)
      ensures old(Remaining()) == AsSeq(message) + Remaining()
      ensures message.None? ==> Remaining() == []
    {
      if taken == |messages| { return None; }
      message := Some(messages[taken]);
      taken := taken + 1;
    }

    /** `None` if the window passes, or if every sender is gone. */
    method RecvTimeout() returns (message: Option<Message>)
      requires Valid()
      modifies this
      ensures Valid() && taken >= old(taken)
      ensures old(Remaining()) == AsSeq(message) + Remaining()
      ensures message.None? <==> old(taken) == |messages| || !prompt(old(taken))
    {
      if taken == |messages| || !prompt(taken) { return None; }
      message := Some(messages[taken]);
      taken := taken + 1;
    }
  }

  datatype DrainError = MessageTooLarge | AdmissionDenied | InvalidMessage | CommitFailed

  /** The next batch, and the message that was received but did not fit in it. Nothing is lost or reordered; the
      batch stops where it is full, where the next message would not fit, or where none is there in time. */
  method ReceiveBatch(receiver: Receiver, pending: Option<Message>, maxRecords: nat, maxBytes: nat)
    returns (batch: Result<Option<seq<Message>>, DrainError>, lookahead: Option<Message>)
    requires receiver.Valid()
    modifies receiver
    ensures receiver.Valid()
    ensures var stream := AsSeq(pending) + old(receiver.Remaining());
            match batch
            case Ok(None) => stream == [] && lookahead == None
            case Ok(Some(messages)) =>
              && BatchFits(messages, maxRecords, maxBytes)
              && messages + (AsSeq(lookahead) + receiver.Remaining()) == stream
              && (if lookahead.Some? then |messages| < maxRecords && Bytes(messages) + |lookahead.value| > maxBytes
                  else |messages| == maxRecords || receiver.Remaining() == [] || !receiver.prompt(receiver.taken))
            case Err(error) => stream != [] && (|stream[0]| > maxBytes || maxRecords == 0) && error == MessageTooLarge
  {
    lookahead := None;
    ghost var stream := AsSeq(pending) + receiver.Remaining();
    var first := pending;
    if first.None? {
      first := receiver.Recv();
      if first.None? { return Ok(None), None; }
    }
    assert stream == [first.value] + receiver.Remaining();
    if |first.value| > maxBytes || maxRecords == 0 { return Err(MessageTooLarge), None; }
    BytesOfOne(first.value);
    var messages := [first.value];
    var bytes := |first.value|;
    while |messages| < maxRecords
      invariant receiver.Valid()
      invariant BatchFits(messages, maxRecords, maxBytes) && bytes == Bytes(messages)
      invariant messages + receiver.Remaining() == stream
      decreases maxRecords - |messages|
    {
      var message := receiver.RecvTimeout();
      if message.None? { break; }
      Regroup(messages, [message.value], receiver.Remaining());
      OneMoreFits(messages, message.value);
      hide Bytes;
      if bytes + |message.value| > maxBytes {
        lookahead := message;
        break;
      }
      bytes := bytes + |message.value|;
      messages := messages + [message.value];
    }
    batch := Ok(Some(messages));
  }

  lemma BytesOfOne(message: Message)
    ensures Bytes([message]) == |message|
  {
    assert [message][..0] == [];
    assert Flatten([message]) == Flatten([]) + message;
  }

  lemma OneMoreFits(batch: seq<Message>, message: Message)
    ensures Bytes(batch + [message]) == Bytes(batch) + |message|
  {
    assert (batch + [message])[..|batch|] == batch;
  }

  // ----- the drain

  predicate AllFit(messages: seq<Message>, maxBytes: nat) {
    forall i :: 0 <= i < |messages| ==> |messages[i]| <= maxBytes
  }

  predicate BatchesFit(batches: seq<seq<Message>>, maxRecords: nat, maxBytes: nat) {
    forall i :: 0 <= i < |batches| ==> BatchFits(batches[i], maxRecords, maxBytes)
  }

  /** Drains the channel until every sender is gone. `admits` and `commits` are the storage admission and the store,
      batch by batch. What is committed is always whole batches from the front of the stream, observed as one
      stream; and whether everything is committed depends on the messages and the store, never on the timing. */
  method Drain(receiver: Receiver, maxRecords: nat, maxBytes: nat, admits: nat -> bool, commits: nat -> bool)
    returns (failure: Option<DrainError>, store: seq<Observation>, ghost batches: seq<seq<Message>>)
    requires receiver.Valid() && receiver.taken == 0
    modifies receiver
    ensures Flatten(batches) <= receiver.messages && BatchesFit(batches, maxRecords, maxBytes)
    ensures Observe(map[], Flatten(batches)).Some? && store == Observe(map[], Flatten(batches)).value.0
    ensures failure.None? ==> Flatten(batches) == receiver.messages
    ensures failure.Some? ==> Flatten(batches) < receiver.messages
    ensures (forall k :: admits(k) && commits(k)) ==>
              (failure.None? <==> receiver.messages == []
                                  || (maxRecords > 0 && AllFit(receiver.messages, maxBytes) && Decodable(receiver.messages)))
  {
    hide Decode, Decodable, Observe, BatchFits, BatchesFit, AllFit, Flatten, Committed;
    failure, store, batches := None, [], [];
    var previous: Previous := map[];
    var pending: Option<Message> := None;
    var batchNumber := 0;
    NothingCommitted(receiver.messages, maxRecords, maxBytes);
    while true
      invariant receiver.Valid()
      invariant Committed(batches, AsSeq(pending) + receiver.Remaining(), receiver.messages, maxRecords, maxBytes)
      invariant Observe(map[], Flatten(batches)) == Some((store, previous))
      decreases |receiver.messages| - |Flatten(batches)|
    {
      ghost var stream, done := AsSeq(pending) + receiver.Remaining(), Flatten(batches);
      var received;
      received, pending := ReceiveBatch(receiver, pending, maxRecords, maxBytes);
      ghost var rest := AsSeq(pending) + receiver.Remaining();
      CommittedIsFront(batches, stream, receiver.messages, maxRecords, maxBytes);
      if received.Err? { return Some(received.error), store, batches; }
      if received.value.None? { break; }
      var messages := received.value.value;
      CommitsOneMore(batches, stream, receiver.messages, messages, rest, maxRecords, maxBytes);
      if !admits(batchNumber) { return Some(AdmissionDenied), store, batches; }
      ObserveConcat(map[], done, messages);
      var observed := Observe(previous, messages);
      if observed.None? {
        UndecodableInBatch(batches + [messages], rest, receiver.messages, maxRecords, maxBytes);
        return Some(InvalidMessage), store, batches;
      }
      if !commits(batchNumber) { return Some(CommitFailed), store, batches; }
      store := store + observed.value.0;
      previous := observed.value.1;
      batches := batches + [messages];
      batchNumber := batchNumber + 1;
    }
    AllIsCommitted(batches, receiver.messages, maxRecords, maxBytes);
  }

  /** So far these batches have been committed, and `rest` is still to come. */
  ghost predicate Committed(batches: seq<seq<Message>>, rest: seq<Message>, all: seq<Message>, maxRecords: nat, maxBytes: nat) {
    && Flatten(batches) + rest == all && BatchesFit(batches, maxRecords, maxBytes)
    && (batches != [] ==> maxRecords > 0) && AllFit(Flatten(batches), maxBytes)
  }

  lemma NothingCommitted(all: seq<Message>, maxRecords: nat, maxBytes: nat)
    ensures Committed([], AsSeq<Message>(None) + all[0..], all, maxRecords, maxBytes)
    ensures Observe(map[], Flatten([])) == Some(([], map[]))
  {
    assert [] + ([] + all[0..]) == all;
    NothingObserved();
  }

  lemma CommittedIsFront(batches: seq<seq<Message>>, rest: seq<Message>, all: seq<Message>, maxRecords: nat, maxBytes: nat)
    requires Committed(batches, rest, all, maxRecords, maxBytes)
    ensures Flatten(batches) <= all && BatchesFit(batches, maxRecords, maxBytes)
    ensures rest == [] ==> Flatten(batches) == all && Committed(batches, [], all, maxRecords, maxBytes)
    ensures rest != [] ==>
              Flatten(batches) < all && all != [] && (|rest[0]| > maxBytes ==> !AllFit(all, maxBytes))
  {
    hide BatchesFit, Flatten;
    if rest != [] { assert all[|Flatten(batches)|] == rest[0]; }
  }

  lemma CommitsOneMore(batches: seq<seq<Message>>, stream: seq<Message>, all: seq<Message>, batch: seq<Message>,
                       rest: seq<Message>, maxRecords: nat, maxBytes: nat)
    requires Committed(batches, stream, all, maxRecords, maxBytes)
    requires BatchFits(batch, maxRecords, maxBytes) && batch + rest == stream
    ensures Committed(batches + [batch], rest, all, maxRecords, maxBytes)
    ensures Flatten(batches + [batch]) == Flatten(batches) + batch && stream != [] && |Flatten(batches + [batch])| <= |all|
    ensures |Flatten(batches)| < |Flatten(batches + [batch])|
  {
    FlattenOneMore(batches, batch);
    BatchHasMessages(batch, maxRecords, maxBytes);
    hide Flatten, BatchFits;
    assert (Flatten(batches) + batch) + rest == Flatten(batches) + (batch + rest);
  }

  lemma UndecodableInBatch(batches: seq<seq<Message>>, rest: seq<Message>, all: seq<Message>, maxRecords: nat, maxBytes: nat)
    requires Committed(batches, rest, all, maxRecords, maxBytes) && Observe(map[], Flatten(batches)).None?
    ensures !Decodable(all)
  {
    hide Flatten, Observe, Decodable, BatchesFit;
    ObserveSucceedsIff(map[], Flatten(batches));
    UndecodableStays(Flatten(batches), rest);
  }

  lemma AllIsCommitted(batches: seq<seq<Message>>, all: seq<Message>, maxRecords: nat, maxBytes: nat)
    requires Committed(batches, [], all, maxRecords, maxBytes) && Observe(map[], Flatten(batches)).Some?
    ensures Flatten(batches) == all && BatchesFit(batches, maxRecords, maxBytes)
    ensures all == [] || (maxRecords > 0 && AllFit(all, maxBytes) && Decodable(all))
  {
    hide Observe, Decodable, BatchesFit;
    assert Flatten(batches) == all;
    ObserveSucceedsIff(map[], all);
  }

  lemma NothingObserved()
    ensures Observe(map[], Flatten([])) == Some(([], map[]))
  {
  }

  lemma FlattenOneMore(batches: seq<seq<Message>>, batch: seq<Message>)
    ensures Flatten(batches + [batch]) == Flatten(batches) + batch
  {
    assert (batches + [batch])[..|batches|] == batches;
  }

  lemma {:induction false} BytesBoundsEach(batch: seq<Message>)
    ensures forall i :: 0 <= i < |batch| ==> |batch[i]| <= Bytes(batch)
  {
    if batch != [] {
      BytesBoundsEach(batch[..|batch| - 1]);
      assert forall i :: 0 <= i < |batch| - 1 ==> batch[..|batch| - 1][i] == batch[i];
    }
  }

  lemma BatchHasMessages(batch: seq<Message>, maxRecords: nat, maxBytes: nat)
    requires BatchFits(batch, maxRecords, maxBytes)
    ensures |batch| > 0 && maxRecords > 0 && AllFit(batch, maxBytes)
  {
    BytesBoundsEach(batch);
  }

  lemma UndecodableStays(xs: seq<Message>, ys: seq<Message>)
    requires !Decodable(xs)
    ensures !Decodable(xs + ys)
  {
    var i :| 0 <= i < |xs| && Decode(xs[i]).None?;
    assert (xs + ys)[i] == xs[i];
  }
}
