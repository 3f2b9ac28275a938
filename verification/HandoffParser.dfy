/** The handoff parser (crates/adapter-claude-code/src/lib.rs, `parse_handoff_jsonl`): a loop over the lines of a
    bounded text, specified by a fold, and what the fold promises. */
module HandoffParser {
  import opened Common
  import opened HandoffIdentity
  import opened HandoffMapping
  import Forest = HandoffForest

  const MAX_HANDOFF_BYTES := 1024 * 1024
  const MAX_HANDOFF_LINES := 4096
  const MAX_HANDOFF_LINE_BYTES := 64 * 1024
  const HANDOFF_SCHEMA_VERSION := "claude_handoff.v1"

  /** What the parser calls: JSON decoding, the test for white space only, the digest and the payload hash. */
  datatype Env = Env(
    decode: string -> Option<Record>,
    blank: string -> bool,
    digest: Digest,
    payloadHash: Observation -> Option<string>)

  datatype Disposition = Suppressed | Diagnostic

  datatype Item =
    | Kept(observation: Observation)
    | Disposed(recordIndex: nat, code: DiagnosticCode, checkpoint: Checkpoint, disposition: Disposition,
               payloadHash: Option<string>)

  function CheckpointOf(item: Item): Checkpoint {
    match item
    case Kept(o) => o.checkpoint
    case Disposed(_, _, checkpoint, _, _) => checkpoint
  }

  type PositionKey = (string, string, string)

  datatype Batch = Batch(items: seq<Item>, cursors: map<string, string>, positions: map<PositionKey, nat>)

  const EMPTY := Batch([], map[], map[])

  // ----- lines

  /** `str::lines`: split at line feeds, drop one carriage return before each, no empty line after the last feed. A
      last line without a line feed keeps its carriage return. */
  function Lines(text: string): seq<string> {
    if text == "" then []
    else
      var n := FirstFeed(text);
      if n == |text| then [text]
      else [WithoutReturn(text[..n])] + Lines(text[n + 1..])
  }

  function FirstFeed(text: string): (n: nat)
    ensures n <= |text|
    ensures '\n' !in text[..n]
    ensures n < |text| ==> text[n] == '\n'
  {
    if text == "" || text[0] == '\n' then 0
    else
      var n := FirstFeed(text[1..]);
      assert text[..n + 1] == [text[0]] + text[1..][..n];
      n + 1
  }

  function WithoutReturn(line: string): string {
    if line != "" && line[|line| - 1] == '\r' then line[..|line| - 1] else line
  }

  /** What follows a line feed has no say in the lines before it. */
  lemma FirstLine(a: string, b: string)
    requires a != "" && a[|a| - 1] == '\n'
    ensures var n := FirstFeed(a);
            && n < |a|
            && FirstFeed(a + b) == n
            && (a + b)[..n] == a[..n] && (a + b)[n + 1..] == a[n + 1..] + b
            && (a[n + 1..] == "" || a[n + 1..][|a| - n - 2] == '\n')
  {
    assert a[..|a|] == a;
    FirstFeedIsUnique(a + b, FirstFeed(a));
  }

  /** A text that ends with a line feed can be cut off there: its lines come first. */
  lemma {:induction false} LinesOfConcatenation(a: string, b: string)
    requires a == "" || a[|a| - 1] == '\n'
    ensures Lines(a + b) == Lines(a) + Lines(b)
    decreases |a|
  {
    if a == "" {
      assert a + b == b;
    } else {
      hide *;
      FirstLine(a, b);
      var n := FirstFeed(a);
      var rest, line := a[n + 1..], WithoutReturn(a[..n]);
      LinesOfConcatenation(rest, b);
      LinesPeel(a, n);
      LinesPeel(a + b, n);
      Regroup([line], Lines(rest), Lines(b));
    }
  }

  lemma LinesPeel(text: string, n: nat)
    requires n == FirstFeed(text) < |text|
    ensures Lines(text) == [WithoutReturn(text[..n])] + Lines(text[n + 1..])
  {
  }

  lemma {:induction false} FirstFeedIsUnique(text: string, n: nat)
    requires n < |text| && text[n] == '\n' && '\n' !in text[..n]
    ensures FirstFeed(text) == n
  {
    if n > 0 {
      assert text[0] == text[..n][0] && text[1..][..n - 1] == text[..n][1..];
      FirstFeedIsUnique(text[1..], n - 1);
    }
  }

  /** What may stand behind a line: a line feed, a carriage return with it, or nothing at the end of the text. */
  predicate IsEnd(line: string, end: string, last: bool) {
    (end == ['\n'] && (line == "" || line[|line| - 1] != '\r')) || end == ['\r', '\n'] || (end == "" && last && line != "")
  }

  /** No line has a line feed, and only the last may lack an end. */
  predicate WellEnded(lines: seq<string>, ends: seq<string>) {
    && |ends| == |lines|
    && forall i :: 0 <= i < |lines| ==> '\n' !in lines[i] && IsEnd(lines[i], ends[i], i == |lines| - 1)
  }

  /** The lines of a text and their ends make up the text. */
  lemma {:induction false} LinesAre(text: string) returns (ends: seq<string>)
    ensures WellEnded(Lines(text), ends) && text == Flatten(Woven(Lines(text), ends))
    decreases |text|
  {
    if text == "" {
      ends := [];
    } else {
      hide *;
      var n := FirstFeed(text);
      if n == |text| {
        ends := [""];
        OnlyLine(text);
      } else {
        var rest := LinesAre(text[n + 1..]);
        LinesPeel(text, n);
        var line := WithoutReturn(text[..n]);
        var end := if line == text[..n] then ['\n'] else ['\r', '\n'];
        ends := [end] + rest;
        FirstLineAndEnd(text, n, line, end);
        FirstEnded(line, end, Lines(text[n + 1..]), rest);
        FirstLineIsWoven(text, n, line, end, rest);
      }
    }
  }

  lemma OnlyLine(text: string)
    requires text != "" && FirstFeed(text) == |text|
    ensures WellEnded(Lines(text), [""]) && text == Flatten(Woven(Lines(text), [""]))
  {
    assert text[..|text|] == text && text + "" == text;
    FlattenOne(text + "");
    assert Woven(Lines(text), [""]) == [text + ""];
  }

  lemma FirstLineAndEnd(text: string, n: nat, line: string, end: string)
    requires n < |text| && n == FirstFeed(text) && line == WithoutReturn(text[..n])
    requires end == if line == text[..n] then ['\n'] else ['\r', '\n']
    ensures text == line + end + text[n + 1..] && '\n' !in line && IsEnd(line, end, false)
  {
    var head := text[..n];
    assert '\n' !in head && text[n] == '\n';
    hide FirstFeed;
    assert text == head + ['\n'] + text[n + 1..];
    ReturnIsDropped(head);
    if line != head {
      assert forall c :: c in line ==> c in head;
      assert line + ['\r', '\n'] == head + ['\n'];
    }
  }

  lemma ReturnIsDropped(head: string)
    ensures var line := WithoutReturn(head);
            if line == head then head == "" || head[|head| - 1] != '\r' else head == line + ['\r']
  {
  }

  lemma FirstEnded(line: string, end: string, lines: seq<string>, ends: seq<string>)
    requires '\n' !in line && IsEnd(line, end, false) && WellEnded(lines, ends)
    ensures WellEnded([line] + lines, [end] + ends)
  {
    var all, allEnds := [line] + lines, [end] + ends;
    forall i | 0 <= i < |all| ensures '\n' !in all[i] && IsEnd(all[i], allEnds[i], i == |all| - 1) {
      if i > 0 { assert all[i] == lines[i - 1] && allEnds[i] == ends[i - 1]; }
    }
  }

  lemma FirstLineIsWoven(text: string, n: nat, line: string, end: string, rest: seq<string>)
    requires n < |text| && text == line + end + text[n + 1..] && Lines(text) == [line] + Lines(text[n + 1..])
    requires |rest| == |Lines(text[n + 1..])| && text[n + 1..] == Flatten(Woven(Lines(text[n + 1..]), rest))
    ensures text == Flatten(Woven(Lines(text), [end] + rest))
  {
    hide Lines, Flatten;
    assert Woven(Lines(text), [end] + rest) == [line + end] + Woven(Lines(text[n + 1..]), rest);
    FlattenFirst(line + end, Woven(Lines(text[n + 1..]), rest));
  }

  /** Each line with its end. */
  function Woven(lines: seq<string>, ends: seq<string>): (woven: seq<string>)
    requires |lines| == |ends|
    ensures |woven| == |lines| && forall i :: 0 <= i < |lines| ==> woven[i] == lines[i] + ends[i]
  {
    seq(|lines|, i requires 0 <= i < |lines| => lines[i] + ends[i])
  }

  lemma FlattenOne(x: string)
    ensures Flatten([x]) == x
  {
    assert [x][..0] == [];
  }

  lemma {:induction false} FlattenFirst(x: string, xs: seq<string>)
    ensures Flatten([x] + xs) == x + Flatten(xs)
  {
    if xs == [] {
      assert [x] + xs == [x];
      FlattenOne(x);
    } else {
      assert ([x] + xs)[..|xs|] == [x] + xs[..|xs| - 1];
      FlattenFirst(x, xs[..|xs| - 1]);
    }
  }

  // ----- the fold

  predicate CursorInSequence(r: Record, cursors: map<string, string>) {
    && r.cursor != ""
    && r.previous != Some(r.cursor)
    && (r.generation in cursors ==> r.previous == Some(cursors[r.generation]))
  }

  /** A failure to map a record becomes a diagnostic. */
  function Settled(m: MappingResult): MappingResult {
    match m
    case Ok(_) => m
    case Err(error) =>
      if error == InvalidIdentifier then Ok(Diagnosed(MissingCorrelation))
      else if error == InvalidTiming || error == InvalidFieldType then Ok(Diagnosed(InvalidField))
      else m
  }

  function PushMapping(env: Env, b: Batch, recordIndex: nat, checkpoint: Checkpoint, mapping: Mapping):
    Result<Batch, AdapterError>
  {
    match mapping
    case Diagnosed(code) =>
      Ok(b.(items := b.items + [Disposed(recordIndex, code, checkpoint, Diagnostic, None)]))
    case Mapped(o) =>
      var hash := env.payloadHash(o);
      if hash.None? then Err(InvalidFieldType)
      else
        var key := (o.checkpoint.generation, o.spanId, hash.value);
        if key in b.positions then
          Ok(b.(items := b.items + [Disposed(recordIndex, DuplicateObservation, checkpoint, Suppressed, hash)]))
        else
          Ok(b.(items := b.items + [Kept(o)], positions := b.positions[key := |b.items|]))
  }

  function PushRecord(env: Env, b: Batch, recordIndex: nat, r: Record): Result<Batch, AdapterError> {
    if r.schemaVersion != HANDOFF_SCHEMA_VERSION then Err(InvalidSchema)
    else if !CursorInSequence(r, b.cursors) then Err(InvalidCursorSequence)
    else
      var checkpoint :- CheckpointFromRecord(r);
      var mapping :- Settled(ObservationFromRecord(env.digest, r));
      PushMapping(env, b.(cursors := b.cursors[r.generation := r.cursor]), recordIndex, checkpoint, mapping)
  }

  function PushLine(env: Env, b: Batch, index: nat, line: string): Result<Batch, AdapterError> {
    if index >= MAX_HANDOFF_LINES then Err(TooManyRecords)
    else if |line| > MAX_HANDOFF_LINE_BYTES then Err(RecordTooLarge)
    else if env.blank(line) then Ok(b)
    else if env.decode(line).None? then Err(InvalidJson)
    else PushRecord(env, b, index + 1, env.decode(line).value)
  }

  function ParseLines(env: Env, lines: seq<string>): Result<Batch, AdapterError> {
    if lines == [] then Ok(EMPTY)
    else
      var b :- ParseLines(env, lines[..|lines| - 1]);
      PushLine(env, b, |lines| - 1, lines[|lines| - 1])
  }

  function Parse(env: Env, input: string): Result<seq<Item>, AdapterError> {
    if |input| > MAX_HANDOFF_BYTES then Err(HandoffTooLarge)
    else
      var b :- ParseLines(env, Lines(input));
      Ok(b.items)
  }

  lemma {:induction false} FailureStays(env: Env, lines: seq<string>, n: nat)
    requires n <= |lines| && ParseLines(env, lines[..n]).Err?
    ensures ParseLines(env, lines) == ParseLines(env, lines[..n])
    decreases |lines|
  {
    if n == |lines| {
      assert lines[..n] == lines;
    } else {
      var front := lines[..|lines| - 1];
      assert front[..n] == lines[..n];
      FailureStays(env, front, n);
    }
  }

  method RecordMapping(env: Env, items: seq<Item>, ghost cursors: map<string, string>, positions: map<PositionKey, nat>,
                       recordIndex: nat, checkpoint: Checkpoint, mapping: Mapping)
    returns (r: Result<(seq<Item>, map<PositionKey, nat>), AdapterError>)
    ensures match PushMapping(env, Batch(items, cursors, positions), recordIndex, checkpoint, mapping)
            case Ok(b) => b.cursors == cursors && r == Ok((b.items, b.positions))
            case Err(error) => r == Err(error)
  {
    match mapping {
      case Mapped(observation) =>
        var hash := env.payloadHash(observation);
        if hash.None? { return Err(InvalidFieldType); }
        var key := (observation.checkpoint.generation, observation.spanId, hash.value);
        if key in positions {
          return Ok((items + [Disposed(recordIndex, DuplicateObservation, checkpoint, Suppressed, hash)], positions));
        }
        return Ok((items + [Kept(observation)], positions[key := |items|]));
      case Diagnosed(code) =>
        return Ok((items + [Disposed(recordIndex, code, checkpoint, Diagnostic, None)], positions));
    }
  }

  /** One line of the loop. `positions` remembers where an observation was first seen. */
  method ParseLine(env: Env, batch: Batch, index: nat, line: string) returns (r: Result<Batch, AdapterError>)
    ensures r == PushLine(env, batch, index, line)
  {
    hide ObservationFromRecord, CheckpointFromRecord, CursorInSequence, PushMapping, Settled;
    if index >= MAX_HANDOFF_LINES { return Err(TooManyRecords); }
    if |line| > MAX_HANDOFF_LINE_BYTES { return Err(RecordTooLarge); }
    if env.blank(line) { return Ok(batch); }
    var decoded := env.decode(line);
    if decoded.None? { return Err(InvalidJson); }
    var record := decoded.value;
    if record.schemaVersion != HANDOFF_SCHEMA_VERSION { return Err(InvalidSchema); }
    if !CursorInSequence(record, batch.cursors) { return Err(InvalidCursorSequence); }
    var rawCursors := batch.cursors[record.generation := record.cursor];
    var checkpoint := CheckpointFromRecord(record);
    if checkpoint.Err? { return Err(checkpoint.error); }
    var mapping := Settled(ObservationFromRecord(env.digest, record));
    if mapping.Err? { return Err(mapping.error); }
    var pushed := RecordMapping(env, batch.items, rawCursors, batch.positions, index + 1, checkpoint.value, mapping.value);
    if pushed.Err? { return Err(pushed.error); }
    return Ok(Batch(pushed.value.0, rawCursors, pushed.value.1));
  }

  method ParseHandoffJsonl(env: Env, input: string) returns (r: Result<seq<Item>, AdapterError>)
    ensures r == Parse(env, input)
  {
    if |input| > MAX_HANDOFF_BYTES { return Err(HandoffTooLarge); }
    var batch := EMPTY;
    var lines := Lines(input);
    for index := 0 to |lines|
      invariant ParseLines(env, lines[..index]) == Ok(batch)
    {
      assert lines[..index + 1][..index] == lines[..index];
      var pushed := ParseLine(env, batch, index, lines[index]);
      assert ParseLines(env, lines[..index + 1]) == pushed;
      if pushed.Err? {
        FailureStays(env, lines, index + 1);
        return Err(pushed.error);
      }
      batch := pushed.value;
    }
    assert lines[..|lines|] == lines;
    return Ok(batch.items);
  }

  // ----- records and items

  /** A record with the number of the line it stands on. */
  datatype Numbered = Numbered(line: nat, record: Record)

  /** The records on the lines that are not blank; lines that do not decode have none. */
  function Records(env: Env, lines: seq<string>): seq<Numbered> {
    if lines == [] then []
    else
      var n := |lines| - 1;
      Records(env, lines[..n]) +
      (if env.blank(lines[n]) || env.decode(lines[n]).None? then [] else [Numbered(n + 1, env.decode(lines[n]).value)])
  }

  predicate ItemFits(env: Env, item: Item, n: Numbered) {
    && CheckpointOf(item) == Checkpoint(n.record.generation, n.record.previous, n.record.cursor)
    && (item.Disposed? ==> item.recordIndex == n.line)
    && (item.Kept? ==> ObservationFromRecord(env.digest, n.record) == Ok(Mapped(item.observation)))
    && (item.Disposed? ==>
          match item.disposition
          case Diagnostic =>
            Settled(ObservationFromRecord(env.digest, n.record)) == Ok(Diagnosed(item.code)) && item.payloadHash.None?
          case Suppressed =>
            var m := ObservationFromRecord(env.digest, n.record);
            && m.Ok? && m.value.Mapped? && item.code == DuplicateObservation
            && item.payloadHash.Some? && item.payloadHash == env.payloadHash(m.value.observation))
  }

  lemma CheckpointIsTheRecords(r: Record)
    ensures var c := CheckpointFromRecord(r);
            && (c.Ok? ==> c.value == Checkpoint(r.generation, r.previous, r.cursor))
            && (c.Ok? <==> ValidIdentifier(r.generation) && (r.previous.Some? ==> ValidIdentifier(r.previous.value))
                           && ValidIdentifier(r.cursor))
            && (c.Err? ==> c.error == InvalidIdentifier)
  {
  }

  /** Whatever is pushed, it is exactly one item, for this record. */
  lemma PushedItemFits(env: Env, b: Batch, index: nat, r: Record)
    requires PushRecord(env, b, index, r).Ok?
    ensures var t := PushRecord(env, b, index, r).value;
            && |t.items| == |b.items| + 1 && t.items[..|b.items|] == b.items
            && ItemFits(env, t.items[|b.items|], Numbered(index, r))
            && t.cursors == b.cursors[r.generation := r.cursor]
  {
    hide ObservationFromRecord, CheckpointFromRecord, CursorInSequence;
    CheckpointIsTheRecords(r);
    CheckpointIsDerived(env.digest, r);
  }

  lemma CheckpointIsDerived(digest: Digest, r: Record)
    ensures var m := ObservationFromRecord(digest, r);
            m.Ok? && m.value.Mapped? ==> m.value.observation.checkpoint == Checkpoint(r.generation, r.previous, r.cursor)
  {
    hide ObservationFromRecord;
    Forest.EveryObservationIsDerived(digest, r);
  }

  /** A successful parse gives one item for every line that is not blank, in order, with that line's checkpoint. */
  lemma {:induction false} OneItemPerRecord(env: Env, lines: seq<string>)
    requires ParseLines(env, lines).Ok?
    ensures var items, records := ParseLines(env, lines).value.items, Records(env, lines);
            && |items| == |records|
            && (forall k :: 0 <= k < |items| ==> ItemFits(env, items[k], records[k]))
            && (forall i :: 0 <= i < |lines| ==> env.blank(lines[i]) || env.decode(lines[i]).Some?)
  {
    hide ItemFits, PushRecord;
    if lines == [] {
    } else {
      var n := |lines| - 1;
      OneItemPerRecord(env, lines[..n]);
      assert forall i :: 0 <= i < n ==> lines[..n][i] == lines[i];
      if !env.blank(lines[n]) {
        var b := ParseLines(env, lines[..n]).value;
        PushedItemFits(env, b, n + 1, env.decode(lines[n]).value);
        var items := ParseLines(env, lines).value.items;
        assert forall k :: 0 <= k < |b.items| ==> items[k] == items[..|b.items|][k];
      }
    }
  }

  // ----- cursor chains

  /** The cursor of the last of these records that is of the given generation. */
  function GenerationCursor(records: seq<Numbered>, generation: string): Option<string> {
    if records == [] then None
    else
      var r := records[|records| - 1].record;
      if r.generation == generation then Some(r.cursor) else GenerationCursor(records[..|records| - 1], generation)
  }

  predicate Chained(r: Record, last: Option<string>) {
    r.cursor != "" && r.previous != Some(r.cursor) && (last.Some? ==> r.previous == last)
  }

  /** All that a record needs besides its place in the chain. */
  predicate Admissible(env: Env, r: Record) {
    && r.schemaVersion == HANDOFF_SCHEMA_VERSION
    && ValidIdentifier(r.generation) && (r.previous.Some? ==> ValidIdentifier(r.previous.value)) && ValidIdentifier(r.cursor)
    && Hashable(env, r)
  }

  predicate Hashable(env: Env, r: Record) {
    var m := ObservationFromRecord(env.digest, r);
    m.Ok? && m.value.Mapped? ==> env.payloadHash(m.value.observation).Some?
  }

  predicate LineFits(env: Env, line: string) {
    |line| <= MAX_HANDOFF_LINE_BYTES && (env.blank(line) || env.decode(line).Some?)
  }

  ghost predicate CursorsAre(b: Batch, records: seq<Numbered>) {
    forall generation :: GenerationCursor(records, generation) ==
                         (if generation in b.cursors then Some(b.cursors[generation]) else None)
  }

  lemma RecordIsPushedIff(env: Env, b: Batch, index: nat, r: Record, records: seq<Numbered>)
    requires CursorsAre(b, records)
    ensures PushRecord(env, b, index, r).Ok? <==>
              Admissible(env, r) && Chained(r, GenerationCursor(records, r.generation))
  {
    hide ObservationFromRecord, GenerationCursor;
    CheckpointIsTheRecords(r);
    Forest.OtherAttributesLeaveNoTrace(env.digest, r, r.attributes);
  }

  lemma CursorsMoveOn(env: Env, b: Batch, index: nat, n: Numbered, records: seq<Numbered>)
    requires CursorsAre(b, records) && PushRecord(env, b, index, n.record).Ok?
    ensures CursorsAre(PushRecord(env, b, index, n.record).value, records + [n])
  {
    hide PushRecord;
    PushedItemFits(env, b, index, n.record);
    assert (records + [n])[..|records|] == records;
  }

  /** Every record is admissible and continues the chain of its generation. */
  ghost predicate WellChained(env: Env, records: seq<Numbered>) {
    forall k :: 0 <= k < |records| ==>
      Admissible(env, records[k].record) && Chained(records[k].record, GenerationCursor(records[..k], records[k].record.generation))
  }

  /** The lines a parse accepts, in full: not too many, none too long, every one blank or a record, every record
      admissible, and in each generation every record's previous cursor the cursor of the record before. */
  lemma {:induction false} ParseSucceedsIff(env: Env, lines: seq<string>)
    ensures ParseLines(env, lines).Ok? <==>
              && |lines| <= MAX_HANDOFF_LINES
              && (forall i :: 0 <= i < |lines| ==> LineFits(env, lines[i]))
              && WellChained(env, Records(env, lines))
    ensures ParseLines(env, lines).Ok? ==> CursorsAre(ParseLines(env, lines).value, Records(env, lines))
  {
    NothingParsed(env);
    hide PushRecord, Admissible, Chained, CursorsAre, GenerationCursor;
    if lines == [] {
    } else {
      var n := |lines| - 1;
      var front := lines[..n];
      ParseSucceedsIff(env, front);
      RecordsOfFront(env, lines);
      assert forall i :: 0 <= i < n ==> front[i] == lines[i];
      if ParseLines(env, front).Ok? && |lines| <= MAX_HANDOFF_LINES && LineFits(env, lines[n]) && !env.blank(lines[n]) {
        var b, r := ParseLines(env, front).value, env.decode(lines[n]).value;
        RecordIsPushedIff(env, b, n + 1, r, Records(env, front));
        if PushRecord(env, b, n + 1, r).Ok? {
          CursorsMoveOn(env, b, n + 1, Numbered(n + 1, r), Records(env, front));
        }
      }
    }
  }

  // ----- the error of a rejected input

  predicate NamesAreValid(r: Record) {
    ValidIdentifier(r.generation) && ValidIdentifier(r.cursor) && (r.previous.Some? ==> ValidIdentifier(r.previous.value))
  }

  /** What is wrong with a line behind these records, if anything: the first fault in this order. */
  function FaultOf(env: Env, before: seq<Numbered>, index: nat, line: string): Option<AdapterError> {
    if index >= 4096 then Some(TooManyRecords)
    else if |line| > 65536 then Some(RecordTooLarge)
    else if env.blank(line) then None
    else match env.decode(line)
      case None => Some(InvalidJson)
      case Some(r) =>
        if r.schemaVersion != HANDOFF_SCHEMA_VERSION then Some(InvalidSchema)
        else if !Chained(r, GenerationCursor(before, r.generation)) then Some(InvalidCursorSequence)
        else if !NamesAreValid(r) then Some(InvalidIdentifier)
        else if !Hashable(env, r) then Some(InvalidFieldType)
        else None
  }

  function FaultAt(env: Env, lines: seq<string>, k: nat): Option<AdapterError>
    requires k < |lines|
  {
    FaultOf(env, Records(env, lines[..k]), k, lines[k])
  }

  predicate FirstFault(env: Env, lines: seq<string>, k: nat, error: AdapterError)
    requires k < |lines|
  {
    FaultAt(env, lines, k) == Some(error) && forall j: nat :: j < k ==> FaultAt(env, lines, j).None?
  }

  ghost predicate Faulty(env: Env, lines: seq<string>, error: AdapterError) {
    exists k: nat :: k < |lines| && FirstFault(env, lines, k, error)
  }

  lemma RecordFaults(env: Env, b: Batch, index: nat, r: Record, before: seq<Numbered>)
    requires CursorsAre(b, before)
    ensures var pushed := PushRecord(env, b, index, r);
            if r.schemaVersion != HANDOFF_SCHEMA_VERSION then pushed == Err(InvalidSchema)
            else if !Chained(r, GenerationCursor(before, r.generation)) then pushed == Err(InvalidCursorSequence)
            else if !NamesAreValid(r) then pushed == Err(InvalidIdentifier)
            else if !Hashable(env, r) then pushed == Err(InvalidFieldType)
            else pushed.Ok?
  {
    hide ObservationFromRecord, GenerationCursor;
    CheckpointIsTheRecords(r);
    Forest.OtherAttributesLeaveNoTrace(env.digest, r, r.attributes);
  }

  lemma LineFaults(env: Env, b: Batch, index: nat, line: string, before: seq<Numbered>)
    requires CursorsAre(b, before)
    ensures match FaultOf(env, before, index, line)
            case Some(error) => PushLine(env, b, index, line) == Err(error)
            case None => PushLine(env, b, index, line).Ok?
  {
    hide PushRecord, CursorsAre, Chained, GenerationCursor, NamesAreValid, Hashable;
    if !env.blank(line) && env.decode(line).Some? { RecordFaults(env, b, index + 1, env.decode(line).value, before); }
  }

  lemma {:induction false} FaultsDecide(env: Env, lines: seq<string>)
    ensures match ParseLines(env, lines)
            case Ok(_) => forall j: nat :: j < |lines| ==> FaultAt(env, lines, j).None?
            case Err(error) => Faulty(env, lines, error)
  {
    hide PushLine, FaultOf, Records, CursorsAre, WellChained;
    if lines != [] {
      var n := |lines| - 1;
      var front := lines[..n];
      FaultsDecide(env, front);
      assert forall j: nat :: j < n ==> front[..j] == lines[..j] && front[j] == lines[j];
      assert forall j: nat :: j < n ==> FaultAt(env, front, j) == FaultAt(env, lines, j);
      match ParseLines(env, front) {
        case Ok(b) =>
          ParseSucceedsIff(env, front);
          LineFaults(env, b, n, lines[n], Records(env, front));
          var fault := FaultAt(env, lines, n);
          assert ParseLines(env, lines) == PushLine(env, b, n, lines[n]);
          assert fault.Some? ==> FirstFault(env, lines, n, fault.value) && Faulty(env, lines, fault.value);
        case Err(error) =>
          var k: nat :| k < n && FirstFault(env, front, k, error);
          assert FirstFault(env, lines, k, error) && Faulty(env, lines, error);
      }
    }
  }

  /** The error a parse gives is that of the first line with a fault, and what comes behind that line does not matter. */
  lemma ErrorIsFirstFault(env: Env, input: string, error: AdapterError)
    ensures Parse(env, input) == Err(error) <==>
              if |input| > MAX_HANDOFF_BYTES then error == HandoffTooLarge
              else Faulty(env, Lines(input), error)
  {
    hide ParseLines, FaultAt, Lines;
    if |input| <= MAX_HANDOFF_BYTES { FaultsDecide(env, Lines(input)); }
  }

  lemma NothingParsed(env: Env)
    ensures CursorsAre(EMPTY, []) && WellChained(env, [])
  {
  }

  lemma RecordsOfFront(env: Env, lines: seq<string>)
    requires lines != []
    ensures var n, front := |lines| - 1, Records(env, lines[..|lines| - 1]);
            if env.blank(lines[n]) || env.decode(lines[n]).None? then Records(env, lines) == front
            else
              var r := env.decode(lines[n]).value;
              && Records(env, lines) == front + [Numbered(n + 1, r)]
              && (WellChained(env, Records(env, lines)) <==>
                    WellChained(env, front) && Admissible(env, r) && Chained(r, GenerationCursor(front, r.generation)))
  {
    hide Admissible, Chained, GenerationCursor, WellChained;
    var n := |lines| - 1;
    if !(env.blank(lines[n]) || env.decode(lines[n]).None?) {
      OneMoreRecord(env, Records(env, lines[..n]), Numbered(n + 1, env.decode(lines[n]).value));
    }
  }

  lemma OneMoreRecord(env: Env, front: seq<Numbered>, n: Numbered)
    ensures WellChained(env, front + [n]) <==>
              WellChained(env, front) && Admissible(env, n.record)
              && Chained(n.record, GenerationCursor(front, n.record.generation))
  {
    hide Admissible, Chained, GenerationCursor;
    var all := front + [n];
    assert all[..|front|] == front && all[|front|] == n;
    forall k | 0 <= k < |front| ensures all[k] == front[k] && all[..k] == front[..k] {
    }
  }

  /** Each item's previous cursor is the cursor of the item before it in the same generation. */
  lemma ItemsChain(env: Env, lines: seq<string>, i: nat, j: nat)
    requires ParseLines(env, lines).Ok?
    requires var items := ParseLines(env, lines).value.items;
             && i < j < |items|
             && CheckpointOf(items[i]).generation == CheckpointOf(items[j]).generation
             && forall k :: i < k < j ==> CheckpointOf(items[k]).generation != CheckpointOf(items[j]).generation
    ensures var items := ParseLines(env, lines).value.items;
            && CheckpointOf(items[j]).previous == Some(CheckpointOf(items[i]).cursor)
            && CheckpointOf(items[j]).cursor != CheckpointOf(items[i]).cursor
  {
    hide ParseLines, GenerationCursor, Admissible;
    OneItemPerRecord(env, lines);
    ParseSucceedsIff(env, lines);
    var items, records := ParseLines(env, lines).value.items, Records(env, lines);
    forall k | 0 <= k <= j ensures ItemFits(env, items[k], records[k]) {}
    GenerationCursorIs(records[..j], records[j].record.generation, i);
  }

  lemma {:induction false} GenerationCursorIs(records: seq<Numbered>, generation: string, i: nat)
    requires i < |records| && records[i].record.generation == generation
    requires forall k :: i < k < |records| ==> records[k].record.generation != generation
    ensures GenerationCursor(records, generation) == Some(records[i].record.cursor)
  {
    if i < |records| - 1 { GenerationCursorIs(records[..|records| - 1], generation, i); }
  }

  // ----- attributes do not decide

  predicate SameEnvelope(a: Record, b: Record) {
    a.schemaVersion == b.schemaVersion && a.generation == b.generation && a.previous == b.previous && a.cursor == b.cursor
  }

  predicate SameLine(env: Env, a: string, b: string) {
    && (env.blank(a) <==> env.blank(b))
    && (|a| <= MAX_HANDOFF_LINE_BYTES <==> |b| <= MAX_HANDOFF_LINE_BYTES)
    && (!env.blank(a) ==>
          && (env.decode(a).Some? <==> env.decode(b).Some?)
          && (env.decode(a).Some? ==> SameEnvelope(env.decode(a).value, env.decode(b).value)))
  }

  ghost predicate HashIsTotal(env: Env) { forall o :: env.payloadHash(o).Some? }

  /** Whether a parse succeeds depends on the lines' sizes, the schema and the cursors, never on a surface, an event
      name, a time or an attribute; these can only turn an observation into a diagnostic. */
  lemma {:induction false} AttributesNeverDecide(env: Env, xs: seq<string>, ys: seq<string>)
    requires HashIsTotal(env) && |xs| == |ys|
    requires forall i :: 0 <= i < |xs| ==> SameLine(env, xs[i], ys[i])
    ensures ParseLines(env, xs).Ok? <==> ParseLines(env, ys).Ok?
    ensures ParseLines(env, xs).Ok? ==> ParseLines(env, xs).value.cursors == ParseLines(env, ys).value.cursors
    ensures ParseLines(env, xs).Ok? ==> |ParseLines(env, xs).value.items| == |ParseLines(env, ys).value.items|
    ensures ParseLines(env, xs).Err? ==> ParseLines(env, xs) == ParseLines(env, ys)
  {
    hide PushRecord;
    if xs == [] {
    } else {
      var n := |xs| - 1;
      forall i | 0 <= i < n ensures SameLine(env, xs[..n][i], ys[..n][i]) {
        assert SameLine(env, xs[i], ys[i]);
      }
      AttributesNeverDecide(env, xs[..n], ys[..n]);
      assert SameLine(env, xs[n], ys[n]);
      if ParseLines(env, xs[..n]).Ok? && !env.blank(xs[n]) && env.decode(xs[n]).Some? {
        EnvelopesDecide(env, ParseLines(env, xs[..n]).value, ParseLines(env, ys[..n]).value, n + 1,
                        env.decode(xs[n]).value, env.decode(ys[n]).value);
      }
    }
  }

  lemma EnvelopesDecide(env: Env, a: Batch, b: Batch, index: nat, r: Record, t: Record)
    requires HashIsTotal(env) && a.cursors == b.cursors && |a.items| == |b.items| && SameEnvelope(r, t)
    ensures var x, y := PushRecord(env, a, index, r), PushRecord(env, b, index, t);
            && (x.Ok? <==> y.Ok?)
            && (x.Ok? ==> x.value.cursors == y.value.cursors && |x.value.items| == |y.value.items|)
            && (x.Err? ==> x == y)
  {
    hide ObservationFromRecord;
    Forest.OtherAttributesLeaveNoTrace(env.digest, r, r.attributes);
    Forest.OtherAttributesLeaveNoTrace(env.digest, t, t.attributes);
  }

  // ----- prefixes

  /** What has been parsed stays: the first lines give the first items. */
  lemma {:induction false} PrefixOfItems(env: Env, lines: seq<string>, n: nat)
    requires n <= |lines| && ParseLines(env, lines).Ok?
    ensures ParseLines(env, lines[..n]).Ok?
    ensures ParseLines(env, lines[..n]).value.items <= ParseLines(env, lines).value.items
    decreases |lines|
  {
    hide PushRecord;
    if n == |lines| {
      assert lines[..n] == lines;
    } else {
      var m := |lines| - 1;
      assert lines[..m][..n] == lines[..n];
      PrefixOfItems(env, lines[..m], n);
      if !env.blank(lines[m]) {
        PushedItemFits(env, ParseLines(env, lines[..m]).value, m + 1, env.decode(lines[m]).value);
      }
    }
  }

  /** A handoff that has only grown since it was read, line by line, is read the same way as far as it had come. */
  lemma GrownHandoffKeepsItems(env: Env, a: string, b: string)
    requires a == "" || a[|a| - 1] == '\n'
    requires Parse(env, a + b).Ok?
    ensures Parse(env, a).Ok? && Parse(env, a).value <= Parse(env, a + b).value
  {
    LinesOfConcatenation(a, b);
    var lines := Lines(a + b);
    assert lines[..|Lines(a)|] == Lines(a);
    PrefixOfItems(env, lines, |Lines(a)|);
  }

  // ----- duplicates

  function KeyOf(env: Env, o: Observation): PositionKey
    requires env.payloadHash(o).Some?
  {
    (o.checkpoint.generation, o.spanId, env.payloadHash(o).value)
  }

  predicate HasKey(env: Env, item: Item, key: PositionKey) {
    item.Kept? && env.payloadHash(item.observation).Some? && KeyOf(env, item.observation) == key
  }

  /** The positions are those of the observations kept so far. */
  ghost predicate PositionsAre(env: Env, b: Batch) {
    && (forall key :: key in b.positions ==>
          b.positions[key] < |b.items| && HasKey(env, b.items[b.positions[key]], key))
    && (forall k :: 0 <= k < |b.items| && b.items[k].Kept? ==>
          && env.payloadHash(b.items[k].observation).Some?
          && KeyOf(env, b.items[k].observation) in b.positions
          && b.positions[KeyOf(env, b.items[k].observation)] == k)
  }

  /** Item `k` stands for the observation that its record maps to, or says that it repeats an earlier item. */
  ghost predicate DuplicateExactly(env: Env, items: seq<Item>, k: nat, r: Record)
    requires k < |items|
  {
    var m := ObservationFromRecord(env.digest, r);
    if m.Ok? && m.value.Mapped? && env.payloadHash(m.value.observation).Some? then
      if exists i :: 0 <= i < k && HasKey(env, items[i], KeyOf(env, m.value.observation))
      then items[k].Disposed? && items[k].code == DuplicateObservation && items[k].disposition == Suppressed
      else items[k] == Kept(m.value.observation)
    else items[k].Disposed? && items[k].code != DuplicateObservation && items[k].disposition == Diagnostic
  }

  /** Item by item, for all the records. */
  ghost predicate AllExact(env: Env, items: seq<Item>, records: seq<Numbered>) {
    |items| == |records| && forall k :: 0 <= k < |records| ==> DuplicateExactly(env, items, k, records[k].record)
  }

  lemma PushMappingKeepsPositions(env: Env, b: Batch, c: Batch, index: nat, checkpoint: Checkpoint, mapping: Mapping)
    requires PositionsAre(env, b) && c == b.(cursors := c.cursors)
    requires mapping != Diagnosed(DuplicateObservation) && PushMapping(env, c, index, checkpoint, mapping).Ok?
    ensures var t := PushMapping(env, c, index, checkpoint, mapping).value;
            && PositionsAre(env, t)
            && |t.items| == |b.items| + 1 && t.items[..|b.items|] == b.items
            && (mapping.Diagnosed? ==> t.items[|b.items|] == Disposed(index, mapping.code, checkpoint, Diagnostic, None))
            && (mapping.Mapped? ==>
                  && env.payloadHash(mapping.observation).Some?
                  && var key := KeyOf(env, mapping.observation);
                     if exists i :: 0 <= i < |b.items| && HasKey(env, t.items[i], key)
                     then t.items[|b.items|].Disposed? && t.items[|b.items|].code == DuplicateObservation
                          && t.items[|b.items|].disposition == Suppressed
                     else t.items[|b.items|] == Kept(mapping.observation))
  {
    if mapping.Mapped? {
      var t, key := PushMapping(env, c, index, checkpoint, mapping).value, KeyOf(env, mapping.observation);
      if key in b.positions { assert HasKey(env, t.items[b.positions[key]], key); }
    }
  }

  lemma PushKeepsPositions(env: Env, b: Batch, index: nat, r: Record)
    requires PositionsAre(env, b) && PushRecord(env, b, index, r).Ok?
    ensures var t := PushRecord(env, b, index, r).value;
            && PositionsAre(env, t)
            && |t.items| == |b.items| + 1 && t.items[..|b.items|] == b.items
            && DuplicateExactly(env, t.items, |b.items|, r)
  {
    hide ObservationFromRecord, PushMapping, PositionsAre, HasKey;
    Forest.OtherAttributesLeaveNoTrace(env.digest, r, r.attributes);
    PushMappingKeepsPositions(env, b, b.(cursors := b.cursors[r.generation := r.cursor]), index,
                              CheckpointFromRecord(r).value, Settled(ObservationFromRecord(env.digest, r)).value);
  }

  /** A record is suppressed as a duplicate exactly when an item before it is an observation of the same generation,
      span and payload; otherwise its observation is kept. */
  lemma {:induction false} DuplicatesAreExact(env: Env, lines: seq<string>)
    requires ParseLines(env, lines).Ok?
    ensures var b, records := ParseLines(env, lines).value, Records(env, lines);
            PositionsAre(env, b) && AllExact(env, b.items, records)
  {
    if lines == [] {
    } else {
      hide PushRecord, PositionsAre, DuplicateExactly, AllExact;
      var n := |lines| - 1;
      DuplicatesAreExact(env, lines[..n]);
      var b := ParseLines(env, lines[..n]).value;
      if !env.blank(lines[n]) {
        var r, t := env.decode(lines[n]).value, ParseLines(env, lines).value;
        PushKeepsPositions(env, b, n + 1, r);
        RecordsOfFront(env, lines);
        hide Records, ParseLines;
        OneMoreIsExact(env, b.items, t.items, Records(env, lines[..n]), Numbered(n + 1, r));
      }
    }
  }

  lemma OneMoreIsExact(env: Env, items: seq<Item>, more: seq<Item>, records: seq<Numbered>, n: Numbered)
    requires AllExact(env, items, records)
    requires |more| == |items| + 1 && more[..|items|] == items && DuplicateExactly(env, more, |items|, n.record)
    ensures AllExact(env, more, records + [n])
  {
    hide DuplicateExactly;
    var all := records + [n];
    forall k | 0 <= k < |all| ensures DuplicateExactly(env, more, k, all[k].record) {
      if k < |items| { LaterItemsDoNotMatter(env, items, more, k, records[k].record); }
    }
  }

  lemma LaterItemsDoNotMatter(env: Env, items: seq<Item>, more: seq<Item>, k: nat, r: Record)
    requires k < |items| <= |more| && more[..|items|] == items && DuplicateExactly(env, items, k, r)
    ensures DuplicateExactly(env, more, k, r)
  {
    hide ObservationFromRecord;
    assert forall i :: 0 <= i < |items| ==> items[i] == more[i];
  }

  /** So no two observations of a batch agree in generation, span and payload. */
  lemma ObservationsAreDistinct(env: Env, lines: seq<string>, i: nat, j: nat)
    requires ParseLines(env, lines).Ok?
    requires var items := ParseLines(env, lines).value.items;
             i < j < |items| && items[i].Kept? && items[j].Kept?
    ensures var items := ParseLines(env, lines).value.items;
            && env.payloadHash(items[i].observation).Some? && env.payloadHash(items[j].observation).Some?
            && KeyOf(env, items[i].observation) != KeyOf(env, items[j].observation)
  {
    hide ParseLines;
    DuplicatesAreExact(env, lines);
  }

  // ----- the forest of a whole batch

  /** The observations found at `path`, each the parent of the one before. */
  predicate ParentPath(items: seq<Item>, path: seq<nat>) {
    && (forall i :: 0 <= i < |path| ==> path[i] < |items| && items[path[i]].Kept?)
    && (forall i :: 0 <= i < |path| - 1 ==>
          items[path[i]].observation.parentSpanId == Some(items[path[i + 1]].observation.spanId))
  }

  /** In whatever a parse accepts, following parents from observation to observation ends after at most two steps
      and never comes back to a span. */
  lemma BatchIsAForest(env: Env, lines: seq<string>, path: seq<nat>)
    requires ParseLines(env, lines).Ok? && ParentPath(ParseLines(env, lines).value.items, path)
    ensures |path| <= 3
    ensures var items := ParseLines(env, lines).value.items;
            forall i, j :: 0 <= i < j < |path| ==>
              items[path[i]].observation.spanId != items[path[j]].observation.spanId
  {
    hide ParseLines, Forest.IsDerived;
    var items := ParseLines(env, lines).value.items;
    var chain := seq(|path|, i requires 0 <= i < |path| => items[path[i]].observation);
    forall i | 0 <= i < |chain| ensures Forest.IsDerived(env.digest, chain[i]) {
      KeptIsDerived(env, lines, path[i]);
    }
    Forest.ParentChainsAreShort(env.digest, chain);
    forall i, j | 0 <= i < j < |path|
      ensures items[path[i]].observation.spanId != items[path[j]].observation.spanId
    {
      assert chain[i].spanId != chain[j].spanId;
    }
  }

  lemma KeptIsDerived(env: Env, lines: seq<string>, k: nat)
    requires ParseLines(env, lines).Ok?
    requires k < |ParseLines(env, lines).value.items| && ParseLines(env, lines).value.items[k].Kept?
    ensures Forest.IsDerived(env.digest, ParseLines(env, lines).value.items[k].observation)
  {
    hide ParseLines, ObservationFromRecord, Derived;
    OneItemPerRecord(env, lines);
    var r := Records(env, lines)[k].record;
    assert ItemFits(env, ParseLines(env, lines).value.items[k], Records(env, lines)[k]);
    Forest.EveryObservationIsDerived(env.digest, r);
  }
}
