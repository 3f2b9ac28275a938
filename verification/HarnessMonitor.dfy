/** The streaming network monitor (xtask/src/main.rs, `record_macos_network_line`, `macos_cycle_started_after`) and
    what a whole stream means. */
module HarnessMonitor {
  import opened Common

  const U64_MAX: nat := 0xFFFF_FFFF_FFFF_FFFF

  /** A line by its white-space separated fields, without control characters, and when it was read. */
  datatype Line = Line(fields: seq<string>, at: int)

  datatype LineKind = Header | Row(bytesIn: nat, bytesOut: nat) | Malformed

  /** `parse` reads an unsigned 64-bit number. */
  type Parse = string -> Option<nat>

  function KindOf(parse: Parse, line: Line): LineKind {
    var f := line.fields;
    var n := |f|;
    if n >= 2 && f[n - 2] == "bytes_in" && f[n - 1] == "bytes_out" then Header
    else if n < 3 || parse(f[n - 2]).None? || parse(f[n - 1]).None? then Malformed
    else Row(parse(f[n - 2]).value, parse(f[n - 1]).value)
  }

  datatype Evidence = Evidence(latest: nat, max: nat, samples: nat)

  datatype Monitor = Monitor(
    evidence: Evidence, pendingBytes: Option<nat>, pendingStartedAt: Option<int>, lastCompletedAt: Option<int>,
    lastCompletedStartedAt: Option<int>)

  const INITIAL := Monitor(Evidence(0, 0, 0), None, None, None, None)

  datatype MonitorError = InvalidRow | RowBeforeHeader | ByteCounterOverflow

  function Larger(a: nat, b: nat): nat { if a < b then b else a }

  function Close(m: Monitor, at: int): Monitor {
    if m.pendingBytes.None? then m
    else
      var completed := m.pendingBytes.value;
      var samples := if m.evidence.samples < U64_MAX then m.evidence.samples + 1 else U64_MAX;
      m.(evidence := Evidence(completed, Larger(m.evidence.max, completed), samples),
         lastCompletedAt := Some(at), lastCompletedStartedAt := m.pendingStartedAt)
  }

  function Record(parse: Parse, m: Monitor, line: Line): Result<Monitor, MonitorError> {
    match KindOf(parse, line)
    case Header => Ok(Close(m, line.at).(pendingBytes := Some(0), pendingStartedAt := Some(line.at)))
    case Malformed => Err(InvalidRow)
    case Row(bytesIn, bytesOut) =>
      if m.pendingBytes.None? then Err(RowBeforeHeader)
      else if m.pendingBytes.value + bytesIn + bytesOut > U64_MAX then Err(ByteCounterOverflow)
      else Ok(m.(pendingBytes := Some(m.pendingBytes.value + bytesIn + bytesOut)))
  }

  function Read(parse: Parse, lines: seq<Line>): Result<Monitor, MonitorError> {
    if lines == [] then Ok(INITIAL)
    else
      var m :- Read(parse, lines[..|lines| - 1]);
      Record(parse, m, lines[|lines| - 1])
  }

  /** The monitor as the object it is. On a rejected row the state is left alone. */
  class MacNetworkMonitor {
    var latestBytes: nat
    var maxBytes: nat
    var samples: nat
    var pendingBytes: Option<nat>
    var pendingStartedAt: Option<int>
    var lastCompletedAt: Option<int>
    var lastCompletedStartedAt: Option<int>

    ghost function State(): Monitor
      reads this
    {
      Monitor(Evidence(latestBytes, maxBytes, samples), pendingBytes, pendingStartedAt, lastCompletedAt,
              lastCompletedStartedAt)
    }

    constructor ()
      ensures State() == INITIAL
    {
      latestBytes, maxBytes, samples := 0, 0, 0;
      pendingBytes, pendingStartedAt, lastCompletedAt, lastCompletedStartedAt := None, None, None, None;
    }

    method RecordLine(parse: Parse, line: Line) returns (error: Option<MonitorError>)
      modifies this
      ensures match Record(parse, old(State()), line)
              case Ok(m) => error == None && State() == m
              case Err(e) => error == Some(e) && State() == old(State())
    {
      hide KindOf;
      match KindOf(parse, line) {
        case Header =>
          if pendingBytes.Some? {
            latestBytes := pendingBytes.value;
            if maxBytes < pendingBytes.value { maxBytes := pendingBytes.value; }
            if samples < U64_MAX { samples := samples + 1; } else { samples := U64_MAX; }
            lastCompletedAt := Some(line.at);
            lastCompletedStartedAt := pendingStartedAt;
          }
          pendingBytes := Some(0);
          pendingStartedAt := Some(line.at);
          return None;
        case Malformed =>
          return Some(InvalidRow);
        case Row(bytesIn, bytesOut) =>
          if pendingBytes.None? { return Some(RowBeforeHeader); }
          if pendingBytes.value + bytesIn + bytesOut > U64_MAX { return Some(ByteCounterOverflow); }
          pendingBytes := Some(pendingBytes.value + bytesIn + bytesOut);
          return None;
      }
    }
  }

  // ----- what a line means

  predicate IsHeaderLine(f: seq<string>) { |f| >= 2 && f[|f| - 2] == "bytes_in" && f[|f| - 1] == "bytes_out" }

  /** The last two fields of three or more are the bytes in and the bytes out. */
  predicate IsRowLine(parse: Parse, f: seq<string>) {
    !IsHeaderLine(f) && |f| >= 3 && parse(f[|f| - 2]).Some? && parse(f[|f| - 1]).Some?
  }

  function BytesOfLine(parse: Parse, f: seq<string>): nat
    requires IsRowLine(parse, f)
  {
    parse(f[|f| - 2]).value + parse(f[|f| - 1]).value
  }

  /** What a line does to the monitor, by its fields. */
  lemma LineMeans(parse: Parse, m: Monitor, line: Line)
    ensures var r, f := Record(parse, m, line), line.fields;
            if IsHeaderLine(f) then r.Ok? && r.value.pendingBytes == Some(0) && r.value.pendingStartedAt == Some(line.at)
            else if !IsRowLine(parse, f) then r == Err(InvalidRow)
            else if m.pendingBytes.None? then r == Err(RowBeforeHeader)
            else if m.pendingBytes.value + BytesOfLine(parse, f) > 18446744073709551615 then r == Err(ByteCounterOverflow)
            else r == Ok(m.(pendingBytes := Some(m.pendingBytes.value + BytesOfLine(parse, f))))
  {
  }

  /** The bytes of the rows among these lines, by their fields. */
  function RowBytes(parse: Parse, lines: seq<Line>): nat {
    if lines == [] then 0
    else
      var f := lines[|lines| - 1].fields;
      RowBytes(parse, lines[..|lines| - 1]) + if IsRowLine(parse, f) then BytesOfLine(parse, f) else 0
  }

  lemma {:induction false} RowSumIsBytes(parse: Parse, lines: seq<Line>)
    ensures RowSum(parse, lines) == RowBytes(parse, lines)
  {
    if lines != [] { RowSumIsBytes(parse, lines[..|lines| - 1]); }
  }

  // ----- what a stream means

  /** The stream cut in front of every header; what comes before the first header is in no cycle. */
  function Cycles(parse: Parse, lines: seq<Line>): (cycles: seq<seq<Line>>)
    ensures forall k :: 0 <= k < |cycles| ==> cycles[k] != []
  {
    if lines == [] then []
    else
      var front, last := Cycles(parse, lines[..|lines| - 1]), lines[|lines| - 1];
      if KindOf(parse, last).Header? then front + [[last]]
      else if front == [] then []
      else front[|front| - 1 := front[|front| - 1] + [last]]
  }

  /** The bytes of the rows of a cycle. */
  function RowSum(parse: Parse, lines: seq<Line>): nat {
    if lines == [] then 0
    else
      var kind := KindOf(parse, lines[|lines| - 1]);
      RowSum(parse, lines[..|lines| - 1]) + if kind.Row? then kind.bytesIn + kind.bytesOut else 0
  }

  /** The bytes of every closed cycle: all but the last, which is still open. */
  function ClosedSums(parse: Parse, cycles: seq<seq<Line>>): seq<nat> {
    if |cycles| < 2 then [] else seq(|cycles| - 1, k requires 0 <= k < |cycles| - 1 => RowSum(parse, cycles[k]))
  }

  function MaxOf(xs: seq<nat>): nat {
    if xs == [] then 0 else Larger(MaxOf(xs[..|xs| - 1]), xs[|xs| - 1])
  }

  lemma {:induction false} MaxOfIsTheMaximum(xs: seq<nat>)
    ensures forall i :: 0 <= i < |xs| ==> xs[i] <= MaxOf(xs)
    ensures xs != [] ==> MaxOf(xs) in xs
  {
    if xs != [] {
      var front := xs[..|xs| - 1];
      MaxOfIsTheMaximum(front);
      assert forall i :: 0 <= i < |front| ==> xs[i] == front[i];
      if front != [] { assert MaxOf(front) in front; }
    }
  }

  lemma CyclesOfOneMore(parse: Parse, lines: seq<Line>, line: Line)
    ensures var before, after := Cycles(parse, lines), Cycles(parse, lines + [line]);
            after == (if KindOf(parse, line).Header? then before + [[line]]
                      else if before == [] then []
                      else before[|before| - 1 := before[|before| - 1] + [line]])
  {
    assert (lines + [line])[..|lines|] == lines;
  }

  lemma FlattenGrows<T>(xs: seq<seq<T>>, x: T)
    requires xs != []
    ensures Flatten(xs[|xs| - 1 := xs[|xs| - 1] + [x]]) == Flatten(xs) + [x]
  {
    var ys := xs[|xs| - 1 := xs[|xs| - 1] + [x]];
    assert ys[..|ys| - 1] == xs[..|xs| - 1];
    assert Flatten(xs[..|xs| - 1]) + (xs[|xs| - 1] + [x]) == Flatten(xs[..|xs| - 1]) + xs[|xs| - 1] + [x];
  }

  lemma FlattenExtends<T>(xs: seq<seq<T>>, x: T)
    ensures Flatten(xs + [[x]]) == Flatten(xs) + [x]
  {
    assert (xs + [[x]])[..|xs|] == xs;
  }

  lemma {:induction false} SomethingPending(parse: Parse, lines: seq<Line>)
    requires Read(parse, lines).Ok? && lines != []
    ensures Read(parse, lines).value.pendingBytes.Some? && Cycles(parse, lines) != []
  {
    hide KindOf;
    var n := |lines| - 1;
    if n > 0 { SomethingPending(parse, lines[..n]); }
  }

  /** A header, and rows behind it. */
  predicate IsCycle(parse: Parse, cycle: seq<Line>)
    requires cycle != []
  {
    KindOf(parse, cycle[0]).Header? && forall i :: 0 < i < |cycle| ==> KindOf(parse, cycle[i]).Row?
  }

  predicate AllCycles(parse: Parse, cycles: seq<seq<Line>>) {
    forall k :: 0 <= k < |cycles| ==> cycles[k] != [] && IsCycle(parse, cycles[k])
  }

  lemma RowExtendsCycle(parse: Parse, cycles: seq<seq<Line>>, line: Line)
    requires cycles != [] && AllCycles(parse, cycles) && KindOf(parse, line).Row?
    ensures AllCycles(parse, cycles[|cycles| - 1 := cycles[|cycles| - 1] + [line]])
  {
    hide KindOf;
  }

  lemma HeaderStartsCycle(parse: Parse, cycles: seq<seq<Line>>, line: Line)
    requires AllCycles(parse, cycles) && KindOf(parse, line).Header?
    ensures AllCycles(parse, cycles + [[line]])
  {
    hide KindOf;
  }

  /** Each cycle is a header and rows; put together again, the cycles are the whole of an accepted stream. */
  lemma {:induction false} CyclesAreTheStream(parse: Parse, lines: seq<Line>)
    requires Read(parse, lines).Ok?
    ensures Flatten(Cycles(parse, lines)) == lines && AllCycles(parse, Cycles(parse, lines))
  {
    if lines == [] {
    } else {
      hide *;
      var n := |lines| - 1;
      var line, front := lines[n], Cycles(parse, lines[..n]);
      AcceptedSoFar(parse, lines);
      CyclesAreTheStream(parse, lines[..n]);
      assert lines == lines[..n] + [line];
      CyclesOfOneMore(parse, lines[..n], line);
      if KindOf(parse, line).Header? {
        FlattenExtends(front, line);
        HeaderStartsCycle(parse, front, line);
      } else {
        SomethingPending(parse, lines);
        FlattenGrows(front, line);
        RowExtendsCycle(parse, front, line);
      }
    }
  }

  lemma AcceptedSoFar(parse: Parse, lines: seq<Line>)
    requires Read(parse, lines).Ok? && lines != []
    ensures Read(parse, lines[..|lines| - 1]).Ok?
    ensures KindOf(parse, lines[|lines| - 1]).Header? || KindOf(parse, lines[|lines| - 1]).Row?
  {
    hide KindOf;
  }

  function StartOf(cycle: seq<Line>): int
    requires cycle != []
  {
    cycle[0].at
  }

  /** The state of a monitor that has read these cycles. */
  predicate Holds(parse: Parse, cycles: seq<seq<Line>>, m: Monitor)
    requires forall k :: 0 <= k < |cycles| ==> cycles[k] != []
  {
    var n, sums := |cycles|, ClosedSums(parse, cycles);
    && m.evidence == Evidence(if n < 2 then 0 else RowSum(parse, cycles[n - 2]), MaxOf(sums),
                              if |sums| <= U64_MAX then |sums| else U64_MAX)
    && m.pendingBytes == (if n == 0 then None else Some(RowSum(parse, cycles[n - 1])))
    && m.pendingStartedAt == (if n == 0 then None else Some(StartOf(cycles[n - 1])))
    && m.lastCompletedAt == (if n < 2 then None else Some(StartOf(cycles[n - 1])))
    && m.lastCompletedStartedAt == (if n < 2 then None else Some(StartOf(cycles[n - 2])))
  }

  /** The state after a stream, in terms of its cycles. */
  predicate Means(parse: Parse, lines: seq<Line>, m: Monitor) { Holds(parse, Cycles(parse, lines), m) }

  lemma RowMeans(parse: Parse, lines: seq<Line>, m: Monitor, line: Line)
    requires Means(parse, lines, m) && KindOf(parse, line).Row? && Record(parse, m, line).Ok?
    ensures Means(parse, lines + [line], Record(parse, m, line).value)
  {
    CyclesOfOneMore(parse, lines, line);
    hide KindOf, Cycles, MaxOf;
    var before, after := Cycles(parse, lines), Cycles(parse, lines + [line]);
    var open := before[|before| - 1];
    assert (open + [line])[..|open|] == open;
    assert RowSum(parse, open + [line])
           == RowSum(parse, open) + KindOf(parse, line).bytesIn + KindOf(parse, line).bytesOut;
    hide RowSum;
    assert ClosedSums(parse, after) == ClosedSums(parse, before);
  }

  lemma HeaderMeans(parse: Parse, lines: seq<Line>, m: Monitor, line: Line)
    requires Means(parse, lines, m) && KindOf(parse, line).Header?
    ensures Means(parse, lines + [line], Record(parse, m, line).value)
  {
    CyclesOfOneMore(parse, lines, line);
    NoRowsYet(parse, line);
    var before := Cycles(parse, lines);
    hide Holds, Cycles, KindOf;
    if before == [] { FirstHeader(parse, m, line); } else { NextHeader(parse, before, m, line); }
  }

  lemma FirstHeader(parse: Parse, m: Monitor, line: Line)
    requires Holds(parse, [], m) && KindOf(parse, line).Header? && RowSum(parse, [line]) == 0
    ensures Holds(parse, [[line]], Record(parse, m, line).value)
  {
    hide KindOf, RowSum, MaxOf;
    NothingClosed(parse, [line]);
  }

  lemma NextHeader(parse: Parse, cycles: seq<seq<Line>>, m: Monitor, line: Line)
    requires cycles != [] && (forall k :: 0 <= k < |cycles| ==> cycles[k] != []) && Holds(parse, cycles, m)
    requires KindOf(parse, line).Header? && RowSum(parse, [line]) == 0
    ensures Holds(parse, cycles + [[line]], Record(parse, m, line).value)
  {
    hide KindOf, RowSum, MaxOf, Larger, ClosedSums;
    SumsAreMany(parse, cycles);
    OneMoreClosed(parse, cycles, [line]);
  }

  lemma NoRowsYet(parse: Parse, line: Line)
    requires KindOf(parse, line).Header?
    ensures RowSum(parse, [line]) == 0
  {
    assert [line][..0] == [];
  }

  lemma SumsAreMany(parse: Parse, cycles: seq<seq<Line>>)
    ensures |ClosedSums(parse, cycles)| == if cycles == [] then 0 else |cycles| - 1
  {
  }

  lemma NothingClosed(parse: Parse, cycle: seq<Line>)
    ensures [] + [cycle] == [cycle] && ClosedSums(parse, [cycle]) == ClosedSums(parse, []) == [] && MaxOf([]) == 0
  {
  }

  /** A new cycle closes the one before it. */
  lemma OneMoreClosed(parse: Parse, cycles: seq<seq<Line>>, next: seq<Line>)
    requires cycles != []
    ensures var sums, closed := ClosedSums(parse, cycles), RowSum(parse, cycles[|cycles| - 1]);
            && ClosedSums(parse, cycles + [next]) == sums + [closed]
            && MaxOf(sums + [closed]) == Larger(MaxOf(sums), closed)
  {
    hide RowSum;
    var sums, closed := ClosedSums(parse, cycles), RowSum(parse, cycles[|cycles| - 1]);
    assert (sums + [closed])[..|sums|] == sums;
  }

  /** After any accepted stream: `latest` is the last closed cycle's bytes, `max` the largest of any closed cycle,
      and `samples` the number of closed cycles, which is one fewer than the headers. */
  lemma {:induction false} StreamMeansCycles(parse: Parse, lines: seq<Line>)
    requires Read(parse, lines).Ok?
    ensures Means(parse, lines, Read(parse, lines).value)
  {
    if lines == [] {
      NothingMeans(parse);
    } else {
      hide KindOf, Means, Record;
      var n := |lines| - 1;
      StreamMeansCycles(parse, lines[..n]);
      OneMoreMeans(parse, lines[..n], Read(parse, lines[..n]).value, lines[n]);
      assert lines == lines[..n] + [lines[n]];
    }
  }

  lemma NothingMeans(parse: Parse)
    ensures Means(parse, [], INITIAL)
  {
  }

  lemma OneMoreMeans(parse: Parse, lines: seq<Line>, m: Monitor, line: Line)
    requires Means(parse, lines, m) && Record(parse, m, line).Ok?
    ensures Means(parse, lines + [line], Record(parse, m, line).value)
  {
    hide Means;
    if KindOf(parse, line).Header? { HeaderMeans(parse, lines, m, line); } else { RowMeans(parse, lines, m, line); }
  }

  /** The clock did not run backwards. */
  predicate ReadInOrder(lines: seq<Line>) { forall i, j :: 0 <= i <= j < |lines| ==> lines[i].at <= lines[j].at }

  predicate CycleStartedAfter(m: Monitor, boundary: int) {
    m.lastCompletedStartedAt.Some? && m.lastCompletedStartedAt.value >= boundary
  }

  /** Every line of a cycle was read no earlier than its header and no later than the end of the stream, and cycles
      follow each other in time. */
  lemma {:induction false} CyclesAreInOrder(parse: Parse, lines: seq<Line>)
    requires ReadInOrder(lines)
    ensures var cycles := Cycles(parse, lines);
            && (forall cycle, line :: cycle in cycles && line in cycle ==>
                  StartOf(cycle) <= line.at <= lines[|lines| - 1].at)
            && (forall i, j :: 0 <= i <= j < |cycles| ==> StartOf(cycles[i]) <= StartOf(cycles[j]))
  {
    hide KindOf;
    if lines == [] {
    } else {
      var n := |lines| - 1;
      CyclesAreInOrder(parse, lines[..n]);
      var front, all := Cycles(parse, lines[..n]), Cycles(parse, lines);
      assert n > 0 ==> lines[n - 1].at <= lines[n].at;
      forall cycle, line | cycle in all && line in cycle
        ensures StartOf(cycle) <= line.at <= lines[n].at
      {
        if cycle !in front && !KindOf(parse, lines[n]).Header? {
          assert cycle == front[|front| - 1] + [lines[n]];
          assert front[|front| - 1][0] in front[|front| - 1];
        }
      }
    }
  }

  /** The check accepts exactly when some cycle is closed and the last one closed started no earlier than the
      boundary; the bytes it reports are then those of that cycle's rows. */
  lemma AcceptedIff(parse: Parse, lines: seq<Line>, boundary: int)
    requires Read(parse, lines).Ok?
    ensures var m, cycles := Read(parse, lines).value, Cycles(parse, lines);
            && (CycleStartedAfter(m, boundary) <==> |cycles| >= 2 && cycles[|cycles| - 2][0].at >= boundary)
            && (|cycles| >= 2 ==> m.evidence.latest == RowBytes(parse, cycles[|cycles| - 2]))
  {
    StreamMeansCycles(parse, lines);
    hide Cycles, RowSum, RowBytes, MaxOf, ClosedSums, KindOf, Read;
    if |Cycles(parse, lines)| >= 2 { RowSumIsBytes(parse, Cycles(parse, lines)[|Cycles(parse, lines)| - 2]); }
  }

  /** With a clock that does not run backwards, the cycle that the check accepts, whose bytes are the ones reported,
      lies wholly after the boundary. */
  lemma AcceptedCycleIsAfterBoundary(parse: Parse, lines: seq<Line>, boundary: int)
    requires Read(parse, lines).Ok? && CycleStartedAfter(Read(parse, lines).value, boundary) && ReadInOrder(lines)
    ensures var cycles := Cycles(parse, lines);
            && |cycles| >= 2
            && Read(parse, lines).value.evidence.latest == RowSum(parse, cycles[|cycles| - 2])
            && (forall line :: line in cycles[|cycles| - 2] ==> line.at >= boundary)
            && StartOf(cycles[|cycles| - 1]) >= boundary
  {
    StreamMeansCycles(parse, lines);
    CyclesAreInOrder(parse, lines);
    hide *;
    StartedCycleIsClosed(parse, lines, Read(parse, lines).value, boundary);
    var n := |Cycles(parse, lines)|;
    forall line | line in Cycles(parse, lines)[n - 2] ensures line.at >= boundary {
      assert Cycles(parse, lines)[n - 2] in Cycles(parse, lines);
    }
  }

  lemma StartedCycleIsClosed(parse: Parse, lines: seq<Line>, m: Monitor, boundary: int)
    requires Means(parse, lines, m) && CycleStartedAfter(m, boundary)
    ensures var cycles := Cycles(parse, lines);
            |cycles| >= 2 && StartOf(cycles[|cycles| - 2]) >= boundary && m.evidence.latest == RowSum(parse, cycles[|cycles| - 2])
  {
    hide Cycles, RowSum, MaxOf, ClosedSums;
  }
}
