/** A click on a span that is never honoured (ui/report/paged-client.ts, selectSpan, drain, applyStatus). */
module DashboardForsaken {
  import opened Common
  import opened DashboardModel
  import opened DashboardInvariants
  import opened DashboardRequests
  import opened DashboardWork
  import Fr = DashboardFrames
  import N = DashboardFilters
  import S = DashboardSelection
  import W = DashboardWaiting

  // ----- a selection that is never honoured

  /** What is asked for, not shown, and waited for by nobody. */
  predicate Forsaken(id: string, s: Client) {
    && s.selectedSpanRequestId == Some(id) && !ShowsSpan(Fr.ShownOf(s), id) && Pending(id, s) == 0
  }

  /** It stays so until the user clicks on that span again, or asks for something else. */
  lemma ForsakenStays(owner: string -> string, id: string, s: Client, tick: Tick)
    requires Inv(s) && S.Coherent(owner, Fr.ShownOf(s)) && S.Honest(owner, s, tick.event)
    requires Forsaken(id, s) && Step(s, tick).selectedSpanRequestId == Some(id) && !Opens(s, tick.event)
    ensures Forsaken(id, Step(s, tick))
  {
    assert s.view.selectedTraceId.Some? ==> s.view.snapshot.Some?;
    hide Step, Inv, Pending, S.Honest, S.Coherent, ShowsSpan, Delivers, Blanks, Drops, IsProjectedId;
    SelectionAfter(owner, s, tick);
    PendingAfter(id, s, tick);
  }

  lemma {:induction false} HonestPrefix(owner: string -> string, s: Client, ticks: seq<Tick>, n: nat)
    requires S.HonestRun(owner, s, ticks) && n <= |ticks|
    ensures S.HonestRun(owner, s, ticks[..n])
    ensures n < |ticks| ==> S.Honest(owner, Run(s, ticks[..n]), ticks[n].event)
    decreases |ticks|
  {
    hide Step, S.Honest;
    if n < |ticks| {
      var front := ticks[..|ticks| - 1];
      assert front[..n] == ticks[..n];
      HonestPrefix(owner, s, front, n);
      if n < |front| { assert front[n] == ticks[n]; }
    } else {
      assert ticks[..n] == ticks;
    }
  }

  lemma RunOneMore(s: Client, ticks: seq<Tick>, n: nat)
    requires n < |ticks|
    ensures Run(s, ticks[..n + 1]) == Step(Run(s, ticks[..n]), ticks[n])
  {
    hide Step;
    assert ticks[..n + 1][..n] == ticks[..n];
  }

  predicate NothingElseAsked(s0: Client, ticks: seq<Tick>, id: string, k: nat)
    requires k < |ticks|
  {
    !ticks[k].event.SelectSpan? && Run(s0, ticks[..k + 1]).selectedSpanRequestId == Some(id)
  }

  lemma ForsakenOneMore(owner: string -> string, s0: Client, ticks: seq<Tick>, id: string, k: nat)
    requires k < |ticks| && S.HonestRun(owner, s0, ticks) && NothingElseAsked(s0, ticks, id, k)
    requires var s := Run(s0, ticks[..k]); Inv(s) && S.Coherent(owner, Fr.ShownOf(s)) && Forsaken(id, s)
    ensures Forsaken(id, Run(s0, ticks[..k + 1]))
  {
    hide Step, Run, Inv, Forsaken, S.Honest, S.Coherent, S.HonestRun;
    RunOneMore(s0, ticks, k);
    HonestPrefix(owner, s0, ticks, k);
    ForsakenStays(owner, id, Run(s0, ticks[..k]), ticks[k]);
  }

  /** However long the run goes on: as long as nothing else is asked for, and no span is clicked, the span asked
      for last is neither shown nor waited for. */
  lemma {:induction false} ForsakenForGood(owner: string -> string, backoff: nat, autoLoad: bool, detail: bool, hidden: bool,
                                           ticks: seq<Tick>, id: string, i: nat, j: nat)
    requires var s0 := InitialClient(backoff, autoLoad, detail, hidden);
             && S.HonestRun(owner, s0, ticks) && i <= j <= |ticks| && Forsaken(id, Run(s0, ticks[..i]))
             && forall k :: i <= k < j ==> NothingElseAsked(s0, ticks, id, k)
    ensures Forsaken(id, Run(InitialClient(backoff, autoLoad, detail, hidden), ticks[..j]))
  {
    if i < j {
      hide Run, Inv, Forsaken, S.Coherent, S.HonestRun, NothingElseAsked;
      var s0, front := InitialClient(backoff, autoLoad, detail, hidden), ticks[..j - 1];
      ForsakenForGood(owner, backoff, autoLoad, detail, hidden, ticks, id, i, j - 1);
      HonestPrefix(owner, s0, ticks, j - 1);
      EveryRunKeepsInvariant(backoff, autoLoad, detail, hidden, front);
      S.SelectionStaysCoherent(owner, backoff, autoLoad, detail, hidden, front);
      ForsakenOneMore(owner, s0, ticks, id, j - 1);
    }
  }

  /** One query is in flight, current, and nothing else is under way. */
  predicate OneFlies(s: Client) {
    && s.flight.Some? && !s.flight.value.aborted && s.flight.value.task.revision == s.revision
    && s.draining && s.queue == [] && !s.hidden
  }

  /** The private-detail part of the client as it was. */
  predicate SameDetailCalls(s: Client, t: Client) {
    t.detailTransport == s.detailTransport && t.detailCalls == s.detailCalls
  }

  /** Visible, with nothing to do. */
  predicate Idle(s: Client) {
    s.flight.None? && !s.draining && s.queue == [] && !s.hidden
  }

  lemma QueryLands(s: Client, snapshot: Snapshot, body: Body, now: int)
    requires OneFlies(s)
    requires (body.BootstrapBody? && !s.autoLoad) || body.SpansBody? || body.SpanBody?
    requires !Fails(s.flight.value.task, Resolved(DataResponse(snapshot, false, body)))
    ensures var t := Step(s, Tick(now, TransportSettles(Resolved(DataResponse(snapshot, false, body)))));
            Idle(t) && t.view.snapshot == Some(snapshot) && SameDetailCalls(s, t)
  {
    var r := DataResponse(snapshot, false, body);
    var flight := s.flight.value;
    var landed := s.(flight := None, controller := s.controller && flight.aborted);
    BodyIsApplied(landed, flight.task, r, now);
    var u := ApplyOutcome(landed, flight, Resolved(r), now);
    hide ApplyResponse, Fails;
    assert u == ApplyResponse(landed, flight.task, r, now);
    assert QuerySettles(s, Resolved(r), now) == DrainLoop(u, now);
    assert DrainLoop(u, now) == DrainEnds(u, now);
  }

  lemma BodyIsApplied(s: Client, task: Task, r: Response, now: int)
    requires r.DataResponse? && !Fails(task, Resolved(r))
    requires (r.body.BootstrapBody? && !s.autoLoad) || r.body.SpansBody? || r.body.SpanBody?
    ensures var u := ApplyResponse(s, task, r, now); u == s.(view := u.view) && u.view.snapshot == Some(r.snapshot)
  {
  }

  lemma StartFlies(s: Client, now: int)
    requires Idle(s)
    ensures var t := Step(s, Tick(now, Start));
            && OneFlies(t) && t.flight.value.task.purpose.Bootstrap? && t.flight.value.task.request.snapshotId.None?
            && t.autoLoad == s.autoLoad && SameDetailCalls(s, t)
  {
    hide ScheduleDrain, N.Normalize;
    var i := ClearPrivateDetail(Invalidate(s).(traceCursors := [None], spanCursors := [None], selectedSpanRequestId := None));
    var u := i.(view := InitialView(N.Normalize(s.view.filters)));
    var task := BootstrapTask(u, now);
    assert u.queue + [task] == [task];
    W.ReadyTaskTakesOff(u.(queue := [task]), task, now);
  }

  lemma TraceFlies(s: Client, id: string, now: int)
    requires Idle(s) && s.view.snapshot.Some? && IsProjectedId(id)
    ensures var t := Step(s, Tick(now, SelectTrace(id)));
            && OneFlies(t) && t.view.selectedTraceId == Some(id) && t.selectedSpanRequestId.None? && SameDetailCalls(s, t)
            && t.flight.value.task == BoundTask(s, s.view.snapshot.value, Spans, Some(id), None, None, 0, now)
  {
    hide ScheduleDrain, IsProjectedId;
    var c := ClearPrivateDetail(s.(spanCursors := [None], selectedSpanRequestId := None));
    var u := c.(view := c.view.(selectedTraceId := Some(id), selectedSpan := None, spans := EmptyPage(),
                                availability := AvailabilityOf(s.view.snapshot.value), reason := None));
    var task := BoundTask(u, s.view.snapshot.value, Spans, Some(id), None, None, 0, now);
    assert u.queue + [task] == [task];
    W.ReadyTaskTakesOff(u.(queue := [task]), task, now);
  }

  lemma SpanFlies(s: Client, id: string, now: int)
    requires Idle(s) && s.view.snapshot.Some? && s.view.selectedTraceId.Some? && IsProjectedId(id)
    ensures var t := Step(s, Tick(now, SelectSpan(id)));
            && OneFlies(t) && t.selectedSpanRequestId == Some(id) && SameDetailCalls(s, t)
            && t.view == s.view.(privateDetail := DetailIdle)
            && t.flight.value.task == BoundTask(s, s.view.snapshot.value, SpanQuery, s.view.selectedTraceId, Some(id), None, 0, now)
  {
    hide ScheduleDrain, IsProjectedId;
    var c := ClearPrivateDetail(s).(selectedSpanRequestId := Some(id));
    var task := BoundTask(c, s.view.snapshot.value, SpanQuery, s.view.selectedTraceId, Some(id), None, 0, now);
    assert c.queue + [task] == [task];
    W.ReadyTaskTakesOff(c.(queue := [task]), task, now);
  }

  /** The two answers by which a server turns one query down. */
  predicate Refuses(outcome: Outcome) {
    outcome == Resolved(StatusResponse(OverCapacity)) || (outcome.Rejected? && !outcome.isAbort)
  }

  lemma RefusalLands(s: Client, outcome: Outcome, now: int)
    requires OneFlies(s) && Refuses(outcome)
    ensures Idle(Step(s, Tick(now, TransportSettles(outcome))))
  {
    var flight := s.flight.value;
    var landed := s.(flight := None, controller := s.controller && flight.aborted);
    RefusalIsApplied(landed, flight, outcome, now);
    hide ApplyOutcome, Refuses;
    var u := ApplyOutcome(landed, flight, outcome, now);
    assert QuerySettles(s, outcome, now) == DrainLoop(u, now);
    assert DrainLoop(u, now) == DrainEnds(u, now);
  }

  lemma RefusalIsApplied(s: Client, flight: Flight, outcome: Outcome, now: int)
    requires Refuses(outcome) && flight.task.revision == s.revision && s.queue == []
    ensures var u := ApplyOutcome(s, flight, outcome, now); u == s.(view := u.view)
  {
  }

  lemma IdleWaitsForNothing(id: string, s: Client)
    requires Idle(s)
    ensures Pending(id, s) == 0
  {
  }

  /** The query for a span fails, or is refused for want of capacity: the span opened before stays on display,
      and the one asked for last is neither shown nor waited for. */
  lemma RefusedSelectionKeepsOld(s: Client, id: string, now: int, later: int, outcome: Outcome)
    requires Idle(s) && s.view.snapshot.Some? && s.view.selectedTraceId.Some? && IsProjectedId(id)
    requires !ShowsSpan(Fr.ShownOf(s), id) && Refuses(outcome)
    ensures var t := Step(Step(s, Tick(now, SelectSpan(id))), Tick(later, TransportSettles(outcome)));
            Forsaken(id, t) && t.view.selectedSpan == s.view.selectedSpan && Idle(t)
  {
    SpanFlies(s, id, now);
    var asked, answer := Step(s, Tick(now, SelectSpan(id))), Tick(later, TransportSettles(outcome));
    hide Step, IsProjectedId;
    RefusalLands(asked, outcome, later);
    SettlingStepShows(asked, answer);
    assert Fr.AfterAnswer(asked, outcome) == Fr.ShownOf(asked);
    hide Idle, Pending;
    IdleWaitsForNothing(id, Step(asked, answer));
  }

  // ----- a run in which that happens

  lemma RunGrows(owner: string -> string, s0: Client, ticks: seq<Tick>, tick: Tick)
    requires S.HonestRun(owner, s0, ticks) && S.Honest(owner, Run(s0, ticks), tick.event)
    ensures S.HonestRun(owner, s0, ticks + [tick]) && Run(s0, ticks + [tick]) == Step(Run(s0, ticks), tick)
  {
    hide Step, S.Honest;
    assert (ticks + [tick])[..|ticks + [tick]| - 1] == ticks;
  }

  function ProjectedId(digit: char): string {
    "id:sha256:" + seq(64, i => digit)
  }

  lemma ProjectedIdIsProjected(digit: char)
    requires '0' <= digit <= '9' || 'a' <= digit <= 'f'
    ensures IsProjectedId(ProjectedId(digit)) && ProjectedId(digit)[10] == digit
  {
    assert ProjectedId(digit)[..10] == "id:sha256:";
  }

  function OneTrace(trace: string): string -> string { id => trace }

  lemma EmptyRun(owner: string -> string, s: Client)
    ensures S.HonestRun(owner, s, []) && Run(s, []) == s
  {
  }

  lemma Harmless(owner: string -> string, s: Client, e: Event)
    requires !e.SelectSpan? && !e.TransportSettles?
    ensures S.Honest(owner, s, e)
  {
  }

  /** An answer to the one query in flight. */
  predicate GoodAnswer(owner: string -> string, s: Client, snapshot: Snapshot, body: Body)
    requires OneFlies(s)
  {
    && S.HonestAnswer(owner, s.flight.value.task.request, body)
    && !Fails(s.flight.value.task, Resolved(DataResponse(snapshot, false, body)))
    && ((body.BootstrapBody? && !s.autoLoad) || body.SpansBody? || body.SpanBody?)
  }

  lemma AnswerLands(owner: string -> string, s0: Client, ticks: seq<Tick>, snapshot: Snapshot, body: Body, now: int)
    returns (more: seq<Tick>)
    requires S.HonestRun(owner, s0, ticks) && OneFlies(Run(s0, ticks)) && GoodAnswer(owner, Run(s0, ticks), snapshot, body)
    ensures S.HonestRun(owner, s0, more)
    ensures var t := Run(s0, more);
            && Idle(t) && t.view.snapshot == Some(snapshot) && SameDetailCalls(Run(s0, ticks), t)
            && Fr.ShownOf(t) == Fr.AfterAnswer(Run(s0, ticks), Resolved(DataResponse(snapshot, false, body)))
  {
    var s, tick := Run(s0, ticks), Tick(now, TransportSettles(Resolved(DataResponse(snapshot, false, body))));
    hide Step, Run, S.HonestRun, Fr.AfterAnswer, Fr.ShownOf, Idle, Fails;
    more := ticks + [tick];
    RunGrows(owner, s0, ticks, tick);
    QueryLands(s, snapshot, body, now);
    SettlingStepShows(s, tick);
  }

  /** The client has started without loading anything, and the trace `trace` has been opened. */
  lemma TraceIsOpened(trace: string, rows: seq<SpanRow>, s0: Client, snapshot: Snapshot) returns (ticks: seq<Tick>)
    requires Idle(s0) && !s0.autoLoad && IsProjectedId(trace) && S.RowsOf(OneTrace(trace), Some(trace), rows)
    ensures S.HonestRun(OneTrace(trace), s0, ticks)
    ensures var s := Run(s0, ticks);
            && Idle(s) && s.view.snapshot == Some(snapshot) && s.view.selectedTraceId == Some(trace)
            && s.view.spans.rows == rows && SameDetailCalls(s0, s)
  {
    hide Step, Run, S.HonestRun, S.Honest, IsProjectedId, S.RowsOf;
    var owner := OneTrace(trace);
    EmptyRun(owner, s0);
    var start, open := Tick(0, Start), Tick(2, SelectTrace(trace));
    Harmless(owner, s0, Start);
    RunGrows(owner, s0, [], start);
    StartFlies(s0, 0);
    var booted := AnswerLands(owner, s0, [] + [start], snapshot, BootstrapBody(500), 1);
    var s := Run(s0, booted);
    Harmless(owner, s, open.event);
    RunGrows(owner, s0, booted, open);
    TraceFlies(s, trace, 2);
    var t := Run(s0, booted + [open]);
    assert Fr.AfterAnswer(t, Resolved(DataResponse(snapshot, false, SpansBody(rows, Pagination(None, None))))).rows == rows;
    ticks := AnswerLands(owner, s0, booted + [open], snapshot, SpansBody(rows, Pagination(None, None)), 3);
  }

  /** A click on a span of the open trace that the server answers. */
  lemma SpanIsOpened(trace: string, s0: Client, ticks: seq<Tick>, snapshot: Snapshot, detail: SpanDetail)
    returns (more: seq<Tick>)
    requires S.HonestRun(OneTrace(trace), s0, ticks) && IsProjectedId(detail.spanId) && detail.traceId == trace
    requires var s := Run(s0, ticks);
             && Idle(s) && s.view.snapshot == Some(snapshot) && s.view.selectedTraceId == Some(trace)
             && exists i :: 0 <= i < |s.view.spans.rows| && s.view.spans.rows[i].spanId == detail.spanId
    ensures S.HonestRun(OneTrace(trace), s0, more)
    ensures var s, t := Run(s0, ticks), Run(s0, more);
            && Idle(t) && t.view.snapshot == Some(snapshot) && t.view.selectedTraceId == Some(trace)
            && t.view.spans.rows == s.view.spans.rows && t.view.selectedSpan == Some(detail) && SameDetailCalls(s, t)
  {
    hide Step, Run, S.HonestRun, IsProjectedId;
    var owner, s, click := OneTrace(trace), Run(s0, ticks), Tick(4, SelectSpan(detail.spanId));
    RunGrows(owner, s0, ticks, click);
    SpanFlies(s, detail.spanId, 4);
    more := AnswerLands(owner, s0, ticks + [click], snapshot, SpanBody(detail), 5);
    var asked := Run(s0, ticks + [click]);
    assert Fr.AfterAnswer(asked, Resolved(DataResponse(snapshot, false, SpanBody(detail))))
        == Fr.ShownOf(asked).(snapshotId := Some(snapshot.id), span := Some(detail));
  }

  /** A click on a span of the open trace that the server turns down. */
  lemma SpanIsRefused(trace: string, s0: Client, ticks: seq<Tick>, id: string, outcome: Outcome) returns (more: seq<Tick>)
    requires S.HonestRun(OneTrace(trace), s0, ticks) && IsProjectedId(id) && Refuses(outcome)
    requires var s := Run(s0, ticks);
             && Idle(s) && s.view.snapshot.Some? && s.view.selectedTraceId.Some? && !ShowsSpan(Fr.ShownOf(s), id)
             && exists i :: 0 <= i < |s.view.spans.rows| && s.view.spans.rows[i].spanId == id
    ensures S.HonestRun(OneTrace(trace), s0, more)
    ensures var t := Run(s0, more);
            Idle(t) && Forsaken(id, t) && t.view.selectedSpan == Run(s0, ticks).view.selectedSpan
  {
    hide Step, Run, S.HonestRun, IsProjectedId, Idle, Forsaken;
    var owner, s := OneTrace(trace), Run(s0, ticks);
    var click, answer := Tick(6, SelectSpan(id)), Tick(7, TransportSettles(outcome));
    more := ticks + [click] + [answer];
    RunGrows(owner, s0, ticks, click);
    RunGrows(owner, s0, ticks + [click], answer);
    RefusedSelectionKeepsOld(s, id, 6, 7, outcome);
  }

  /** An honest run that ends at rest with one span shown and another one asked for last: the trace is opened,
      its first span is clicked and answered, its second is clicked and the server is over capacity. */
  lemma SelectionCanBeForsaken()
    ensures exists owner, ticks: seq<Tick>, id :: var s := Run(InitialClient(250, false, true, false), ticks);
              && S.HonestRun(owner, InitialClient(250, false, true, false), ticks)
              && Idle(s) && s.view.selectedSpan.Some? && Forsaken(id, s)
  {
    var trace, first, second := ProjectedId('0'), ProjectedId('1'), ProjectedId('2');
    ProjectedIdIsProjected('0');
    ProjectedIdIsProjected('1');
    ProjectedIdIsProjected('2');
    hide Step, Run, S.HonestRun, IsProjectedId, ProjectedId, Idle, Forsaken;
    var s0, snapshot := InitialClient(250, false, true, false), Snapshot([], [], false);
    InitiallyIdle(s0);
    var rows := [SpanRow(trace, first, []), SpanRow(trace, second, [])];
    var begun := TraceIsOpened(trace, rows, s0, snapshot);
    assert rows[0].spanId == first && rows[1].spanId == second;
    var shown := SpanIsOpened(trace, s0, begun, snapshot, SpanDetail(trace, first, None, false));
    var end := SpanIsRefused(trace, s0, shown, second, Resolved(StatusResponse(OverCapacity)));
    assert S.HonestRun(OneTrace(trace), s0, end);
  }

  lemma AskingAgainKeepsShowing(s: Client, id: string, now: int)
    requires Idle(s) && s.view.snapshot.Some? && s.view.selectedTraceId.Some? && IsProjectedId(id) && ShowsSpan(Fr.ShownOf(s), id)
    ensures var t := Step(s, Tick(now, SelectSpan(id)));
            t.selectedSpanRequestId == Some(id) && ShowsSpan(Fr.ShownOf(t), id) && Pending(id, t) == 1
  {
    hide IsProjectedId;
    SpanFlies(s, id, now);
  }

  /** The client after opening a trace of one span, and that span. */
  lemma OnlySpanIsOpened(s0: Client, detail: SpanDetail) returns (ticks: seq<Tick>)
    requires Idle(s0) && !s0.autoLoad && IsProjectedId(detail.traceId) && IsProjectedId(detail.spanId)
    ensures S.HonestRun(OneTrace(detail.traceId), s0, ticks)
    ensures var s := Run(s0, ticks);
            && Idle(s) && s.view.snapshot.Some? && s.view.selectedTraceId.Some? && s.view.selectedSpan == Some(detail)
            && (exists i :: 0 <= i < |s.view.spans.rows| && s.view.spans.rows[i].spanId == detail.spanId)
            && SameDetailCalls(s0, s)
  {
    hide Step, Run, S.HonestRun, IsProjectedId, Idle;
    var snapshot, rows := Snapshot([], [], false), [SpanRow(detail.traceId, detail.spanId, [])];
    var begun := TraceIsOpened(detail.traceId, rows, s0, snapshot);
    assert rows[0].spanId == detail.spanId;
    ticks := SpanIsOpened(detail.traceId, s0, begun, snapshot, detail);
  }

  /** Being waited for does not mean not being shown: an honest run that clicks twice on a span shows it while the
      second query is under way. */
  lemma ShownWhileAskedAgain()
    ensures exists owner, ticks: seq<Tick>, id :: var s := Run(InitialClient(250, false, true, false), ticks);
              && S.HonestRun(owner, InitialClient(250, false, true, false), ticks)
              && s.selectedSpanRequestId == Some(id) && ShowsSpan(Fr.ShownOf(s), id) && Pending(id, s) == 1
  {
    var detail := SpanDetail(ProjectedId('0'), ProjectedId('1'), None, false);
    ProjectedIdIsProjected('0');
    ProjectedIdIsProjected('1');
    hide Step, Run, S.HonestRun, IsProjectedId, ProjectedId, Idle, Pending;
    var s0 := InitialClient(250, false, true, false);
    InitiallyIdle(s0);
    var shown := OnlySpanIsOpened(s0, detail);
    var again := Tick(6, SelectSpan(detail.spanId));
    AskingAgainKeepsShowing(Run(s0, shown), detail.spanId, 6);
    RunGrows(OneTrace(detail.traceId), s0, shown, again);
  }

  lemma InitiallyIdle(s: Client)
    requires s == InitialClient(250, false, true, false)
    ensures Idle(s) && !s.autoLoad
  {
  }
}
