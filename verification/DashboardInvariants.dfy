/** What every run of the paged dashboard client keeps. */
module DashboardInvariants {
  import opened Common
  import opened DashboardModel
  import F = Facets
  import N = DashboardFilters

  /** The in-flight query still counts: nothing superseded it. */
  predicate Live(s: Client) {
    s.flight.Some? && s.flight.value.task.revision == s.revision
  }

  /** What a task has to agree with to belong to the client's present. */
  datatype Present = Present(revision: nat, filters: N.Filters, snapshotId: Option<string>, traceSelected: bool)

  function PresentOf(s: Client): Present {
    Present(s.revision, s.view.filters, if s.view.snapshot.None? then None else Some(s.view.snapshot.value.id),
            s.view.selectedTraceId.Some?)
  }

  /** Same revision, same filters, same snapshot, a bootstrap exactly while no snapshot is bound, and a
      span lookup only under a selected trace. */
  predicate BoundTo(p: Present, t: Task) {
    && t.revision == p.revision
    && t.request.filters == p.filters
    && t.request.snapshotId == p.snapshotId
    && t.request.kind == t.purpose
    && (t.purpose.Bootstrap? <==> p.snapshotId.None?)
    && (t.purpose.Spans? || t.purpose.SpanQuery? ==> t.request.traceId.Some?)
    && (t.purpose.SpanQuery? ==> t.request.spanId.Some? && p.traceSelected)
  }

  predicate AllBound(p: Present, q: seq<Task>) {
    forall i :: 0 <= i < |q| ==> BoundTo(p, q[i])
  }

  predicate Binding(s: Client) {
    && AllBound(PresentOf(s), s.queue)
    && (Live(s) ==> BoundTo(PresentOf(s), s.flight.value.task))
    && (s.view.snapshot.None? ==> |s.queue| + (if Live(s) then 1 else 0) <= 1)
  }

  /** The abort signal of the awaited query is raised exactly when the query was superseded. */
  predicate FlightCoherent(s: Client) {
    && (s.flight.Some? ==>
          && s.flight.value.task.revision <= s.revision
          && (s.flight.value.aborted <==> !Live(s)))
    && (s.controller <==> Live(s))
  }

  predicate Histories(s: Client) {
    && 1 <= |s.traceCursors| <= CURSOR_HISTORY_LIMIT
    && 1 <= |s.spanCursors| <= CURSOR_HISTORY_LIMIT
  }

  ghost predicate FacetsBounded(s: Client) {
    && F.WithinLimit(s.view.facets, FacetLimit(s.view))
    && (s.view.snapshot.None? ==> s.view.facets == [])
  }

  /** A loaded private detail belongs to the turn of the selected span. */
  predicate DetailCoherent(s: Client) {
    && (s.view.selectedSpan.Some? ==> s.selectedSpanRequestId.Some?)
    && (s.view.privateDetail.DetailLoaded? ==> SelectedTurn(s) == Some(s.view.privateDetail.detail.turnId))
  }

  /** Of the pending detail calls only the latest can be current. */
  predicate DetailCalls(calls: seq<DetailCall>, revision: nat) {
    && (forall i :: 0 <= i < |calls| ==> calls[i].revision <= revision)
    && (forall i :: 0 <= i < |calls| - 1 ==> calls[i].revision < revision)
  }

  ghost predicate Core(s: Client) {
    Binding(s) && FlightCoherent(s) && Histories(s) && FacetsBounded(s) && DetailCoherent(s) && DetailCalls(s.detailCalls, s.detailRevision)
  }

  /** Between steps the drain loop runs exactly while it awaits one query. */
  predicate SingleFlight(s: Client) {
    s.draining <==> s.flight.Some?
  }

  /** Visible, idle and with work queued, the client has a timer armed. */
  predicate NoLostWakeUp(s: Client) {
    !s.hidden && !s.draining && s.queue != [] ==> s.wake.Some?
  }

  ghost predicate Inv(s: Client) {
    Core(s) && SingleFlight(s) && NoLostWakeUp(s)
  }

  /** The drain loop is handling an answer: it runs and awaits nothing. */
  predicate Applying(s: Client) {
    s.draining && s.flight.None?
  }

  predicate SameButScheduling(s: Client, r: Client) {
    r == s.(queue := r.queue, draining := r.draining, flight := r.flight, controller := r.controller, wake := r.wake,
            waiters := r.waiters)
  }

  lemma BindingFrame(s: Client, r: Client)
    requires Binding(s) && FlightCoherent(s)
    requires r.queue == s.queue && r.flight == s.flight && r.controller == s.controller
    requires PresentOf(r) == PresentOf(s) || PresentOf(r) == PresentOf(s).(traceSelected := true)
    ensures Binding(r) && FlightCoherent(r)
  {
  }

  lemma WithoutIsBound(s: Client, i: nat)
    requires Core(s) && i < |s.queue|
    ensures Core(s.(queue := Without(s.queue, i)))
  {
    hide F.WithinLimit;
    var q := Without(s.queue, i);
    forall k | 0 <= k < |q| ensures BoundTo(PresentOf(s), q[k]) {
      assert q[k] == s.queue[if k < i then k else k + 1];
    }
  }

  lemma DrainLoopKeeps(s: Client, now: int)
    requires Core(s) && Applying(s)
    ensures var r := DrainLoop(s, now);
            SameButScheduling(s, r) && Core(r) && SingleFlight(r) && NoLostWakeUp(r)
  {
    hide F.WithinLimit;
    if Drainable(s, now) {
      var i := FirstReady(s.queue, now);
      WithoutIsBound(s, i);
      assert BoundTo(PresentOf(s), s.queue[i]);
    } else {
      var idle := s.(draining := false);
      assert DrainLoop(s, now) == DrainEnds(s, now);
      assert s.queue != [] ==> DrainEnds(s, now) == ScheduleDrain(idle, now);
    }
  }

  lemma ScheduleDrainKeeps(s: Client, now: int)
    requires Core(s)
    requires SingleFlight(s) || Applying(s)
    ensures var r := ScheduleDrain(s, now);
            && SameButScheduling(s, r) && Core(r)
            && (Applying(s) ==> r == s)
            && (SingleFlight(s) ==> SingleFlight(r) && NoLostWakeUp(r))
  {
    hide F.WithinLimit, DrainLoop;
    if !s.draining && !s.hidden && SomeReady(s.queue, now) {
      DrainLoopKeeps(s.(draining := true), now);
    }
  }

  lemma EnqueueKeeps(s: Client, t: Task, now: int)
    requires Core(s.(queue := s.queue + [t]))
    requires SingleFlight(s) || Applying(s)
    ensures var r := Enqueue(s, t, now);
            && SameButScheduling(s, r) && Core(r)
            && (Applying(s) ==> Applying(r))
            && (SingleFlight(s) ==> SingleFlight(r) && NoLostWakeUp(r))
  {
    hide F.WithinLimit, ScheduleDrain;
    ScheduleDrainKeeps(s.(queue := s.queue + [t]), now);
  }

  lemma EnqueueBootstrapKeeps(s: Client, delay: nat, now: int)
    requires Core(s) && s.queue == [] && !Live(s) && s.view.snapshot.None?
    requires SingleFlight(s) || Applying(s)
    ensures var r := EnqueueBootstrap(s, delay, now);
            && SameButScheduling(s, r) && Core(r)
            && (Applying(s) ==> Applying(r))
            && (SingleFlight(s) ==> SingleFlight(r) && NoLostWakeUp(r))
  {
    hide F.WithinLimit, Enqueue;
    EnqueueKeeps(s, BootstrapTask(s, now + delay), now);
  }

  lemma EnqueueBoundKeeps(s: Client, purpose: Purpose, traceId: Option<string>, spanId: Option<string>,
                          cursor: Option<Cursor>, page: nat, delay: nat, now: int)
    requires Core(s) && !purpose.Bootstrap?
    requires purpose.Spans? || purpose.SpanQuery? ==> traceId.Some?
    requires purpose.SpanQuery? ==> spanId.Some? && s.view.selectedTraceId.Some?
    requires SingleFlight(s) || Applying(s)
    ensures var r := EnqueueBound(s, purpose, traceId, spanId, cursor, page, delay, now);
            && SameButScheduling(s, r) && Core(r)
            && (Applying(s) ==> Applying(r))
            && (SingleFlight(s) ==> SingleFlight(r))
            && (SingleFlight(s) && s.view.snapshot.Some? ==> NoLostWakeUp(r))
            && (NoLostWakeUp(s) && s.view.snapshot.None? ==> NoLostWakeUp(r))
  {
    hide F.WithinLimit, Enqueue;
    if s.view.snapshot.Some? {
      EnqueueKeeps(s, BoundTask(s, s.view.snapshot.value, purpose, traceId, spanId, cursor, page, now + delay), now);
    }
  }

  lemma EnqueueInitialKeeps(s: Client, now: int)
    requires Core(s) && s.view.snapshot.Some?
    requires SingleFlight(s) || Applying(s)
    ensures var r := EnqueueInitialQueries(s, now);
            && Core(r)
            && r.view == s.view.(summary := SummaryPending)
            && (Applying(s) ==> Applying(r))
            && (SingleFlight(s) ==> SingleFlight(r) && NoLostWakeUp(r))
  {
    hide F.WithinLimit, Enqueue, ScheduleDrain, EnqueueBound, EnqueueBootstrap;
    EnqueueBoundKeeps(s, Traces, None, None, None, 0, 0, now);
    var t := EnqueueBound(s, Traces, None, None, None, 0, 0, now);
    EnqueueBoundKeeps(t, FacetQuery, None, None, None, 0, 0, now);
    var f := EnqueueBound(t, FacetQuery, None, None, None, 0, 0, now);
    EnqueueBoundKeeps(f.(view := f.view.(summary := SummaryPending)), SummaryQuery, None, None, None, 0, 0, now);
  }

  lemma InvalidateKeeps(s: Client)
    requires Core(s) && SingleFlight(s)
    ensures var r := Invalidate(s);
            && Core(r) && SingleFlight(r) && r.queue == [] && !Live(r)
            && r.view == s.view.(privateDetail := DetailIdle)
            && r.hidden == s.hidden
  {
    hide F.WithinLimit;
  }

  lemma RestartKeeps(s: Client, now: int)
    requires Inv(s)
    ensures Inv(Restart(s, now))
  {
    hide F.WithinLimit, Enqueue, ScheduleDrain, EnqueueBound, EnqueueBootstrap;
    InvalidateKeeps(s);
    var i := ClearPrivateDetail(Invalidate(s).(traceCursors := [None], spanCursors := [None], selectedSpanRequestId := None));
    F.NoRowsWithinLimit(DEFAULT_FACET_LIMIT);
    EnqueueBootstrapKeeps(i.(view := InitialView(N.Normalize(s.view.filters))), 0, now);
  }

  lemma ChangeFiltersKeeps(s: Client, filters: N.Filters, now: int)
    requires Inv(s)
    ensures Inv(ChangeFilters(s, filters, now))
  {
    hide F.WithinLimit, Enqueue, ScheduleDrain, EnqueueBound, EnqueueBootstrap, EnqueueInitialQueries;
    InvalidateKeeps(s);
    var i := Invalidate(s).(traceCursors := [None], spanCursors := [None], selectedSpanRequestId := None);
    var u := i.(view := i.view.(
      filters := N.Normalize(filters), summary := SummaryIdle, traces := EmptyPage(), spans := EmptyPage(), facets := [],
      facetsLimited := false, selectedTraceId := None, selectedSpan := None, privateDetail := DetailIdle,
      availability := if i.view.snapshot.None? then Loading else AvailabilityOf(i.view.snapshot.value), reason := None));
    F.NoRowsWithinLimit(FacetLimit(u.view));
    assert Core(u);
    if u.view.snapshot.None? {
      EnqueueBootstrapKeeps(u, 0, now);
    } else {
      EnqueueInitialKeeps(u, now);
    }
  }

  lemma ChooseTraceKeeps(s: Client, id: string, now: int)
    requires Inv(s)
    ensures Inv(ChooseTrace(s, id, now))
  {
    hide F.WithinLimit, EnqueueBound, Binding, FlightCoherent, Live, IsProjectedId;
    if s.view.snapshot.Some? {
      var c := ClearPrivateDetail(s.(spanCursors := [None], selectedSpanRequestId := None));
      var u := c.(view := c.view.(selectedTraceId := Some(id), selectedSpan := None, spans := EmptyPage(),
                                  availability := AvailabilityOf(s.view.snapshot.value), reason := None));
      BindingFrame(s, u);
      EnqueueBoundKeeps(u, Spans, Some(id), None, None, 0, 0, now);
    }
  }

  lemma ChooseSpanKeeps(s: Client, id: string, now: int)
    requires Inv(s)
    ensures Inv(ChooseSpan(s, id, now))
  {
    hide F.WithinLimit, EnqueueBound, Binding, FlightCoherent, Live, IsProjectedId;
    if s.view.selectedTraceId.Some? {
      var c := ClearPrivateDetail(s).(selectedSpanRequestId := Some(id));
      BindingFrame(s, c);
      EnqueueBoundKeeps(c, SpanQuery, s.view.selectedTraceId, Some(id), None, 0, 0, now);
    }
  }

  lemma TraceNavigationKeeps(s: Client, now: int)
    requires Inv(s)
    ensures Inv(TracesForward(s, now)) && Inv(TracesBack(s, now))
  {
    hide F.WithinLimit, Enqueue, ScheduleDrain, EnqueueBound, EnqueueBootstrap;
    var c := s.view.traces.nextCursor;
    if c.Some? {
      EnqueueBoundKeeps(s.(traceCursors := Push(s.traceCursors, c.value)), Traces, None, None, c, s.view.traces.page + 1, 0, now);
    }
    if |s.traceCursors| > 1 {
      var p := s.(traceCursors := s.traceCursors[..|s.traceCursors| - 1]);
      EnqueueBoundKeeps(p, Traces, None, None, Last(p.traceCursors), PageBefore(s.view.traces.page), 0, now);
    }
  }

  lemma SpanNavigationKeeps(s: Client, now: int)
    requires Inv(s)
    ensures Inv(SpansForward(s, now)) && Inv(SpansBack(s, now))
  {
    hide F.WithinLimit, Enqueue, ScheduleDrain, EnqueueBound, EnqueueBootstrap;
    var trace, c := s.view.selectedTraceId, s.view.spans.nextCursor;
    if trace.Some? {
      if c.Some? {
        EnqueueBoundKeeps(s.(spanCursors := Push(s.spanCursors, c.value)), Spans, trace, None, c, s.view.spans.page + 1, 0, now);
      }
      if |s.spanCursors| > 1 {
        var p := s.(spanCursors := s.spanCursors[..|s.spanCursors| - 1]);
        EnqueueBoundKeeps(p, Spans, trace, None, Last(p.spanCursors), PageBefore(s.view.spans.page), 0, now);
      }
    }
  }

  lemma ApplyStatusKeeps(s: Client, task: Task, r: Reason, now: int)
    requires Core(s) && Applying(s) && BoundTo(PresentOf(s), task)
    requires s.view.snapshot.None? ==> s.queue == []
    ensures Core(ApplyStatus(s, task, r, now)) && Applying(ApplyStatus(s, task, r, now))
  {
    hide F.WithinLimit, Enqueue, ScheduleDrain, EnqueueBootstrap;
    if r.Busy? || r.BuildingSnapshot? {
      var v := s.view.(availability := if r.Busy? then s.view.availability else Building, reason := Some(Status(r)));
      EnqueueKeeps(s.(view := v), task.(readyAt := now + s.backoff), now);
    } else if r.RefreshIsPending? {
      var c := ClearPrivateDetail(s);
      var v := InitialView(c.view.filters).(availability := RefreshPending, reason := Some(Status(r)));
      F.NoRowsWithinLimit(FacetLimit(v));
      EnqueueBootstrapKeeps(c.(view := v, queue := []), s.backoff, now);
    } else {
      F.NoRowsWithinLimit(DEFAULT_FACET_LIMIT);
    }
  }

  lemma ApplyBodyKeeps(s: Client, task: Task, body: Body, now: int)
    requires Core(s) && Applying(s) && s.view.snapshot.Some?
    requires BodyPurpose(body) == task.purpose
    requires task.purpose.SpanQuery? ==> task.request.spanId.Some?
    requires task.purpose.Bootstrap? ==> s.view.facets == []
    ensures Core(ApplyBody(s, task, body, now)) && Applying(ApplyBody(s, task, body, now))
  {
    hide F.WithinLimit, Enqueue, ScheduleDrain, EnqueueBound, EnqueueInitialQueries, F.Apply;
    match body {
      case BootstrapBody(limit) =>
        var u := s.(view := s.view.(facetLimit := Some(limit)));
        F.NoRowsWithinLimit(limit);
        if s.autoLoad { EnqueueInitialKeeps(u, now); }
      case TracesBody(rows, p) =>
      case SpansBody(rows, p) =>
      case SummaryBody(kpis, cursor) =>
        EnqueueBoundKeeps(s.(view := s.view.(summary := SummaryPending)), SummaryQuery, None, None, cursor, 0, SmallBackoff(s), now);
      case SpanBody(detail) =>
      case FacetsBody(rows, cursor) =>
        F.ApplyStaysWithinLimit(F.FacetList(s.view.facets, s.view.facetsLimited), rows, FacetLimit(s.view));
        var list := F.Apply(F.FacetList(s.view.facets, s.view.facetsLimited), rows, FacetLimit(s.view));
        var u := s.(view := s.view.(facets := list.rows, facetsLimited := list.limited));
        EnqueueBoundKeeps(u, FacetQuery, None, None, cursor, task.page + 1, SmallBackoff(s), now);
    }
  }

  lemma ResponseBindsSnapshot(s: Client, task: Task, v: View)
    requires Core(s) && Applying(s) && BoundTo(PresentOf(s), task)
    requires s.view.snapshot.None? ==> s.queue == []
    requires v.snapshot.Some? && (task.request.snapshotId.Some? ==> v.snapshot.value.id == task.request.snapshotId.value)
    requires v == s.view.(snapshot := v.snapshot, coldExcluded := v.coldExcluded, availability := v.availability, reason := v.reason)
    ensures Core(s.(view := v))
    ensures task.purpose.Bootstrap? ==> v.facets == []
  {
    hide F.WithinLimit, Binding, FlightCoherent;
    if s.view.snapshot.Some? {
      BindingFrame(s, s.(view := v));
    } else {
      EmptyQueueIsBound(s, v);
    }
  }

  lemma EmptyQueueIsBound(s: Client, v: View)
    requires FlightCoherent(s) && s.queue == [] && s.flight.None? && v.snapshot.Some?
    ensures Binding(s.(view := v)) && FlightCoherent(s.(view := v))
  {
  }

  lemma QueryFailedKeeps(s: Client, overCapacity: bool, why: Notice)
    requires Core(s) && Applying(s)
    ensures Core(QueryFailed(s, overCapacity, why)) && Applying(QueryFailed(s, overCapacity, why))
  {
    hide F.WithinLimit;
  }

  lemma ApplyResponseKeeps(s: Client, task: Task, r: Response, now: int)
    requires Core(s) && Applying(s) && BoundTo(PresentOf(s), task)
    requires s.view.snapshot.None? ==> s.queue == []
    ensures Core(ApplyResponse(s, task, r, now)) && Applying(ApplyResponse(s, task, r, now))
  {
    hide F.WithinLimit, ApplyStatus, ApplyBody, Core, QueryFailed;
    QueryFailedKeeps(s, false, UnexpectedKind);
    QueryFailedKeeps(s, false, SnapshotChanged);
    match r {
      case StatusResponse(status) => ApplyStatusKeeps(s, task, status, now);
      case DataResponse(snapshot, coldExcluded, body) =>
        if BodyPurpose(body) == task.purpose
          && (task.request.snapshotId.Some? ==> snapshot.id == task.request.snapshotId.value)
        {
          var v := s.view.(snapshot := Some(snapshot), coldExcluded := Some(coldExcluded),
                           availability := AvailabilityOf(snapshot),
                           reason := if coldExcluded then Some(ColdExcluded) else None);
          ResponseBindsSnapshot(s, task, v);
          ApplyBodyKeeps(s.(view := v), task, body, now);
        }
    }
  }

  lemma QuerySettlesKeeps(s: Client, outcome: Outcome, now: int)
    requires Inv(s)
    ensures Inv(QuerySettles(s, outcome, now))
  {
    hide F.WithinLimit, ApplyResponse, DrainLoop;
    if s.flight.Some? {
      var flight := s.flight.value;
      var landed := s.(flight := None, controller := s.controller && flight.aborted);
      assert Core(landed) && Applying(landed);
      if !Live(s) {
        DrainLoopKeeps(landed, now);
      } else {
        var applied := match outcome
          case Resolved(r) => ApplyResponse(landed, flight.task, r, now)
          case Rejected(isAbort, overCapacity, message) => QueryFailed(landed, overCapacity, Reported(message));
        if outcome.Resolved? {
          ApplyResponseKeeps(landed, flight.task, outcome.response, now);
        }
        DrainLoopKeeps(applied, now);
      }
    }
  }

  /** Only the private-detail part of the client changes. */
  lemma DetailFrame(s: Client, pd: PrivateDetail, revision: nat, calls: seq<DetailCall>)
    requires Inv(s) && DetailCalls(calls, revision)
    requires pd.DetailLoaded? ==> SelectedTurn(s) == Some(pd.detail.turnId)
    ensures Inv(s.(view := s.view.(privateDetail := pd), detailRevision := revision, detailCalls := calls))
  {
    hide F.WithinLimit, Binding, FlightCoherent, Live, DetailCalls;
    BindingFrame(s, s.(view := s.view.(privateDetail := pd), detailRevision := revision, detailCalls := calls));
  }

  lemma AnsweredCallLeaves(calls: seq<DetailCall>, revision: nat, call: nat)
    requires DetailCalls(calls, revision) && call < |calls|
    ensures DetailCalls(Without(calls, call), revision)
  {
    var rest := Without(calls, call);
    forall k | 0 <= k < |rest| ensures rest[k] == calls[if k < call then k else k + 1] {
    }
  }

  lemma NewCallIsLatest(calls: seq<DetailCall>, revision: nat, turnId: string)
    requires DetailCalls(calls, revision)
    ensures DetailCalls(calls + [DetailCall(revision + 1, turnId)], revision + 1)
  {
  }

  lemma DetailPart(s: Client)
    requires Inv(s)
    ensures DetailCoherent(s) && DetailCalls(s.detailCalls, s.detailRevision)
  {
  }

  /** Only the detail moves, and what it shows is for the selected turn. */
  lemma OnlyDetailMoves(s: Client, call: DetailCall, outcome: DetailOutcome)
    ensures var r := PrivateDetailSettles(s, call, outcome);
            && r == s.(view := s.view.(privateDetail := r.view.privateDetail))
            && (r.view.privateDetail.DetailLoaded? ==>
                  r == s || SelectedTurn(s) == Some(r.view.privateDetail.detail.turnId))
  {
    hide SelectedTurn;
    if call.revision == s.detailRevision {
      match DetailResult(call.turnId, outcome)
      case DetailResolved(_) =>
      case DetailAbsent(_) =>
      case DetailRejected(_, _) =>
    }
  }

  lemma DetailSettlesKeeps(s: Client, call: nat, outcome: DetailOutcome)
    requires Inv(s) && call < |s.detailCalls|
    ensures Inv(PrivateDetailSettles(s.(detailCalls := Without(s.detailCalls, call)), s.detailCalls[call], outcome))
  {
    hide Inv, Without, DetailCalls;
    DetailPart(s);
    AnsweredCallLeaves(s.detailCalls, s.detailRevision, call);
    var rest := Without(s.detailCalls, call);
    OnlyDetailMoves(s.(detailCalls := rest), s.detailCalls[call], outcome);
    hide PrivateDetailSettles;
    var r := PrivateDetailSettles(s.(detailCalls := rest), s.detailCalls[call], outcome);
    DetailFrame(s, r.view.privateDetail, s.detailRevision, rest);
  }

  lemma StartPrivateDetailKeeps(s: Client)
    requires Inv(s)
    ensures Inv(StartPrivateDetail(s))
  {
    hide Inv, DetailCalls;
    DetailPart(s);
    var r := StartPrivateDetail(s);
    if r.view.privateDetail == DetailLoading {
      NewCallIsLatest(s.detailCalls, s.detailRevision, s.view.selectedSpan.value.turnId.value);
    }
    DetailFrame(s, r.view.privateDetail, r.detailRevision, r.detailCalls);
  }

  lemma ClearDetailKeeps(s: Client)
    requires Inv(s)
    ensures Inv(ClearDetail(s))
  {
    hide F.WithinLimit, AllBound, BoundTo;
  }

  lemma WaitingAndHidingKeep(s: Client, n: nat)
    requires Inv(s)
    ensures Inv(s.(hidden := true)) && Inv(s.(waiters := n))
  {
    hide F.WithinLimit, AllBound, BoundTo;
  }

  lemma DisposeKeeps(s: Client)
    requires Inv(s)
    ensures Inv(Invalidate(s).(waiters := 0))
  {
    hide F.WithinLimit;
    InvalidateKeeps(s);
  }

  lemma WakeUpsKeep(s: Client, now: int)
    requires Inv(s)
    ensures Inv(ScheduleDrain(s.(hidden := false), now))
    ensures Inv(ScheduleDrain(s.(wake := None), now))
  {
    hide F.WithinLimit, ScheduleDrain;
    ScheduleDrainKeeps(s.(hidden := false), now);
    ScheduleDrainKeeps(s.(wake := None), now);
  }

  /** Every step of the client keeps the whole invariant. */
  lemma StepKeepsInvariant(s: Client, tick: Tick)
    requires Inv(s)
    ensures Inv(Step(s, tick))
  {
    hide Inv, Restart, ChangeFilters, ChooseTrace, ChooseSpan, ClearDetail, StartPrivateDetail, TracesForward, TracesBack,
         SpansForward, SpansBack, Invalidate, ScheduleDrain, QuerySettles, PrivateDetailSettles;
    var now := tick.now;
    match tick.event {
      case Start => RestartKeeps(s, now);
      case Refresh => RestartKeeps(s, now);
      case SetFilters(filters) => ChangeFiltersKeeps(s, filters, now);
      case SelectTrace(traceId) => ChooseTraceKeeps(s, traceId, now);
      case SelectSpan(spanId) => ChooseSpanKeeps(s, spanId, now);
      case ClearSelectedDetail => ClearDetailKeeps(s);
      case LoadPrivateDetail => StartPrivateDetailKeeps(s);
      case NextTraces => TraceNavigationKeeps(s, now);
      case PreviousTraces => TraceNavigationKeeps(s, now);
      case NextSpans => SpanNavigationKeeps(s, now);
      case PreviousSpans => SpanNavigationKeeps(s, now);
      case Settled => WaitingAndHidingKeep(s, s.waiters + 1);
      case Dispose => DisposeKeeps(s);
      case Hide => WaitingAndHidingKeep(s, 0);
      case Show => WakeUpsKeep(s, now);
      case TimerFires => WakeUpsKeep(s, now);
      case TransportSettles(outcome) => QuerySettlesKeeps(s, outcome, now);
      case DetailSettles(call, outcome) => if call < |s.detailCalls| { DetailSettlesKeeps(s, call, outcome); }
    }
  }

  lemma LiveTaskIsBound(s: Client)
    requires Inv(s)
    ensures Live(s) ==> BoundTo(PresentOf(s), s.flight.value.task)
    ensures s.flight.Some? ==> s.draining
  {
  }

  /** Binding, single flight and no lost wake-up, in every state of every run. */
  lemma {:induction false} EveryRunKeepsInvariant(backoff: nat, autoLoad: bool, detail: bool, hidden: bool, ticks: seq<Tick>)
    ensures Inv(Run(InitialClient(backoff, autoLoad, detail, hidden), ticks))
  {
    if ticks != [] {
      var front := ticks[..|ticks| - 1];
      EveryRunKeepsInvariant(backoff, autoLoad, detail, hidden, front);
      StepKeepsInvariant(Run(InitialClient(backoff, autoLoad, detail, hidden), front), ticks[|ticks| - 1]);
    } else {
      F.NoRowsWithinLimit(DEFAULT_FACET_LIMIT);
    }
  }
}
