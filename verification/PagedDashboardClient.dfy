/** The client as the object it is (ui/report/paged-client.ts, class PagedDashboardClient). Every method is
    one synchronous stretch of the source and is proved to take exactly the step of the state machine that
    the theorems are about. `await` splits a method in two. */
module PagedDashboardClient {
  import opened Common
  import opened M = DashboardModel
  import F = Facets
  import N = DashboardFilters

  class PagedDashboardClient {
    var stateValue: View
    var queue: seq<Task>
    var revision: nat
    var draining: bool
    var inFlight: Option<Flight>
    var controller: bool
    var wakeTimer: Option<int>
    var traceCursors: seq<Option<Cursor>>
    var spanCursors: seq<Option<Cursor>>
    var selectedSpanRequestId: Option<string>
    var privateDetailRevision: nat
    var privateDetailCalls: seq<DetailCall>
    var idleWaiters: nat
    var hidden: bool
    const backoffMs: nat
    const autoLoad: bool
    const detailTransport: bool

    ghost function State(): Client
      reads this
    {
      Client(stateValue, queue, revision, draining, inFlight, controller, wakeTimer, traceCursors, spanCursors,
             selectedSpanRequestId, privateDetailRevision, privateDetailCalls, idleWaiters, hidden, backoffMs, autoLoad,
             detailTransport)
    }

    constructor (backoffMs: nat, autoLoad: bool, detailTransport: bool, hidden: bool)
      ensures State() == InitialClient(backoffMs, autoLoad, detailTransport, hidden)
    {
      this.stateValue := InitialView(N.NO_FILTERS);
      this.queue := [];
      this.revision := 0;
      this.draining := false;
      this.inFlight := None;
      this.controller := false;
      this.wakeTimer := None;
      this.traceCursors := [None];
      this.spanCursors := [None];
      this.selectedSpanRequestId := None;
      this.privateDetailRevision := 0;
      this.privateDetailCalls := [];
      this.idleWaiters := 0;
      this.hidden := hidden;
      this.backoffMs := backoffMs;
      this.autoLoad := autoLoad;
      this.detailTransport := detailTransport;
    }

    // ----- the scheduler

    method FindReady(now: int) returns (found: Option<nat>)
      ensures found.Some? <==> SomeReady(queue, now)
      ensures found.Some? ==> found.value < |queue| && found.value == FirstReady(queue, now)
    {
      for i := 0 to |queue|
        invariant forall k :: 0 <= k < i ==> queue[k].readyAt > now
      {
        if queue[i].readyAt <= now {
          FirstReadyIsUnique(queue, now, i);
          return Some(i);
        }
      }
      return None;
    }

    method EarliestDeadline() returns (earliest: int)
      requires queue != []
      ensures earliest == EarliestReady(queue)
    {
      var i := |queue| - 1;
      earliest := queue[i].readyAt;
      assert queue[i..] == [queue[i]];
      while i > 0
        invariant 0 <= i < |queue|
        invariant earliest == EarliestReady(queue[i..])
      {
        i := i - 1;
        assert queue[i..][1..] == queue[i + 1..];
        if queue[i].readyAt < earliest { earliest := queue[i].readyAt; }
      }
      assert queue[0..] == queue;
    }

    method ScheduleDrain(now: int)
      modifies this
      ensures State() == M.ScheduleDrain(old(State()), now)
      ensures unchanged(`stateValue, `revision, `hidden)
      decreases |queue|, if Drainable(State(), now) then 3 else 0
    {
      if draining || hidden || queue == [] { return; }
      var ready := FindReady(now);
      if ready.None? {
        if wakeTimer.None? {
          var earliest := EarliestDeadline();
          wakeTimer := Some(earliest);
        }
        return;
      }
      draining := true;
      DrainLoop(now);
    }

    /** One turn of the loop: a ready task is taken off the queue, and sent unless it has been superseded. */
    method TakeReadyTask(now: int) returns (found: bool, sent: bool)
      requires !hidden
      modifies this
      ensures !found ==> !sent && State() == old(State()) && !SomeReady(queue, now)
      ensures found ==> |queue| < |old(queue)|
      ensures sent ==> State() == M.DrainLoop(old(State()), now)
      ensures found && !sent ==> M.DrainLoop(State(), now) == M.DrainLoop(old(State()), now)
      ensures unchanged(`stateValue, `revision, `hidden)
    {
      hide M.DrainEnds;
      var index := FindReady(now);
      if index.None? { return false, false; }
      var task := queue[index.value];
      queue := queue[..index.value] + queue[index.value + 1..];
      if task.revision != revision { return true, false; }
      inFlight := Some(Flight(task, false));
      controller := true;
      return true, true;
    }

    method DrainLoop(now: int)
      modifies this
      ensures State() == M.DrainLoop(old(State()), now)
      ensures unchanged(`stateValue, `revision, `hidden)
      decreases |queue|, 2
    {
      while !hidden
        invariant M.DrainLoop(State(), now) == M.DrainLoop(old(State()), now)
        invariant |queue| <= |old(queue)|
        invariant unchanged(`stateValue, `revision, `hidden)
        decreases |queue|
      {
        var found, sent := TakeReadyTask(now);
        if !found { break; }
        if sent { return; }
      }
      assert M.DrainLoop(State(), now) == DrainEnds(State(), now);
      draining := false;
      if queue == [] {
        idleWaiters := 0;
      } else {
        ScheduleDrain(now);
      }
    }

    method Enqueue(task: Task, now: int)
      modifies this
      ensures State() == M.Enqueue(old(State()), task, now)
    {
      queue := queue + [task];
      ScheduleDrain(now);
    }

    method EnqueueBootstrap(delay: nat, now: int)
      modifies this
      ensures State() == M.EnqueueBootstrap(old(State()), delay, now)
    {
      Enqueue(Task(revision, Request(Bootstrap, stateValue.filters, None, None, None, None), Bootstrap, 0, now + delay), now);
    }

    method EnqueueBound(purpose: Purpose, traceId: Option<string>, spanId: Option<string>, cursor: Option<Cursor>, page: nat,
                        delay: nat, now: int)
      modifies this
      ensures State() == M.EnqueueBound(old(State()), purpose, traceId, spanId, cursor, page, delay, now)
    {
      if stateValue.snapshot.None? { return; }
      var request := Request(purpose, stateValue.filters, Some(stateValue.snapshot.value.id), traceId, spanId, cursor);
      Enqueue(Task(revision, request, purpose, page, now + delay), now);
    }

    method EnqueueInitialQueries(now: int)
      modifies this
      ensures State() == M.EnqueueInitialQueries(old(State()), now)
    {
      EnqueueBound(Traces, None, None, None, 0, 0, now);
      EnqueueBound(FacetQuery, None, None, None, 0, 0, now);
      stateValue := stateValue.(summary := SummaryPending);
      EnqueueBound(SummaryQuery, None, None, None, 0, 0, now);
    }

    // ----- invalidation

    method ClearPrivateDetail()
      modifies this
      ensures State() == M.ClearPrivateDetail(old(State()))
    {
      privateDetailRevision := privateDetailRevision + 1;
      if stateValue.privateDetail != DetailIdle {
        stateValue := stateValue.(privateDetail := DetailIdle);
      }
    }

    method InvalidatePendingWork()
      modifies this
      ensures State() == M.Invalidate(old(State()))
    {
      hide M.ClearPrivateDetail;
      revision := revision + 1;
      if controller && inFlight.Some? {
        inFlight := Some(inFlight.value.(aborted := true));
      }
      controller := false;
      queue := [];
      wakeTimer := None;
      ClearPrivateDetail();
    }

    method RestartWithBootstrap(filters: N.Filters, now: int)
      requires filters == stateValue.filters
      modifies this
      ensures State() == M.Restart(old(State()), now)
    {
      hide N.Normalize, M.Invalidate, M.EnqueueBootstrap;
      InvalidatePendingWork();
      traceCursors := [None];
      spanCursors := [None];
      selectedSpanRequestId := None;
      ClearPrivateDetail();
      stateValue := InitialView(N.Normalize(filters));
      EnqueueBootstrap(0, now);
    }

    // ----- calls from the page

    method Start(now: int)
      modifies this
      ensures State() == Step(old(State()), Tick(now, M.Start))
    {
      RestartWithBootstrap(stateValue.filters, now);
    }

    method Refresh(now: int)
      modifies this
      ensures State() == Step(old(State()), Tick(now, M.Refresh))
    {
      RestartWithBootstrap(stateValue.filters, now);
    }

    method SetFilters(filters: N.Filters, now: int)
      modifies this
      ensures State() == Step(old(State()), Tick(now, M.SetFilters(filters)))
    {
      hide N.Normalize, M.EnqueueBootstrap, M.EnqueueInitialQueries, M.Invalidate;
      var normalized := N.Normalize(filters);
      InvalidatePendingWork();
      traceCursors := [None];
      spanCursors := [None];
      selectedSpanRequestId := None;
      stateValue := stateValue.(
        filters := normalized, summary := SummaryIdle, traces := EmptyPage(), spans := EmptyPage(), facets := [],
        facetsLimited := false, selectedTraceId := None, selectedSpan := None, privateDetail := DetailIdle,
        availability := if stateValue.snapshot.None? then Loading else AvailabilityOf(stateValue.snapshot.value), reason := None);
      if stateValue.snapshot.None? || stateValue.availability == Expired {
        EnqueueBootstrap(0, now);
      } else {
        EnqueueInitialQueries(now);
      }
    }

    method SelectTrace(traceId: string, now: int)
      modifies this
      ensures State() == Step(old(State()), Tick(now, M.SelectTrace(traceId)))
    {
      hide IsProjectedId, M.EnqueueBound;
      if stateValue.snapshot.None? || !IsProjectedId(traceId) { return; }
      spanCursors := [None];
      selectedSpanRequestId := None;
      ClearPrivateDetail();
      stateValue := stateValue.(
        selectedTraceId := Some(traceId), selectedSpan := None, spans := EmptyPage(),
        availability := AvailabilityOf(stateValue.snapshot.value), reason := None);
      EnqueueBound(Spans, Some(traceId), None, None, 0, 0, now);
    }

    method SelectSpan(spanId: string, now: int)
      modifies this
      ensures State() == Step(old(State()), Tick(now, M.SelectSpan(spanId)))
    {
      hide IsProjectedId, M.EnqueueBound;
      var traceId := stateValue.selectedTraceId;
      if traceId.None? || !IsProjectedId(spanId) { return; }
      ClearPrivateDetail();
      selectedSpanRequestId := Some(spanId);
      EnqueueBound(SpanQuery, traceId, Some(spanId), None, 0, 0, now);
    }

    method ClearSelectedDetail(now: int)
      modifies this
      ensures State() == Step(old(State()), Tick(now, M.ClearSelectedDetail))
    {
      selectedSpanRequestId := None;
      ClearPrivateDetail();
      stateValue := stateValue.(selectedSpan := None);
    }

    /** loadPrivateDetail up to its `await`. */
    method LoadPrivateDetail(now: int)
      modifies this
      ensures State() == Step(old(State()), Tick(now, M.LoadPrivateDetail))
    {
      var span := stateValue.selectedSpan;
      if span.None? || !detailTransport || !PrivateDetailEligible(span.value) {
        stateValue := stateValue.(privateDetail := DetailMissing(NotEligible));
        return;
      }
      var turnId := span.value.turnId.value;
      if turnId == "" {
        stateValue := stateValue.(privateDetail := DetailMissing(NoTurnCorrelation));
        return;
      }
      privateDetailRevision := privateDetailRevision + 1;
      privateDetailCalls := privateDetailCalls + [DetailCall(privateDetailRevision, turnId)];
      stateValue := stateValue.(privateDetail := DetailLoading);
    }

    method NextTraces(now: int)
      modifies this
      ensures State() == Step(old(State()), Tick(now, M.NextTraces))
    {
      hide M.EnqueueBound;
      var cursor := stateValue.traces.nextCursor;
      if cursor.None? { return; }
      traceCursors := traceCursors + [cursor];
      if |traceCursors| > CURSOR_HISTORY_LIMIT { traceCursors := traceCursors[1..]; }
      EnqueueBound(Traces, None, None, cursor, stateValue.traces.page + 1, 0, now);
    }

    method PreviousTraces(now: int)
      modifies this
      ensures State() == Step(old(State()), Tick(now, M.PreviousTraces))
    {
      hide M.EnqueueBound;
      if |traceCursors| <= 1 { return; }
      traceCursors := traceCursors[..|traceCursors| - 1];
      EnqueueBound(Traces, None, None, Last(traceCursors), PageBefore(stateValue.traces.page), 0, now);
    }

    method NextSpans(now: int)
      modifies this
      ensures State() == Step(old(State()), Tick(now, M.NextSpans))
    {
      hide M.EnqueueBound;
      var cursor, traceId := stateValue.spans.nextCursor, stateValue.selectedTraceId;
      if cursor.None? || traceId.None? { return; }
      spanCursors := spanCursors + [cursor];
      if |spanCursors| > CURSOR_HISTORY_LIMIT { spanCursors := spanCursors[1..]; }
      EnqueueBound(Spans, traceId, None, cursor, stateValue.spans.page + 1, 0, now);
    }

    method PreviousSpans(now: int)
      modifies this
      ensures State() == Step(old(State()), Tick(now, M.PreviousSpans))
    {
      hide M.EnqueueBound;
      var traceId := stateValue.selectedTraceId;
      if traceId.None? || |spanCursors| <= 1 { return; }
      spanCursors := spanCursors[..|spanCursors| - 1];
      EnqueueBound(Spans, traceId, None, Last(spanCursors), PageBefore(stateValue.spans.page), 0, now);
    }

    /** settled: `resolved` says whether the promise is resolved at once. */
    method Settled(now: int) returns (resolved: bool)
      modifies this
      ensures State() == Step(old(State()), Tick(now, M.Settled))
      ensures resolved <==> idleWaiters == old(idleWaiters)
    {
      if !draining && queue == [] && wakeTimer.None? { return true; }
      idleWaiters := idleWaiters + 1;
      return false;
    }

    method Dispose(now: int)
      modifies this
      ensures State() == Step(old(State()), Tick(now, M.Dispose))
    {
      InvalidatePendingWork();
      idleWaiters := 0;
    }

    // ----- visibility and the wake timer

    method Hide(now: int)
      modifies this
      ensures State() == Step(old(State()), Tick(now, M.Hide))
    {
      hidden := true;
    }

    method Show(now: int)
      modifies this
      ensures State() == Step(old(State()), Tick(now, M.Show))
    {
      hide M.ScheduleDrain;
      hidden := false;
      ScheduleDrain(now);
    }

    method TimerFires(now: int)
      modifies this
      ensures State() == Step(old(State()), Tick(now, M.TimerFires))
    {
      hide M.ScheduleDrain;
      if wakeTimer.None? { return; }
      wakeTimer := None;
      ScheduleDrain(now);
    }

    // ----- settling promises

    method QueryFailed(overCapacity: bool, why: Notice)
      modifies this
      ensures State() == M.QueryFailed(old(State()), overCapacity, why)
    {
      stateValue := stateValue.(availability := if overCapacity then Capacity else Failed, reason := Some(why));
      queue := [];
    }

    method ApplyStatus(task: Task, reason: Reason, now: int)
      modifies this
      ensures State() == M.ApplyStatus(old(State()), task, reason, now)
    {
      hide M.Enqueue, M.EnqueueBootstrap;
      if reason == Busy || reason == BuildingSnapshot {
        stateValue := stateValue.(
          availability := if reason == BuildingSnapshot then Building else stateValue.availability, reason := Some(Status(reason)));
        Enqueue(task.(readyAt := now + backoffMs), now);
        return;
      }
      if reason == RefreshIsPending {
        ClearPrivateDetail();
        stateValue := InitialView(stateValue.filters).(availability := RefreshPending, reason := Some(Status(reason)));
        queue := [];
        EnqueueBootstrap(backoffMs, now);
        return;
      }
      queue := [];
      if reason == SnapshotExpired {
        ClearPrivateDetail();
        stateValue := InitialView(stateValue.filters).(availability := Expired, reason := Some(Status(reason)));
      } else if reason == OverCapacity {
        stateValue := stateValue.(availability := Capacity, reason := Some(Status(reason)));
      } else {
        stateValue := stateValue.(availability := Failed, reason := Some(Status(reason)));
      }
    }

    method ApplySummary(kpis: Option<string>, cursor: Option<Cursor>, now: int)
      modifies this
      ensures State() == M.ApplySummary(old(State()), kpis, cursor, now)
    {
      hide M.EnqueueBound;
      if kpis.Some? {
        stateValue := stateValue.(summary := SummaryComplete(kpis.value));
        return;
      }
      stateValue := stateValue.(summary := SummaryPending);
      if cursor.Some? {
        EnqueueBound(SummaryQuery, None, None, cursor, 0, if backoffMs < 16 then backoffMs else 16, now);
      }
    }

    method ApplyFacets(rows: seq<F.FacetRow>, cursor: Option<Cursor>, page: nat, now: int)
      modifies this
      ensures State() == M.ApplyFacets(old(State()), rows, cursor, page, now)
    {
      hide M.EnqueueBound, F.Apply;
      var facets, limited := F.ApplyPage(stateValue.facets, stateValue.facetsLimited, rows, FacetLimit(stateValue));
      stateValue := stateValue.(facets := facets, facetsLimited := limited);
      if cursor.Some? {
        EnqueueBound(FacetQuery, None, None, cursor, page + 1, if backoffMs < 16 then backoffMs else 16, now);
      }
    }

    method ApplyBody(task: Task, body: Body, now: int)
      modifies this
      ensures State() == M.ApplyBody(old(State()), task, body, now)
    {
      hide M.EnqueueInitialQueries, M.ApplySummary, M.ApplyFacets;
      match body {
        case BootstrapBody(limit) =>
          stateValue := stateValue.(facetLimit := Some(limit));
          if autoLoad { EnqueueInitialQueries(now); }
        case TracesBody(rows, p) =>
          stateValue := stateValue.(traces := PageState(rows, p, task.page, |traceCursors|));
        case SpansBody(rows, p) =>
          if task.request.traceId == stateValue.selectedTraceId {
            stateValue := stateValue.(spans := PageState(rows, p, task.page, |spanCursors|));
          }
        case SummaryBody(kpis, cursor) => ApplySummary(kpis, cursor, now);
        case SpanBody(detail) =>
          if task.request.spanId == selectedSpanRequestId {
            stateValue := stateValue.(selectedSpan := Some(detail), privateDetail := DetailStateFor(detail));
          }
        case FacetsBody(rows, cursor) => ApplyFacets(rows, cursor, task.page, now);
      }
    }

    /** applyResponse: `thrown` is the error the drain loop catches. */
    method ApplyResponse(task: Task, response: Response, now: int) returns (thrown: Option<Notice>)
      modifies this
      ensures thrown.None? ==> State() == M.ApplyResponse(old(State()), task, response, now)
      ensures thrown.Some? ==> State() == old(State())
      ensures thrown.Some? ==> M.ApplyResponse(old(State()), task, response, now) == M.QueryFailed(old(State()), false, thrown.value)
    {
      hide M.ApplyStatus, M.ApplyBody, M.QueryFailed;
      match response {
        case StatusResponse(status) =>
          ApplyStatus(task, status, now);
          return None;
        case DataResponse(snapshot, coldExcluded, body) =>
          if BodyPurpose(body) != task.purpose { return Some(UnexpectedKind); }
          if task.request.snapshotId.Some? && snapshot.id != task.request.snapshotId.value { return Some(SnapshotChanged); }
          stateValue := stateValue.(snapshot := Some(snapshot), coldExcluded := Some(coldExcluded),
                                    availability := AvailabilityOf(snapshot),
                                    reason := if coldExcluded then Some(ColdExcluded) else None);
          ApplyBody(task, body, now);
          return None;
      }
    }

    /** The drain loop from its `await` on. */
    method TransportSettles(outcome: Outcome, now: int)
      modifies this
      ensures State() == Step(old(State()), Tick(now, M.TransportSettles(outcome)))
    {
      hide M.ApplyOutcome, M.DrainLoop;
      if inFlight.None? { return; }
      var flight := inFlight.value;
      inFlight := None;
      controller := controller && flight.aborted;
      ApplyOutcome(flight, outcome, now);
      DrainLoop(now);
    }

    method ApplyOutcome(flight: Flight, outcome: Outcome, now: int)
      modifies this
      ensures State() == M.ApplyOutcome(old(State()), flight, outcome, now)
    {
      hide M.ApplyResponse, M.QueryFailed;
      if flight.task.revision != revision { return; }
      match outcome {
        case Resolved(response) =>
          var thrown := ApplyResponse(flight.task, response, now);
          if thrown.Some? { QueryFailed(false, thrown.value); }
        case Rejected(isAbort, overCapacity, message) =>
          if !(isAbort && flight.aborted) { QueryFailed(overCapacity, Reported(message)); }
      }
    }

    /** loadPrivateDetail from its `await` on. */
    method DetailSettles(index: nat, outcome: DetailOutcome, now: int)
      modifies this
      ensures State() == Step(old(State()), Tick(now, M.DetailSettles(index, outcome)))
    {
      if index >= |privateDetailCalls| { return; }
      var call := privateDetailCalls[index];
      privateDetailCalls := privateDetailCalls[..index] + privateDetailCalls[index + 1..];
      if call.revision != privateDetailRevision { return; }
      var selected := if stateValue.selectedSpan.Some? then stateValue.selectedSpan.value.turnId else None;
      match DetailResult(call.turnId, outcome) {
        case DetailResolved(detail) =>
          if selected == Some(call.turnId) { stateValue := stateValue.(privateDetail := DetailLoaded(detail)); }
        case DetailAbsent(why) =>
          if selected == Some(call.turnId) { stateValue := stateValue.(privateDetail := DetailMissing(why)); }
        case DetailRejected(isAbort, error) =>
          if !isAbort { stateValue := stateValue.(privateDetail := DetailMissing(error)); }
      }
    }
  }

  lemma FirstReadyIsUnique(q: seq<Task>, now: int, i: nat)
    requires i < |q| && q[i].readyAt <= now
    requires forall k :: 0 <= k < i ==> q[k].readyAt > now
    ensures SomeReady(q, now) && FirstReady(q, now) == i
  {
    var before := q[..FirstReady(q, now)];
    assert forall k {:trigger q[k]} :: 0 <= k < |before| ==> before[k] == q[k];
  }
}
