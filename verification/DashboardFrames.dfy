/** Which parts of the paged dashboard client an operation leaves alone. */
module DashboardFrames {
  import opened Common
  import opened DashboardModel
  import opened DashboardInvariants
  import F = Facets
  import N = DashboardFilters

  /** Only tasks were added, and at most the scheduler's own fields moved; while the drain loop runs,
      nothing but the queue did. */
  predicate OnlyQueues(s: Client, r: Client) {
    SameButScheduling(s, r) && (s.draining ==> r == s.(queue := r.queue))
  }

  lemma {:induction false} DrainLoopFrame(s: Client, now: int)
    ensures SameButScheduling(s, DrainLoop(s, now))
    decreases |s.queue|
  {
    if Drainable(s, now) {
      var i := FirstReady(s.queue, now);
      if s.queue[i].revision != s.revision {
        DrainLoopFrame(s.(queue := Without(s.queue, i)), now);
      }
    } else {
      var idle := s.(draining := false);
      assert DrainLoop(s, now) == DrainEnds(s, now);
      assert s.queue != [] ==> DrainEnds(s, now) == ScheduleDrain(idle, now);
    }
  }

  lemma ScheduleDrainFrame(s: Client, now: int)
    ensures OnlyQueues(s, ScheduleDrain(s, now))
  {
    hide DrainLoop;
    DrainLoopFrame(s.(draining := true), now);
  }

  lemma EnqueueFrame(s: Client, t: Task, now: int)
    ensures OnlyQueues(s, Enqueue(s, t, now))
  {
    hide ScheduleDrain;
    ScheduleDrainFrame(s.(queue := s.queue + [t]), now);
  }

  lemma EnqueueBootstrapFrame(s: Client, delay: nat, now: int)
    ensures OnlyQueues(s, EnqueueBootstrap(s, delay, now))
  {
    hide Enqueue;
    EnqueueFrame(s, BootstrapTask(s, now + delay), now);
  }

  lemma EnqueueBoundFrame(s: Client, purpose: Purpose, traceId: Option<string>, spanId: Option<string>,
                          cursor: Option<Cursor>, page: nat, delay: nat, now: int)
    ensures OnlyQueues(s, EnqueueBound(s, purpose, traceId, spanId, cursor, page, delay, now))
  {
    hide Enqueue;
    if s.view.snapshot.Some? {
      EnqueueFrame(s, BoundTask(s, s.view.snapshot.value, purpose, traceId, spanId, cursor, page, now + delay), now);
    }
  }

  lemma EnqueueInitialFrame(s: Client, now: int)
    ensures OnlyQueues(s.(view := s.view.(summary := SummaryPending)), EnqueueInitialQueries(s, now))
  {
    hide EnqueueBound;
    EnqueueBoundFrame(s, Traces, None, None, None, 0, 0, now);
    var t := EnqueueBound(s, Traces, None, None, None, 0, 0, now);
    EnqueueBoundFrame(t, FacetQuery, None, None, None, 0, 0, now);
    var f := EnqueueBound(t, FacetQuery, None, None, None, 0, 0, now);
    EnqueueBoundFrame(f.(view := f.view.(summary := SummaryPending)), SummaryQuery, None, None, None, 0, 0, now);
  }

  // ----- whole operations

  lemma RestartFrame(s: Client, now: int)
    ensures var i := Invalidate(s);
            OnlyQueues(
              i.(traceCursors := [None], spanCursors := [None], selectedSpanRequestId := None,
                 detailRevision := i.detailRevision + 1, view := InitialView(N.Normalize(s.view.filters))),
              Restart(s, now))
  {
    hide Invalidate, EnqueueBootstrap, N.Normalize;
    var i := ClearPrivateDetail(Invalidate(s).(traceCursors := [None], spanCursors := [None], selectedSpanRequestId := None));
    EnqueueBootstrapFrame(i.(view := InitialView(N.Normalize(s.view.filters))), 0, now);
  }

  function FilteredView(v: View, filters: N.Filters): View {
    v.(filters := N.Normalize(filters), summary := SummaryIdle, traces := EmptyPage(), spans := EmptyPage(), facets := [],
       facetsLimited := false, selectedTraceId := None, selectedSpan := None, privateDetail := DetailIdle,
       availability := if v.snapshot.None? then Loading else AvailabilityOf(v.snapshot.value), reason := None)
  }

  lemma ChangeFiltersFrame(s: Client, filters: N.Filters, now: int)
    ensures var i := Invalidate(s);
            var r := ChangeFilters(s, filters, now);
            OnlyQueues(
              i.(traceCursors := [None], spanCursors := [None], selectedSpanRequestId := None,
                 view := FilteredView(s.view, filters).(
                   summary := if s.view.snapshot.None? then SummaryIdle else SummaryPending)),
              r)
  {
    hide EnqueueBootstrap, EnqueueInitialQueries, N.Normalize;
    var i := Invalidate(s).(traceCursors := [None], spanCursors := [None], selectedSpanRequestId := None);
    var u := i.(view := FilteredView(i.view, filters));
    assert u.view.snapshot == s.view.snapshot;
    EnqueueBootstrapFrame(u, 0, now);
    EnqueueInitialFrame(u, now);
  }

  lemma ChooseTraceFrame(s: Client, traceId: string, now: int)
    requires s.view.snapshot.Some? && IsProjectedId(traceId)
    ensures var r := ChooseTrace(s, traceId, now);
            OnlyQueues(
              s.(spanCursors := [None], selectedSpanRequestId := None, detailRevision := s.detailRevision + 1,
                 view := s.view.(privateDetail := DetailIdle, selectedTraceId := Some(traceId), selectedSpan := None,
                                 spans := EmptyPage(), availability := AvailabilityOf(s.view.snapshot.value), reason := None)),
              r)
  {
    hide EnqueueBound;
    var c := ClearPrivateDetail(s.(spanCursors := [None], selectedSpanRequestId := None));
    EnqueueBoundFrame(
      c.(view := c.view.(selectedTraceId := Some(traceId), selectedSpan := None, spans := EmptyPage(),
                         availability := AvailabilityOf(s.view.snapshot.value), reason := None)),
      Spans, Some(traceId), None, None, 0, 0, now);
  }

  lemma ChooseSpanFrame(s: Client, spanId: string, now: int)
    requires s.view.selectedTraceId.Some? && IsProjectedId(spanId)
    ensures OnlyQueues(
              s.(selectedSpanRequestId := Some(spanId), detailRevision := s.detailRevision + 1,
                 view := s.view.(privateDetail := DetailIdle)),
              ChooseSpan(s, spanId, now))
  {
    hide EnqueueBound;
    EnqueueBoundFrame(ClearPrivateDetail(s).(selectedSpanRequestId := Some(spanId)), SpanQuery, s.view.selectedTraceId,
                      Some(spanId), None, 0, 0, now);
  }

  lemma TraceNavigationFrame(s: Client, now: int)
    ensures OnlyQueues(s.(traceCursors := TracesForward(s, now).traceCursors), TracesForward(s, now))
    ensures OnlyQueues(s.(traceCursors := TracesBack(s, now).traceCursors), TracesBack(s, now))
    ensures TracesForward(s, now).traceCursors
            == (if s.view.traces.nextCursor.Some? then Push(s.traceCursors, s.view.traces.nextCursor.value) else s.traceCursors)
    ensures TracesBack(s, now).traceCursors
            == (if |s.traceCursors| <= 1 then s.traceCursors else s.traceCursors[..|s.traceCursors| - 1])
  {
    hide EnqueueBound, Push;
    var c := s.view.traces.nextCursor;
    if c.Some? {
      EnqueueBoundFrame(s.(traceCursors := Push(s.traceCursors, c.value)), Traces, None, None, c, s.view.traces.page + 1, 0, now);
    }
    if |s.traceCursors| > 1 {
      var p := s.(traceCursors := s.traceCursors[..|s.traceCursors| - 1]);
      EnqueueBoundFrame(p, Traces, None, None, Last(p.traceCursors), PageBefore(s.view.traces.page), 0, now);
    }
  }

  lemma SpanNavigationFrame(s: Client, now: int)
    ensures OnlyQueues(s.(spanCursors := SpansForward(s, now).spanCursors), SpansForward(s, now))
    ensures OnlyQueues(s.(spanCursors := SpansBack(s, now).spanCursors), SpansBack(s, now))
    ensures SpansForward(s, now).spanCursors
            == (if s.view.spans.nextCursor.Some? && s.view.selectedTraceId.Some?
                then Push(s.spanCursors, s.view.spans.nextCursor.value) else s.spanCursors)
    ensures SpansBack(s, now).spanCursors
            == (if s.view.selectedTraceId.None? || |s.spanCursors| <= 1 then s.spanCursors
                else s.spanCursors[..|s.spanCursors| - 1])
  {
    hide EnqueueBound, Push;
    var trace, c := s.view.selectedTraceId, s.view.spans.nextCursor;
    if trace.Some? && c.Some? {
      EnqueueBoundFrame(s.(spanCursors := Push(s.spanCursors, c.value)), Spans, trace, None, c, s.view.spans.page + 1, 0, now);
    }
    if trace.Some? && |s.spanCursors| > 1 {
      var p := s.(spanCursors := s.spanCursors[..|s.spanCursors| - 1]);
      EnqueueBoundFrame(p, Spans, trace, None, Last(p.spanCursors), PageBefore(s.view.spans.page), 0, now);
    }
  }

  lemma ApplyStatusFrame(s: Client, task: Task, r: Reason, now: int)
    requires s.draining
    ensures var a := ApplyStatus(s, task, r, now);
            && a == s.(queue := a.queue, view := a.view, detailRevision := a.detailRevision)
            && a.detailRevision >= s.detailRevision
  {
    hide Enqueue, EnqueueBootstrap;
    var v := s.view.(availability := if r.Busy? then s.view.availability else Building, reason := Some(Status(r)));
    EnqueueFrame(s.(view := v), task.(readyAt := now + s.backoff), now);
    var c := ClearPrivateDetail(s);
    EnqueueBootstrapFrame(
      c.(view := InitialView(c.view.filters).(availability := RefreshPending, reason := Some(Status(r))), queue := []),
      s.backoff, now);
  }

  lemma ApplyBodyFrame(s: Client, task: Task, body: Body, now: int)
    requires s.draining
    ensures var a := ApplyBody(s, task, body, now); a == s.(queue := a.queue, view := a.view)
  {
    hide EnqueueBound, EnqueueInitialQueries;
    match body {
      case BootstrapBody(limit) => EnqueueInitialFrame(s.(view := s.view.(facetLimit := Some(limit))), now);
      case TracesBody(rows, p) =>
      case SpansBody(rows, p) =>
      case SummaryBody(kpis, cursor) =>
        EnqueueBoundFrame(s.(view := s.view.(summary := SummaryPending)), SummaryQuery, None, None, cursor, 0, SmallBackoff(s), now);
      case SpanBody(detail) =>
      case FacetsBody(rows, cursor) =>
        var list := F.Apply(F.FacetList(s.view.facets, s.view.facetsLimited), rows, FacetLimit(s.view));
        EnqueueBoundFrame(s.(view := s.view.(facets := list.rows, facetsLimited := list.limited)),
                          FacetQuery, None, None, cursor, task.page + 1, SmallBackoff(s), now);
    }
  }

  /** While an answer is applied only the queue, the view and the detail revision move. */
  lemma ApplyResponseFrame(s: Client, task: Task, r: Response, now: int)
    requires s.draining
    ensures var a := ApplyResponse(s, task, r, now);
            && a == s.(queue := a.queue, view := a.view, detailRevision := a.detailRevision)
            && a.detailRevision >= s.detailRevision
  {
    hide ApplyStatus, ApplyBody;
    match r {
      case StatusResponse(status) => ApplyStatusFrame(s, task, status, now);
      case DataResponse(snapshot, coldExcluded, body) =>
        var v := s.view.(snapshot := Some(snapshot), coldExcluded := Some(coldExcluded),
                         availability := AvailabilityOf(snapshot),
                         reason := if coldExcluded then Some(ColdExcluded) else None);
        ApplyBodyFrame(s.(view := v), task, body, now);
    }
  }

  lemma QuerySettlesFrame(s: Client, outcome: Outcome, now: int)
    requires s.draining
    ensures var r := QuerySettles(s, outcome, now);
            && r.revision == s.revision && r.detailRevision >= s.detailRevision
            && r.traceCursors == s.traceCursors && r.spanCursors == s.spanCursors
            && r.selectedSpanRequestId == s.selectedSpanRequestId && r.detailCalls == s.detailCalls
  {
    hide ApplyOutcome, DrainLoop;
    if s.flight.Some? {
      var flight := s.flight.value;
      var landed := s.(flight := None, controller := s.controller && flight.aborted);
      ApplyOutcomeFrame(landed, flight, outcome, now);
      DrainLoopFrame(ApplyOutcome(landed, flight, outcome, now), now);
    }
  }

  lemma ApplyOutcomeFrame(s: Client, flight: Flight, outcome: Outcome, now: int)
    requires s.draining
    ensures var a := ApplyOutcome(s, flight, outcome, now);
            && a == s.(queue := a.queue, view := a.view, detailRevision := a.detailRevision)
            && a.detailRevision >= s.detailRevision
  {
    hide ApplyResponse;
    if outcome.Resolved? { ApplyResponseFrame(s, flight.task, outcome.response, now); }
  }

  lemma PrivateDetailFrame(s: Client, call: DetailCall, outcome: DetailOutcome)
    ensures var r := PrivateDetailSettles(s, call, outcome);
            r == s.(view := s.view.(privateDetail := r.view.privateDetail))
  {
    hide PrivateDetailSettles;
    OnlyDetailMoves(s, call, outcome);
  }

  lemma StartPrivateDetailFrame(s: Client)
    ensures var r := StartPrivateDetail(s);
            && r == s.(view := s.view.(privateDetail := r.view.privateDetail), detailCalls := r.detailCalls,
                       detailRevision := r.detailRevision)
            && r.detailRevision >= s.detailRevision
  {
    hide PrivateDetailEligible;
  }

  lemma NoSelection(s: Client, id: string, now: int)
    ensures s.view.snapshot.None? || !IsProjectedId(id) ==> ChooseTrace(s, id, now) == s
    ensures s.view.selectedTraceId.None? || !IsProjectedId(id) ==> ChooseSpan(s, id, now) == s
  {
  }

  // ----- what a step does to what is shown

  predicate Supersedes(e: Event) {
    e.Start? || e.Refresh? || e.SetFilters? || e.Dispose?
  }

  predicate Navigates(e: Event) {
    e.SelectTrace? || e.SelectSpan? || e.NextTraces? || e.PreviousTraces? || e.NextSpans? || e.PreviousSpans?
  }

  /** The contents on display, the selection, and the page history. */
  datatype Shown = Shown(
    filters: N.Filters,
    snapshotId: Option<string>,
    traceRows: seq<TraceRow>,
    kpis: Option<string>,
    facets: seq<F.FacetRow>,
    rows: seq<SpanRow>,
    traceId: Option<string>,
    span: Option<SpanDetail>,
    requested: Option<string>,
    traceCursors: seq<Option<Cursor>>,
    spanCursors: seq<Option<Cursor>>)

  function KpisOf(summary: Summary): Option<string> {
    if summary.SummaryComplete? then Some(summary.kpis) else None
  }

  function ShownOf(s: Client): Shown {
    Shown(s.view.filters, PresentOf(s).snapshotId, s.view.traces.rows, KpisOf(s.view.summary), s.view.facets, s.view.spans.rows,
          s.view.selectedTraceId, s.view.selectedSpan, s.selectedSpanRequestId, s.traceCursors, s.spanCursors)
  }

  function Blank(filters: N.Filters, snapshotId: Option<string>): Shown {
    Shown(filters, snapshotId, [], None, [], [], None, None, None, [None], [None])
  }

  /** What start, refresh, setFilters and dispose leave on display. */
  function AfterSuperseding(s: Client, e: Event): Shown {
    match e
    case SetFilters(filters) => Blank(N.Normalize(filters), PresentOf(s).snapshotId)
    case Dispose => ShownOf(s)
    case _ => Blank(N.Normalize(s.view.filters), None)
  }

  /** What the clicks on traces, spans and pages change. */
  function AfterClick(s: Client, e: Event): Shown {
    var o := ShownOf(s);
    match e
    case SelectTrace(id) =>
      if s.view.snapshot.Some? && IsProjectedId(id)
      then o.(rows := [], traceId := Some(id), span := None, requested := None, spanCursors := [None]) else o
    case SelectSpan(id) => if o.traceId.Some? && IsProjectedId(id) then o.(requested := Some(id)) else o
    case NextTraces =>
      if s.view.traces.nextCursor.Some? then o.(traceCursors := Push(o.traceCursors, s.view.traces.nextCursor.value)) else o
    case PreviousTraces => if |o.traceCursors| > 1 then o.(traceCursors := o.traceCursors[..|o.traceCursors| - 1]) else o
    case NextSpans =>
      if s.view.spans.nextCursor.Some? && o.traceId.Some?
      then o.(spanCursors := Push(o.spanCursors, s.view.spans.nextCursor.value)) else o
    case PreviousSpans =>
      if o.traceId.Some? && |o.spanCursors| > 1 then o.(spanCursors := o.spanCursors[..|o.spanCursors| - 1]) else o
    case ClearSelectedDetail => o.(span := None, requested := None)
    case _ => o
  }

  lemma SelectionShows(s: Client, tick: Tick)
    requires tick.event.SelectTrace? || tick.event.SelectSpan?
    ensures var r := Step(s, tick);
            ShownOf(r) == AfterClick(s, tick.event) && (s.draining ==> r.flight == s.flight)
  {
    hide ChooseTrace, ChooseSpan, IsProjectedId;
    if tick.event.SelectTrace? {
      var id := tick.event.traceId;
      if s.view.snapshot.Some? && IsProjectedId(id) { ChooseTraceFrame(s, id, tick.now); } else { NoSelection(s, id, tick.now); }
    } else {
      var id := tick.event.spanId;
      if s.view.selectedTraceId.Some? && IsProjectedId(id) { ChooseSpanFrame(s, id, tick.now); } else { NoSelection(s, id, tick.now); }
    }
  }

  lemma TracePagesShow(s: Client, tick: Tick)
    requires tick.event.NextTraces? || tick.event.PreviousTraces?
    ensures var r := Step(s, tick);
            ShownOf(r) == AfterClick(s, tick.event) && (s.draining ==> r.flight == s.flight)
  {
    hide TracesForward, TracesBack, Push;
    TraceNavigationFrame(s, tick.now);
  }

  lemma SpanPagesShow(s: Client, tick: Tick)
    requires tick.event.NextSpans? || tick.event.PreviousSpans?
    ensures var r := Step(s, tick);
            ShownOf(r) == AfterClick(s, tick.event) && (s.draining ==> r.flight == s.flight)
  {
    hide SpansForward, SpansBack, Push;
    SpanNavigationFrame(s, tick.now);
  }

  lemma DetailEventsShow(s: Client, tick: Tick)
    requires tick.event.LoadPrivateDetail? || tick.event.DetailSettles?
    ensures var r := Step(s, tick);
            ShownOf(r) == ShownOf(s) && r.flight == s.flight
  {
    hide PrivateDetailSettles, StartPrivateDetail, Without;
    if tick.event.LoadPrivateDetail? {
      StartPrivateDetailFrame(s);
    } else if tick.event.call < |s.detailCalls| {
      PrivateDetailFrame(s.(detailCalls := Without(s.detailCalls, tick.event.call)), s.detailCalls[tick.event.call],
                         tick.event.detailOutcome);
    }
  }

  lemma WakeUpsShow(s: Client, tick: Tick)
    requires tick.event.Show? || tick.event.TimerFires?
    ensures var r := Step(s, tick);
            ShownOf(r) == ShownOf(s) && (s.draining ==> r.flight == s.flight)
  {
    hide ScheduleDrain;
    ScheduleDrainFrame(s.(hidden := false), tick.now);
    ScheduleDrainFrame(s.(wake := None), tick.now);
  }

  lemma RestShows(s: Client, tick: Tick)
    requires tick.event.ClearSelectedDetail? || tick.event.Settled? || tick.event.Hide?
    ensures var r := Step(s, tick);
            ShownOf(r) == AfterClick(s, tick.event) && r.flight == s.flight
  {
  }

  lemma SupersedingShows(s: Client, tick: Tick)
    requires Supersedes(tick.event)
    ensures var r := Step(s, tick);
            && ShownOf(r) == AfterSuperseding(s, tick.event)
            && (s.draining && s.controller && s.flight.Some? ==> r.flight == Some(s.flight.value.(aborted := true)))
            && (s.draining && !s.controller ==> r.flight == s.flight)
  {
    hide Restart, ChangeFilters, N.Normalize;
    if tick.event.SetFilters? {
      ChangeFiltersFrame(s, tick.event.filters, tick.now);
    } else if tick.event.Dispose? {
      DisposeShows(s, tick);
    } else {
      RestartFrame(s, tick.now);
    }
  }

  lemma DisposeShows(s: Client, tick: Tick)
    requires tick.event.Dispose?
    ensures var r := Step(s, tick);
            && ShownOf(r) == ShownOf(s)
            && (s.draining && s.controller && s.flight.Some? ==> r.flight == Some(s.flight.value.(aborted := true)))
            && (s.draining && !s.controller ==> r.flight == s.flight)
  {
  }

  /** Every step except the settling of a query, in one statement. */
  lemma StepShows(s: Client, tick: Tick)
    requires !Supersedes(tick.event) && !tick.event.TransportSettles?
    ensures var r := Step(s, tick);
            ShownOf(r) == AfterClick(s, tick.event) && (s.draining ==> r.flight == s.flight)
  {
    hide Step, ShownOf;
    match tick.event {
      case SelectTrace(_) => SelectionShows(s, tick);
      case SelectSpan(_) => SelectionShows(s, tick);
      case NextTraces => TracePagesShow(s, tick);
      case PreviousTraces => TracePagesShow(s, tick);
      case NextSpans => SpanPagesShow(s, tick);
      case PreviousSpans => SpanPagesShow(s, tick);
      case LoadPrivateDetail => DetailEventsShow(s, tick);
      case DetailSettles(_, _) => DetailEventsShow(s, tick);
      case Show => WakeUpsShow(s, tick);
      case TimerFires => WakeUpsShow(s, tick);
      case _ => RestShows(s, tick);
    }
  }

  // ----- what an answer does to what is shown

  /** `o` is on display when the body of an accepted answer is applied. */
  function AfterBody(autoLoad: bool, limited: bool, limit: nat, o: Shown, task: Task, body: Body): Shown {
    match body
    case BootstrapBody(_) => if autoLoad then o.(kpis := None) else o
    case TracesBody(rows, _) => o.(traceRows := rows)
    case SpansBody(rows, _) => if task.request.traceId == o.traceId then o.(rows := rows) else o
    case SummaryBody(kpis, _) => o.(kpis := kpis)
    case SpanBody(detail) => if task.request.spanId == o.requested then o.(span := Some(detail)) else o
    case FacetsBody(rows, _) =>
      o.(facets := F.Apply(F.FacetList(o.facets, limited), rows, limit).rows)
  }

  function AfterResponse(s: Client, task: Task, r: Response): Shown {
    var o := ShownOf(s);
    match r
    case StatusResponse(status) =>
      if status.RefreshIsPending? || status.SnapshotExpired?
      then Blank(o.filters, None).(requested := o.requested, traceCursors := o.traceCursors, spanCursors := o.spanCursors)
      else o
    case DataResponse(snapshot, _, body) =>
      if BodyPurpose(body) != task.purpose
        || (task.request.snapshotId.Some? && snapshot.id != task.request.snapshotId.value)
      then o
      else AfterBody(s.autoLoad, s.view.facetsLimited, FacetLimit(s.view), o.(snapshotId := Some(snapshot.id)), task, body)
  }

  /** Only a current query that resolves changes what is shown. */
  function AfterAnswer(s: Client, outcome: Outcome): Shown {
    if Live(s) && outcome.Resolved? then AfterResponse(s, s.flight.value.task, outcome.response) else ShownOf(s)
  }

  lemma ApplyBodyShows(s: Client, task: Task, body: Body, now: int)
    requires s.draining
    ensures ShownOf(ApplyBody(s, task, body, now))
            == AfterBody(s.autoLoad, s.view.facetsLimited, FacetLimit(s.view), ShownOf(s), task, body)
  {
    hide EnqueueBound, EnqueueInitialQueries, F.Apply, ApplyFacets;
    match body {
      case BootstrapBody(limit) => EnqueueInitialFrame(s.(view := s.view.(facetLimit := Some(limit))), now);
      case SummaryBody(kpis, cursor) =>
        EnqueueBoundFrame(s.(view := s.view.(summary := SummaryPending)), SummaryQuery, None, None, cursor, 0,
                          SmallBackoff(s), now);
      case FacetsBody(rows, cursor) => FacetsShow(s, rows, cursor, task.page, now);
      case _ => RowsShow(s, task, body, now);
    }
  }

  lemma FacetsShow(s: Client, rows: seq<F.FacetRow>, cursor: Option<Cursor>, page: nat, now: int)
    requires s.draining
    ensures ShownOf(ApplyFacets(s, rows, cursor, page, now))
            == ShownOf(s).(facets := F.Apply(F.FacetList(s.view.facets, s.view.facetsLimited), rows, FacetLimit(s.view)).rows)
  {
    hide EnqueueBound, F.Apply, FacetLimit;
    var list := F.Apply(F.FacetList(s.view.facets, s.view.facetsLimited), rows, FacetLimit(s.view));
    EnqueueBoundFrame(s.(view := s.view.(facets := list.rows, facetsLimited := list.limited)),
                      FacetQuery, None, None, cursor, page + 1, SmallBackoff(s), now);
  }

  lemma RowsShow(s: Client, task: Task, body: Body, now: int)
    requires body.TracesBody? || body.SpansBody? || body.SpanBody?
    ensures ShownOf(ApplyBody(s, task, body, now))
            == AfterBody(s.autoLoad, s.view.facetsLimited, FacetLimit(s.view), ShownOf(s), task, body)
  {
    hide EnqueueBound, EnqueueInitialQueries, F.Apply, ApplySummary, ApplyFacets;
  }

  lemma ApplyStatusShows(s: Client, task: Task, r: Reason, now: int)
    requires s.draining
    ensures ShownOf(ApplyStatus(s, task, r, now)) == AfterResponse(s, task, StatusResponse(r))
  {
    hide Enqueue, EnqueueBootstrap;
    if r.RefreshIsPending? {
      var c := ClearPrivateDetail(s);
      EnqueueBootstrapFrame(
        c.(view := InitialView(c.view.filters).(availability := RefreshPending, reason := Some(Status(r))), queue := []),
        s.backoff, now);
    } else if r.Busy? || r.BuildingSnapshot? {
      var v := s.view.(availability := if r.Busy? then s.view.availability else Building, reason := Some(Status(r)));
      EnqueueFrame(s.(view := v), task.(readyAt := now + s.backoff), now);
    }
  }

  lemma NewSnapshotShows(s: Client, v: View)
    requires v == s.view.(snapshot := v.snapshot, coldExcluded := v.coldExcluded, availability := v.availability, reason := v.reason)
    requires v.snapshot.Some?
    ensures ShownOf(s.(view := v)) == ShownOf(s).(snapshotId := Some(v.snapshot.value.id))
    ensures FacetLimit(v) == FacetLimit(s.view)
  {
  }

  lemma ApplyResponseShows(s: Client, task: Task, r: Response, now: int)
    requires s.draining
    ensures ShownOf(ApplyResponse(s, task, r, now)) == AfterResponse(s, task, r)
  {
    hide ApplyStatus, ApplyBody, AfterBody, ShownOf, FacetLimit, QueryFailed, Blank;
    match r {
      case StatusResponse(status) =>
        hide AfterResponse;
        ApplyStatusShows(s, task, status, now);
      case DataResponse(snapshot, coldExcluded, body) =>
        FailureShows(s, false, UnexpectedKind);
        FailureShows(s, false, SnapshotChanged);
        var v := s.view.(snapshot := Some(snapshot), coldExcluded := Some(coldExcluded),
                         availability := AvailabilityOf(snapshot),
                         reason := if coldExcluded then Some(ColdExcluded) else None);
        NewSnapshotShows(s, v);
        ApplyBodyShows(s.(view := v), task, body, now);
    }
  }

  lemma FailureShows(s: Client, overCapacity: bool, why: Notice)
    ensures ShownOf(QueryFailed(s, overCapacity, why)) == ShownOf(s)
  {
  }

  lemma SchedulingShows(s: Client, r: Client)
    requires SameButScheduling(s, r)
    ensures ShownOf(r) == ShownOf(s)
    ensures forall task, a :: AfterResponse(r, task, a) == AfterResponse(s, task, a)
  {
    hide AfterBody;
  }

  /** What is shown after a query settles, in one statement. */
  lemma SettlingShows(s: Client, outcome: Outcome, now: int)
    requires s.flight.Some? ==> s.draining
    ensures ShownOf(QuerySettles(s, outcome, now)) == AfterAnswer(s, outcome)
  {
    if s.flight.Some? {
      var flight := s.flight.value;
      var landed := s.(flight := None, controller := s.controller && flight.aborted);
      SchedulingShows(s, landed);
      hide ApplyResponse, DrainLoop, AfterResponse, ShownOf, QueryFailed;
      var applied :=
        if flight.task.revision != s.revision then landed
        else match outcome
          case Resolved(r) => ApplyResponse(landed, flight.task, r, now)
          case Rejected(isAbort, overCapacity, message) =>
            if isAbort && flight.aborted then landed else QueryFailed(landed, overCapacity, Reported(message));
      if outcome.Resolved? {
        ApplyResponseShows(landed, flight.task, outcome.response, now);
      } else {
        FailureShows(landed, outcome.overCapacity, Reported(outcome.message));
      }
      DrainLoopFrame(applied, now);
      SchedulingShows(applied, DrainLoop(applied, now));
    }
  }
}
