/** What the paged dashboard client displays: what each answer puts on display, what its availability means, and who
    is left waiting. */
module DashboardDisplay {
  import opened Common
  import opened DashboardModel
  import opened DashboardInvariants
  import Fr = DashboardFrames
  import F = Facets
  import N = DashboardFilters
  import K = DashboardWork

  // ----- what an answer puts on display

  /** Nothing listed and nothing selected, under the same filters. */
  function Emptied(filters: N.Filters, availability: Availability, why: Reason): View {
    View(availability, Some(Status(why)), None, None, None, filters, SummaryIdle, Page([], None, None, 0, false),
         Page([], None, None, 0, false), [], false, None, None, DetailIdle)
  }

  function ViewAfterStatus(v: View, r: Reason): View {
    match r
    case Busy => v.(reason := Some(Status(Busy)))
    case BuildingSnapshot => v.(availability := Building, reason := Some(Status(BuildingSnapshot)))
    case RefreshIsPending => Emptied(v.filters, RefreshPending, r)
    case SnapshotExpired => Emptied(v.filters, Expired, r)
    case OverCapacity => v.(availability := Capacity, reason := Some(Status(OverCapacity)))
    case InvalidQuery => v.(availability := Failed, reason := Some(Status(InvalidQuery)))
  }

  /** What an accepted answer changes beside the snapshot it names. A page can be left backwards as long as the
      history has another one. */
  function ViewAfterBody(v: View, s: Client, task: Task, body: Body): View {
    match body
    case BootstrapBody(limit) =>
      v.(facetLimit := Some(limit), summary := if s.autoLoad then SummaryPending else v.summary)
    case TracesBody(rows, p) => v.(traces := Page(rows, p.total, p.nextCursor, task.page, |s.traceCursors| >= 2))
    case SpansBody(rows, p) =>
      if task.request.traceId == v.selectedTraceId
      then v.(spans := Page(rows, p.total, p.nextCursor, task.page, |s.spanCursors| >= 2)) else v
    case SummaryBody(kpis, _) => v.(summary := if kpis.Some? then SummaryComplete(kpis.value) else SummaryPending)
    case SpanBody(d) =>
      if task.request.spanId == s.selectedSpanRequestId
      then v.(selectedSpan := Some(d),
              privateDetail := if d.turnId.Some? && d.privateLookup then DetailEligible else DetailMissing(NotEligible))
      else v
    case FacetsBody(rows, _) =>
      var limit := if v.facetLimit.Some? then v.facetLimit.value else 500;
      var list := F.Apply(F.FacetList(v.facets, v.facetsLimited), rows, limit);
      v.(facets := list.rows, facetsLimited := list.limited)
  }

  function ViewAfter(s: Client, task: Task, outcome: Outcome): View {
    match outcome
    case Rejected(_, overCapacity, message) =>
      s.view.(availability := if overCapacity then Capacity else Failed, reason := Some(Reported(message)))
    case Resolved(StatusResponse(status)) => ViewAfterStatus(s.view, status)
    case Resolved(DataResponse(snapshot, coldExcluded, body)) =>
      if BodyPurpose(body) != task.purpose then s.view.(availability := Failed, reason := Some(UnexpectedKind))
      else if K.Fails(task, outcome) then s.view.(availability := Failed, reason := Some(SnapshotChanged))
      else
        ViewAfterBody(
          s.view.(snapshot := Some(snapshot), coldExcluded := Some(coldExcluded),
                  availability := if snapshot.stale then Stale else Current,
                  reason := if coldExcluded then Some(ColdExcluded) else None),
          s, task, body)
  }

  lemma StatusShows(s: Client, task: Task, r: Reason, now: int)
    requires s.draining
    ensures ApplyStatus(s, task, r, now).view == ViewAfterStatus(s.view, r)
  {
    hide Enqueue;
    if r.Busy? || r.BuildingSnapshot? {
      var v := s.view.(availability := if r.Busy? then s.view.availability else Building, reason := Some(Status(r)));
      K.EnqueueAppends(s.(view := v), task.(readyAt := now + s.backoff), now);
    } else if r.RefreshIsPending? {
      var c := ClearPrivateDetail(s);
      var u := c.(view := InitialView(c.view.filters).(availability := RefreshPending, reason := Some(Status(r))), queue := []);
      K.EnqueueAppends(u, BootstrapTask(u, now + s.backoff), now);
    }
  }

  lemma BodyShows(s: Client, task: Task, body: Body, now: int)
    requires s.draining && s.view.snapshot.Some?
    ensures ApplyBody(s, task, body, now).view == ViewAfterBody(s.view, s, task, body)
  {
    hide EnqueueBound, EnqueueInitialQueries, F.Apply;
    match body {
      case BootstrapBody(limit) => K.InitialQueriesAppend(s.(view := s.view.(facetLimit := Some(limit))), now);
      case SummaryBody(kpis, cursor) =>
        Fr.EnqueueBoundFrame(s.(view := s.view.(summary := SummaryPending)), SummaryQuery, None, None, cursor, 0,
                             SmallBackoff(s), now);
      case FacetsBody(rows, cursor) =>
        var list := F.Apply(F.FacetList(s.view.facets, s.view.facetsLimited), rows, FacetLimit(s.view));
        Fr.EnqueueBoundFrame(s.(view := s.view.(facets := list.rows, facetsLimited := list.limited)), FacetQuery, None, None,
                             cursor, task.page + 1, SmallBackoff(s), now);
      case _ => hide ApplySummary, ApplyFacets;
    }
  }

  lemma ResponseShows(s: Client, task: Task, r: Response, now: int)
    requires s.draining
    ensures ApplyResponse(s, task, r, now).view == ViewAfter(s, task, Resolved(r))
  {
    hide ApplyStatus, ApplyBody, ViewAfterBody, ViewAfterStatus;
    match r {
      case StatusResponse(status) => StatusShows(s, task, status, now);
      case DataResponse(snapshot, coldExcluded, body) =>
        if !K.Fails(task, Resolved(r)) {
          var v := s.view.(snapshot := Some(snapshot), coldExcluded := Some(coldExcluded),
                           availability := AvailabilityOf(snapshot),
                           reason := if coldExcluded then Some(ColdExcluded) else None);
          BodyShows(s.(view := v), task, body, now);
          SameHistories(s, v, task, body);
        }
    }
  }

  lemma SameHistories(s: Client, v: View, task: Task, body: Body)
    ensures ViewAfterBody(v, s.(view := v), task, body) == ViewAfterBody(v, s, task, body)
  {
    hide F.Apply;
  }

  /** Everything that is on display after a query has settled: of a superseded one nothing, of a current one what its
      outcome says. */
  lemma AnswerIsDisplayed(s: Client, outcome: Outcome, now: int)
    requires Inv(s) && s.flight.Some?
    ensures var t := Step(s, Tick(now, TransportSettles(outcome)));
            t.view == if Live(s) then ViewAfter(s, s.flight.value.task, outcome) else s.view
  {
    K.AbortRaises(s);
    var flight := s.flight.value;
    var landed := s.(flight := None, controller := s.controller && flight.aborted);
    assert Live(s) ==> !flight.aborted by { hide F.WithinLimit, AllBound, BoundTo; }
    var applied := ApplyOutcome(landed, flight, outcome, now);
    hide Inv, ApplyResponse, ViewAfter, DrainLoop;
    Fr.DrainLoopFrame(applied, now);
    if Live(s) {
      if outcome.Resolved? { ResponseShows(landed, flight.task, outcome.response, now); }
      SameView(s, landed, flight.task, outcome);
      RejectionShows(s, flight.task, outcome);
    }
  }

  lemma SameView(s: Client, t: Client, task: Task, outcome: Outcome)
    requires t == s.(flight := t.flight, controller := t.controller)
    ensures ViewAfter(t, task, outcome) == ViewAfter(s, task, outcome)
  {
    hide F.Apply, K.Fails;
  }

  lemma RejectionShows(s: Client, task: Task, outcome: Outcome)
    ensures outcome.Rejected? ==>
              ViewAfter(s, task, outcome) == QueryFailed(s, outcome.overCapacity, Reported(outcome.message)).view
  {
  }

  // ----- what the availability means

  /** What is called current or stale is a snapshot that is, and while the page is loading, waits for a refresh or has
      expired there is none. */
  predicate AvailabilityFits(v: View) {
    match v.availability
    case Current => v.snapshot.Some? && !v.snapshot.value.stale
    case Stale => v.snapshot.Some? && v.snapshot.value.stale
    case Loading => v.snapshot.None?
    case RefreshPending => v.snapshot.None?
    case Expired => v.snapshot.None?
    case _ => true
  }

  lemma AnswersFit(s: Client, task: Task, outcome: Outcome)
    requires AvailabilityFits(s.view)
    ensures AvailabilityFits(ViewAfter(s, task, outcome))
  {
    hide F.Apply, K.Fails;
  }

  lemma SelectionFits(s: Client, tick: Tick)
    requires AvailabilityFits(s.view) && (tick.event.SelectTrace? || tick.event.SelectSpan?)
    ensures AvailabilityFits(Step(s, tick).view)
  {
    hide ChooseTrace, ChooseSpan, IsProjectedId;
    if tick.event.SelectTrace? {
      var id := tick.event.traceId;
      if s.view.snapshot.Some? && IsProjectedId(id) { Fr.ChooseTraceFrame(s, id, tick.now); } else { Fr.NoSelection(s, id, tick.now); }
    } else {
      var id := tick.event.spanId;
      if s.view.selectedTraceId.Some? && IsProjectedId(id) { Fr.ChooseSpanFrame(s, id, tick.now); } else { Fr.NoSelection(s, id, tick.now); }
    }
  }

  lemma PagesFit(s: Client, tick: Tick)
    requires AvailabilityFits(s.view)
    requires tick.event.NextTraces? || tick.event.PreviousTraces? || tick.event.NextSpans? || tick.event.PreviousSpans?
    ensures AvailabilityFits(Step(s, tick).view)
  {
    hide TracesForward, TracesBack, SpansForward, SpansBack, Push;
    Fr.TraceNavigationFrame(s, tick.now);
    Fr.SpanNavigationFrame(s, tick.now);
  }

  lemma SupersedingFits(s: Client, tick: Tick)
    requires AvailabilityFits(s.view) && Fr.Supersedes(tick.event)
    ensures AvailabilityFits(Step(s, tick).view)
  {
    hide Restart, ChangeFilters, N.Normalize;
    if tick.event.SetFilters? {
      hide Step;
      FiltersFit(s, tick);
    } else {
      Fr.RestartFrame(s, tick.now);
    }
  }

  lemma FiltersFit(s: Client, tick: Tick)
    requires AvailabilityFits(s.view) && tick.event.SetFilters?
    ensures AvailabilityFits(Step(s, tick).view)
  {
    hide Restart, ChangeFilters, N.Normalize;
    Fr.ChangeFiltersFrame(s, tick.event.filters, tick.now);
  }

  lemma RestFits(s: Client, tick: Tick)
    requires AvailabilityFits(s.view)
    requires tick.event.Show? || tick.event.TimerFires? || tick.event.ClearSelectedDetail? || tick.event.Settled? || tick.event.Hide?
    ensures AvailabilityFits(Step(s, tick).view)
  {
    hide ScheduleDrain;
    Fr.ScheduleDrainFrame(s.(hidden := false), tick.now);
    Fr.ScheduleDrainFrame(s.(wake := None), tick.now);
  }

  lemma DetailFits(s: Client, tick: Tick)
    requires AvailabilityFits(s.view) && (tick.event.LoadPrivateDetail? || tick.event.DetailSettles?)
    ensures AvailabilityFits(Step(s, tick).view)
  {
    hide PrivateDetailSettles, StartPrivateDetail, Without;
    if tick.event.LoadPrivateDetail? {
      Fr.StartPrivateDetailFrame(s);
    } else if tick.event.call < |s.detailCalls| {
      Fr.PrivateDetailFrame(s.(detailCalls := Without(s.detailCalls, tick.event.call)), s.detailCalls[tick.event.call],
                           tick.event.detailOutcome);
    }
  }

  lemma StepFits(s: Client, tick: Tick)
    requires Inv(s) && AvailabilityFits(s.view)
    ensures AvailabilityFits(Step(s, tick).view)
  {
    hide Inv, AvailabilityFits, ViewAfter;
    if tick.event.TransportSettles? {
      if s.flight.Some? {
        hide Step;
        AnswerIsDisplayed(s, tick.event.outcome, tick.now);
        AnswersFit(s, s.flight.value.task, tick.event.outcome);
      } else {
        hide ApplyOutcome, DrainLoop;
      }
    } else {
      hide Step;
      if Fr.Supersedes(tick.event) { SupersedingFits(s, tick); }
      else if tick.event.SelectTrace? || tick.event.SelectSpan? { SelectionFits(s, tick); }
      else if Fr.Navigates(tick.event) { PagesFit(s, tick); }
      else if tick.event.LoadPrivateDetail? || tick.event.DetailSettles? { DetailFits(s, tick); }
      else { RestFits(s, tick); }
    }
  }

  /** In every state of every run the availability on display is true of the snapshot on display. */
  lemma {:induction false} AvailabilityIsTrue(backoff: nat, autoLoad: bool, detail: bool, hidden: bool, ticks: seq<Tick>)
    ensures AvailabilityFits(Run(InitialClient(backoff, autoLoad, detail, hidden), ticks).view)
  {
    if ticks != [] {
      hide Inv, Step, AvailabilityFits;
      var front := ticks[..|ticks| - 1];
      AvailabilityIsTrue(backoff, autoLoad, detail, hidden, front);
      EveryRunKeepsInvariant(backoff, autoLoad, detail, hidden, front);
      StepFits(Run(InitialClient(backoff, autoLoad, detail, hidden), front), ticks[|ticks| - 1]);
    }
  }
}
