/** Calls for the private detail of a span, and what late answers to them can do. */
module DashboardDetail {
  import opened Common
  import opened DashboardModel
  import opened DashboardInvariants
  import opened DashboardFrames
  import F = Facets
  import N = DashboardFilters
  import K = DashboardWork
  import R = DashboardRequests
  import T = DashboardTheorems
  import W = DashboardForsaken

  // ----- late answers

  /** The calls that the client serves with a request for the detail. */
  predicate AsksForDetail(s: Client, e: Event) {
    && e.LoadPrivateDetail? && s.detailTransport && s.view.selectedSpan.Some?
    && PrivateDetailEligible(s.view.selectedSpan.value) && s.view.selectedSpan.value.turnId.value != ""
  }

  /** The events that clear the detail, or ask for it anew: a selection that is served, the clearing of one, a
      superseding call, a request for the detail, or an answer after which the client starts over. */
  predicate Outdates(s: Client, e: Event) {
    || Supersedes(e) || e.ClearSelectedDetail? || AsksForDetail(s, e) || R.Opens(s, e) || R.Blanks(s, e)
    || (e.SelectTrace? && s.view.snapshot.Some? && IsProjectedId(e.traceId))
  }

  lemma SupersedingOutdates(s: Client, tick: Tick)
    requires Supersedes(tick.event)
    ensures Step(s, tick).detailRevision > s.detailRevision
  {
    hide Restart, ChangeFilters, N.Normalize;
    RestartFrame(s, tick.now);
    if tick.event.SetFilters? { ChangeFiltersFrame(s, tick.event.filters, tick.now); }
  }

  lemma SelectionOutdates(s: Client, tick: Tick)
    requires tick.event.SelectTrace? || tick.event.SelectSpan?
    ensures var r := Step(s, tick).detailRevision;
            if Outdates(s, tick.event) then r > s.detailRevision else r == s.detailRevision
  {
    hide ChooseTrace, ChooseSpan, IsProjectedId;
    if tick.event.SelectTrace? {
      var id := tick.event.traceId;
      if s.view.snapshot.Some? && IsProjectedId(id) { ChooseTraceFrame(s, id, tick.now); } else { NoSelection(s, id, tick.now); }
    } else {
      var id := tick.event.spanId;
      if s.view.selectedTraceId.Some? && IsProjectedId(id) { ChooseSpanFrame(s, id, tick.now); } else { NoSelection(s, id, tick.now); }
    }
  }

  lemma StartingOverOutdates(s: Client, task: Task, outcome: Outcome, now: int)
    requires s.draining && K.StartsOver(outcome)
    ensures ApplyResponse(s, task, outcome.response, now).detailRevision > s.detailRevision
  {
    hide EnqueueBootstrap;
    var r := outcome.response.status;
    var c := ClearPrivateDetail(s);
    EnqueueBootstrapFrame(
      c.(view := InitialView(c.view.filters).(availability := RefreshPending, reason := Some(Status(r))), queue := []),
      s.backoff, now);
  }

  lemma SettlingOutdates(s: Client, outcome: Outcome, now: int)
    requires Inv(s)
    ensures var r := QuerySettles(s, outcome, now).detailRevision;
            if R.Blanks(s, TransportSettles(outcome)) then r > s.detailRevision else r >= s.detailRevision
  {
    T.DrainsWhileAwaiting(s);
    hide Inv, ApplyResponse, DrainLoop;
    if s.flight.Some? {
      QuerySettlesFrame(s, outcome, now);
      if R.Blanks(s, TransportSettles(outcome)) {
        var flight := s.flight.value;
        var landed := s.(flight := None, controller := s.controller && flight.aborted);
        StartingOverOutdates(landed, flight.task, outcome, now);
        DrainLoopFrame(ApplyOutcome(landed, flight, outcome, now), now);
      }
    }
  }

  lemma DetailStepOutdates(s: Client, tick: Tick)
    requires tick.event.LoadPrivateDetail? || tick.event.DetailSettles?
    ensures var r := Step(s, tick).detailRevision;
            if AsksForDetail(s, tick.event) then r > s.detailRevision else r >= s.detailRevision
  {
    hide PrivateDetailSettles, Without;
    if tick.event.DetailSettles? && tick.event.call < |s.detailCalls| {
      PrivateDetailFrame(s.(detailCalls := Without(s.detailCalls, tick.event.call)), s.detailCalls[tick.event.call],
                         tick.event.detailOutcome);
    }
  }

  lemma PagingKeepsRevision(s: Client, tick: Tick)
    requires Navigates(tick.event) && !tick.event.SelectTrace? && !tick.event.SelectSpan?
    ensures Step(s, tick).detailRevision == s.detailRevision
  {
    hide TracesForward, TracesBack, SpansForward, SpansBack, Push;
    TraceNavigationFrame(s, tick.now);
    SpanNavigationFrame(s, tick.now);
  }

  lemma RestingRevision(s: Client, tick: Tick)
    requires tick.event.Show? || tick.event.TimerFires? || tick.event.ClearSelectedDetail? || tick.event.Settled? || tick.event.Hide?
    ensures var r := Step(s, tick).detailRevision;
            if tick.event.ClearSelectedDetail? then r > s.detailRevision else r == s.detailRevision
  {
    hide ScheduleDrain;
    ScheduleDrainFrame(s.(hidden := false), tick.now);
    ScheduleDrainFrame(s.(wake := None), tick.now);
  }

  /** The revision of the private detail never falls, and rises when the detail is cleared or asked for anew. */
  lemma RevisionGrows(s: Client, tick: Tick)
    requires Inv(s)
    ensures var r := Step(s, tick).detailRevision;
            if Outdates(s, tick.event) then r > s.detailRevision else r >= s.detailRevision
  {
    hide Inv, QuerySettles, IsProjectedId;
    if tick.event.TransportSettles? {
      SettlingOutdates(s, tick.event.outcome, tick.now);
    } else {
      hide Step, AsksForDetail, R.Opens;
      if Supersedes(tick.event) { SupersedingOutdates(s, tick); }
      else if tick.event.SelectTrace? || tick.event.SelectSpan? { SelectionOutdates(s, tick); }
      else if Navigates(tick.event) { PagingKeepsRevision(s, tick); }
      else if tick.event.LoadPrivateDetail? || tick.event.DetailSettles? { DetailStepOutdates(s, tick); }
      else { RestingRevision(s, tick); }
      OnlyOneKind(s, tick.event);
    }
  }

  lemma OnlyOneKind(s: Client, e: Event)
    ensures AsksForDetail(s, e) ==> e.LoadPrivateDetail?
    ensures R.Opens(s, e) ==> e.SelectSpan?
  {
  }

  lemma {:induction false} RevisionGrowsOverRuns(s: Client, ticks: seq<Tick>)
    requires Inv(s)
    ensures Inv(Run(s, ticks)) && Run(s, ticks).detailRevision >= s.detailRevision
  {
    if ticks != [] {
      var front, last := ticks[..|ticks| - 1], ticks[|ticks| - 1];
      RevisionGrowsOverRuns(s, front);
      hide Inv, Step, Outdates;
      StepKeepsInvariant(Run(s, front), last);
      RevisionGrows(Run(s, front), last);
    }
  }

  lemma StaleCallSettles(s: Client, now: int, call: nat, outcome: DetailOutcome)
    requires call < |s.detailCalls| && s.detailCalls[call].revision < s.detailRevision
    ensures Step(s, Tick(now, DetailSettles(call, outcome))) == s.(detailCalls := Without(s.detailCalls, call))
  {
  }

  /** Once the detail has been cleared or asked for anew, whatever happens next, an answer to a call made before
      shows nothing: the call is over, nothing else about the client moves, and every continuation of the run
      ends in the same state whatever the answer was. */
  lemma StaleDetailCannotInterfere(s: Client, outdating: Tick, between: seq<Tick>, now: int, call: nat, o1: DetailOutcome,
                                   o2: DetailOutcome, rest: seq<Tick>)
    requires Inv(s) && Outdates(s, outdating.event)
    requires var mid := Run(Step(s, outdating), between); call < |mid.detailCalls| && mid.detailCalls[call] in s.detailCalls
    ensures var mid := Run(Step(s, outdating), between);
            var t1, t2 := Tick(now, DetailSettles(call, o1)), Tick(now, DetailSettles(call, o2));
            && Step(mid, t1) == mid.(detailCalls := Without(mid.detailCalls, call))
            && Run(mid, [t1] + rest) == Run(mid, [t2] + rest)
  {
    DetailPart(s);
    hide Run, Step, Inv, Outdates;
    RevisionGrows(s, outdating);
    StepKeepsInvariant(s, outdating);
    RevisionGrowsOverRuns(Step(s, outdating), between);
    var mid := Run(Step(s, outdating), between);
    StaleCallSettles(mid, now, call, o1);
    StaleCallSettles(mid, now, call, o2);
    T.RestIsShared(mid, Tick(now, DetailSettles(call, o1)), Tick(now, DetailSettles(call, o2)), rest);
  }

  // ----- what a call asks for, and what its answer shows

  function SelectedTurnOf(s: Client): Option<string> {
    if s.view.selectedSpan.None? then None else s.view.selectedSpan.value.turnId
  }

  /** A request for the detail that is served asks for the turn of the span shown, under a revision of its own; one
      that is not served says why. */
  lemma RequestIsForSelectedTurn(s: Client, now: int)
    ensures var t := Step(s, Tick(now, LoadPrivateDetail));
            if AsksForDetail(s, LoadPrivateDetail) then
              && SelectedTurnOf(s).Some?
              && t == s.(detailRevision := s.detailRevision + 1,
                         detailCalls := s.detailCalls + [DetailCall(s.detailRevision + 1, SelectedTurnOf(s).value)],
                         view := s.view.(privateDetail := DetailLoading))
            else
              t == s.(view := s.view.(privateDetail := DetailMissing(
                if SelectedTurnOf(s) == Some("") && s.view.selectedSpan.value.privateLookup && s.detailTransport
                then NoTurnCorrelation else NotEligible)))
  {
  }

  /** What is shown of the detail after an answer to a pending call: only the answer to the current call matters, a
      turn is shown only while it is the one selected, and only if the answer is about it. */
  function DetailAfter(s: Client, call: DetailCall, outcome: DetailOutcome): PrivateDetail {
    var shown := s.view.privateDetail;
    if call.revision != s.detailRevision then shown
    else match outcome
      case DetailResolved(detail) =>
        if detail.turnId != call.turnId then DetailMissing(DetailFailedValidation)
        else if SelectedTurnOf(s) == Some(detail.turnId) then DetailLoaded(detail)
        else shown
      case DetailAbsent(absence) => if SelectedTurnOf(s) == Some(call.turnId) then DetailMissing(absence) else shown
      case DetailRejected(isAbort, error) => if isAbort then shown else DetailMissing(error)
  }

  lemma AnswerShowsItsTurn(s: Client, call: nat, outcome: DetailOutcome, now: int)
    requires call < |s.detailCalls|
    ensures Step(s, Tick(now, DetailSettles(call, outcome)))
            == s.(detailCalls := s.detailCalls[..call] + s.detailCalls[call + 1..],
                  view := s.view.(privateDetail := DetailAfter(s, s.detailCalls[call], outcome)))
  {
  }

  // ----- a detail that is loading

  /** While the detail is loading, the latest call is pending, is current and asked for the selected turn. */
  predicate LoadingIsAnswered(s: Client) {
    s.view.privateDetail.DetailLoading? ==>
      && s.detailCalls != []
      && s.detailCalls[|s.detailCalls| - 1].revision == s.detailRevision
      && SelectedTurn(s) == Some(s.detailCalls[|s.detailCalls| - 1].turnId)
  }

  /** A transport that rejects the current call with an AbortError although nobody raised its signal. */
  predicate StrayAbort(s: Client, e: Event) {
    && e.DetailSettles? && e.call < |s.detailCalls|
    && s.detailCalls[e.call].revision == s.detailRevision
    && e.detailOutcome.DetailRejected? && e.detailOutcome.detailAborted
  }

  /** The detail is not loading afterwards, or nothing about it moved. */
  predicate Calm(s: Client, r: Client) {
    || !r.view.privateDetail.DetailLoading?
    || (r.view.privateDetail == s.view.privateDetail && r.view.selectedSpan == s.view.selectedSpan
        && r.detailRevision == s.detailRevision && r.detailCalls == s.detailCalls)
  }

  lemma SelectionIsCalm(s: Client, tick: Tick)
    requires tick.event.SelectTrace? || tick.event.SelectSpan?
    ensures Calm(s, Step(s, tick))
  {
    hide ChooseTrace, ChooseSpan, IsProjectedId;
    if tick.event.SelectTrace? {
      var id := tick.event.traceId;
      if s.view.snapshot.Some? && IsProjectedId(id) { ChooseTraceFrame(s, id, tick.now); } else { NoSelection(s, id, tick.now); }
    } else {
      var id := tick.event.spanId;
      if s.view.selectedTraceId.Some? && IsProjectedId(id) { ChooseSpanFrame(s, id, tick.now); } else { NoSelection(s, id, tick.now); }
    }
  }

  lemma PagesAreCalm(s: Client, tick: Tick)
    requires tick.event.NextTraces? || tick.event.PreviousTraces? || tick.event.NextSpans? || tick.event.PreviousSpans?
    ensures Calm(s, Step(s, tick))
  {
    hide TracesForward, TracesBack, SpansForward, SpansBack, Push;
    TraceNavigationFrame(s, tick.now);
    SpanNavigationFrame(s, tick.now);
  }

  lemma SupersedingIsCalm(s: Client, tick: Tick)
    requires Supersedes(tick.event)
    ensures Calm(s, Step(s, tick))
  {
    hide Restart, ChangeFilters, N.Normalize;
    RestartFrame(s, tick.now);
    if tick.event.SetFilters? { ChangeFiltersFrame(s, tick.event.filters, tick.now); }
  }

  lemma WakingIsCalm(s: Client, tick: Tick)
    requires tick.event.Show? || tick.event.TimerFires? || tick.event.ClearSelectedDetail? || tick.event.Settled? || tick.event.Hide?
    ensures Calm(s, Step(s, tick))
  {
    hide ScheduleDrain;
    ScheduleDrainFrame(s.(hidden := false), tick.now);
    ScheduleDrainFrame(s.(wake := None), tick.now);
  }

  lemma ApplyBodyIsCalm(s: Client, task: Task, body: Body, now: int)
    requires s.draining
    ensures Calm(s, ApplyBody(s, task, body, now))
  {
    hide EnqueueBound, EnqueueInitialQueries, F.Apply;
    match body {
      case BootstrapBody(limit) => EnqueueInitialFrame(s.(view := s.view.(facetLimit := Some(limit))), now);
      case TracesBody(rows, p) =>
      case SpansBody(rows, p) =>
      case SummaryBody(kpis, cursor) =>
        EnqueueBoundFrame(s.(view := s.view.(summary := SummaryPending)), SummaryQuery, None, None, cursor, 0, SmallBackoff(s), now);
      case SpanBody(detail) =>
      case FacetsBody(rows, cursor) =>
        var list := F.Apply(F.FacetList(s.view.facets, s.view.facetsLimited), rows, FacetLimit(s.view));
        EnqueueBoundFrame(s.(view := s.view.(facets := list.rows, facetsLimited := list.limited)),
                          FacetQuery, None, None, cursor, task.page + 1, SmallBackoff(s), now);
    }
  }

  lemma ApplyStatusIsCalm(s: Client, task: Task, r: Reason, now: int)
    requires s.draining
    ensures Calm(s, ApplyStatus(s, task, r, now))
  {
    hide Enqueue, EnqueueBootstrap;
    var v := s.view.(availability := if r.Busy? then s.view.availability else Building, reason := Some(Status(r)));
    EnqueueFrame(s.(view := v), task.(readyAt := now + s.backoff), now);
    var c := ClearPrivateDetail(s);
    EnqueueBootstrapFrame(
      c.(view := InitialView(c.view.filters).(availability := RefreshPending, reason := Some(Status(r))), queue := []),
      s.backoff, now);
  }

  lemma ApplyResponseIsCalm(s: Client, task: Task, r: Response, now: int)
    requires s.draining
    ensures Calm(s, ApplyResponse(s, task, r, now))
  {
    hide ApplyStatus, ApplyBody, Calm, QueryFailed;
    match r {
      case StatusResponse(status) => ApplyStatusIsCalm(s, task, status, now);
      case DataResponse(snapshot, coldExcluded, body) =>
        FailureIsCalm(s, UnexpectedKind);
        FailureIsCalm(s, SnapshotChanged);
        var v := s.view.(snapshot := Some(snapshot), coldExcluded := Some(coldExcluded),
                         availability := AvailabilityOf(snapshot),
                         reason := if coldExcluded then Some(ColdExcluded) else None);
        ApplyBodyIsCalm(s.(view := v), task, body, now);
        SnapshotIsCalm(s, v, ApplyBody(s.(view := v), task, body, now));
    }
  }

  lemma FailureIsCalm(s: Client, why: Notice)
    ensures Calm(s, QueryFailed(s, false, why))
  {
  }

  lemma SnapshotIsCalm(s: Client, v: View, r: Client)
    requires v == s.view.(snapshot := v.snapshot, coldExcluded := v.coldExcluded, availability := v.availability, reason := v.reason)
    requires Calm(s.(view := v), r)
    ensures Calm(s, r)
  {
  }

  lemma SettlingIsCalm(s: Client, outcome: Outcome, now: int)
    requires s.draining
    ensures Calm(s, QuerySettles(s, outcome, now))
  {
    hide ApplyResponse, DrainLoop;
    if s.flight.Some? {
      var flight := s.flight.value;
      var landed := s.(flight := None, controller := s.controller && flight.aborted);
      var applied :=
        if flight.task.revision != s.revision then landed
        else match outcome
          case Resolved(r) => ApplyResponse(landed, flight.task, r, now)
          case Rejected(isAbort, overCapacity, message) =>
            if isAbort && flight.aborted then landed else QueryFailed(landed, overCapacity, Reported(message));
      if outcome.Resolved? { ApplyResponseIsCalm(landed, flight.task, outcome.response, now); }
      DrainLoopFrame(applied, now);
    }
  }

  lemma CalmKeepsAnswered(s: Client, r: Client)
    requires LoadingIsAnswered(s) && Calm(s, r)
    ensures LoadingIsAnswered(r)
  {
  }

  lemma OlderCallSettles(s: Client, call: nat, outcome: DetailOutcome)
    requires DetailCalls(s.detailCalls, s.detailRevision) && LoadingIsAnswered(s) && call < |s.detailCalls| - 1
    ensures LoadingIsAnswered(PrivateDetailSettles(s.(detailCalls := Without(s.detailCalls, call)), s.detailCalls[call], outcome))
  {
    var rest := Without(s.detailCalls, call);
    assert rest[|rest| - 1] == s.detailCalls[|s.detailCalls| - 1];
    hide Without, DetailResult;
  }

  lemma LatestCallSettles(s: Client, outcome: DetailOutcome)
    requires DetailCalls(s.detailCalls, s.detailRevision) && LoadingIsAnswered(s)
    requires s.detailCalls != [] && s.view.privateDetail.DetailLoading?
    ensures var last := |s.detailCalls| - 1;
            var r := PrivateDetailSettles(s.(detailCalls := Without(s.detailCalls, last)), s.detailCalls[last], outcome);
            LoadingIsAnswered(r) <==> !(outcome.DetailRejected? && outcome.detailAborted)
  {
    var rest := Without(s.detailCalls, |s.detailCalls| - 1);
    assert rest == s.detailCalls[..|s.detailCalls| - 1];
    assert rest != [] ==> rest[|rest| - 1].revision < s.detailRevision;
    hide Without;
  }

  lemma IdleCallSettles(s: Client, call: nat, outcome: DetailOutcome)
    requires call < |s.detailCalls| && !s.view.privateDetail.DetailLoading?
    ensures LoadingIsAnswered(PrivateDetailSettles(s.(detailCalls := Without(s.detailCalls, call)), s.detailCalls[call], outcome))
  {
    hide Without;
  }

  lemma CallSettling(s: Client, call: nat, outcome: DetailOutcome)
    requires DetailCalls(s.detailCalls, s.detailRevision) && LoadingIsAnswered(s) && call < |s.detailCalls|
    ensures var r := PrivateDetailSettles(s.(detailCalls := Without(s.detailCalls, call)), s.detailCalls[call], outcome);
            LoadingIsAnswered(r) <==> !(s.view.privateDetail.DetailLoading? && StrayAbort(s, DetailSettles(call, outcome)))
  {
    hide PrivateDetailSettles, Without;
    if !s.view.privateDetail.DetailLoading? {
      IdleCallSettles(s, call, outcome);
    } else if call < |s.detailCalls| - 1 {
      OlderCallSettles(s, call, outcome);
    } else {
      LatestCallSettles(s, outcome);
    }
  }

  lemma LoadingStarts(s: Client)
    requires LoadingIsAnswered(s)
    ensures LoadingIsAnswered(StartPrivateDetail(s))
  {
  }

  /** The shown "loading" never goes stale: a step loses the answer to it exactly when the transport rejects
      the current call with an abort that the client did not ask for. */
  lemma LoadingIsLostIff(s: Client, tick: Tick)
    requires Inv(s) && LoadingIsAnswered(s)
    ensures LoadingIsAnswered(Step(s, tick)) <==>
            !(s.view.privateDetail.DetailLoading? && StrayAbort(s, tick.event))
  {
    DetailPart(s);
    T.DrainsWhileAwaiting(s);
    match tick.event {
      case LoadPrivateDetail => hide StartPrivateDetail; LoadingStarts(s);
      case DetailSettles(call, outcome) =>
        hide PrivateDetailSettles, Inv, LoadingIsAnswered;
        if call < |s.detailCalls| { CallSettling(s, call, outcome); }
      case TransportSettles(outcome) =>
        hide QuerySettles, Inv, LoadingIsAnswered;
        if s.draining { SettlingIsCalm(s, outcome, tick.now); CalmKeepsAnswered(s, QuerySettles(s, outcome, tick.now)); }
        else { T.NothingLands(s, outcome, tick.now); }
      case _ =>
        hide Step, Inv, LoadingIsAnswered, Calm;
        if Supersedes(tick.event) { SupersedingIsCalm(s, tick); }
        else if tick.event.SelectTrace? || tick.event.SelectSpan? { SelectionIsCalm(s, tick); }
        else if Navigates(tick.event) { PagesAreCalm(s, tick); }
        else { WakingIsCalm(s, tick); }
        CalmKeepsAnswered(s, Step(s, tick));
    }
  }

  lemma StrayAbortStrandsLoading(s: Client, now: int, later: int, why: Notice)
    requires AsksForDetail(s, LoadPrivateDetail)
    ensures var t := Step(Step(s, Tick(now, LoadPrivateDetail)), Tick(later, DetailSettles(|s.detailCalls|, DetailRejected(true, why))));
            t.view.privateDetail.DetailLoading? && t.detailCalls == s.detailCalls
  {
    var call := DetailCall(s.detailRevision + 1, s.view.selectedSpan.value.turnId.value);
    assert Without(s.detailCalls + [call], |s.detailCalls|) == s.detailCalls;
  }

  /** A run of the client that ends at rest with a detail loading that no call will ever answer: a span is
      opened, its detail is asked for, and the transport rejects the call with an abort. */
  lemma LoadingCanBeLost()
    ensures exists ticks: seq<Tick> :: var s := Run(InitialClient(250, false, true, false), ticks);
              s.view.privateDetail.DetailLoading? && s.detailCalls == [] && !LoadingIsAnswered(s)
  {
    W.ProjectedIdIsProjected('0');
    W.ProjectedIdIsProjected('1');
    var trace, span := W.ProjectedId('0'), W.ProjectedId('1');
    assert |trace| == 74;
    hide Step, Run, IsProjectedId, W.ProjectedId, W.Idle;
    var s0 := InitialClient(250, false, true, false);
    W.InitiallyIdle(s0);
    var shown := W.OnlySpanIsOpened(s0, SpanDetail(trace, span, Some(trace), true));
    var load, abort := Tick(6, LoadPrivateDetail), Tick(7, DetailSettles(0, DetailRejected(true, Unavailable([]))));
    StrayAbortStrandsLoading(Run(s0, shown), 6, 7, Unavailable([]));
    RunConcat(s0, shown, [load, abort]);
    RunOfTwo(Run(s0, shown), load, abort);
    assert Run(s0, shown + [load, abort]).detailCalls == [];
  }

  lemma RunOfTwo(s: Client, a: Tick, b: Tick)
    ensures Run(s, [a, b]) == Step(Step(s, a), b)
  {
    hide Step;
    assert [a, b][..1] == [a] && [a][..0] == [];
    assert Run(s, [a]) == Step(Run(s, []), a);
  }
}
