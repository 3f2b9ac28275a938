/** When a promise of settled() is never kept (ui/report/paged-client.ts, settled, drain, dispose). */
module DashboardWaiting {
  import opened Common
  import opened DashboardModel
  import opened DashboardInvariants
  import Fr = DashboardFrames
  import N = DashboardFilters
  import T = DashboardTheorems

  /** Somebody waits, nothing runs and nothing is queued: only new work could end the wait. */
  predicate Abandoned(s: Client) {
    s.waiters > 0 && !s.draining && s.queue == []
  }

  lemma {:induction false} DrainLoopNeverAbandons(s: Client, now: int)
    requires s.draining
    ensures !Abandoned(DrainLoop(s, now))
    decreases |s.queue|
  {
    if Drainable(s, now) {
      var i := FirstReady(s.queue, now);
      if s.queue[i].revision != s.revision {
        DrainLoopNeverAbandons(s.(queue := Without(s.queue, i)), now);
      }
    } else {
      assert DrainLoop(s, now) == DrainEnds(s, now);
      assert s.queue != [] ==> DrainEnds(s, now) == ScheduleDrain(s.(draining := false), now);
    }
  }

  lemma ScheduleDrainNeverAbandons(s: Client, now: int)
    requires !Abandoned(s)
    ensures !Abandoned(ScheduleDrain(s, now))
  {
    hide DrainLoop;
    DrainLoopNeverAbandons(s.(draining := true), now);
  }

  lemma EnqueueNeverAbandons(s: Client, now: int)
    ensures forall t :: !Abandoned(Enqueue(s, t, now))
    ensures forall p, trace, span, cursor, page, delay ::
              !Abandoned(s) || s.view.snapshot.Some? ==> !Abandoned(EnqueueBound(s, p, trace, span, cursor, page, delay, now))
  {
    hide ScheduleDrain;
    forall t ensures !Abandoned(Enqueue(s, t, now)) {
      ScheduleDrainNeverAbandons(s.(queue := s.queue + [t]), now);
    }
    hide Enqueue;
  }

  lemma QuerySettlesNeverAbandons(s: Client, outcome: Outcome, now: int)
    requires !Abandoned(s) && s.draining
    ensures !Abandoned(QuerySettles(s, outcome, now))
  {
    hide ApplyResponse, DrainLoop;
    if s.flight.Some? {
      var flight := s.flight.value;
      var landed := s.(flight := None, controller := s.controller && flight.aborted);
      var applied :=
        if flight.task.revision != s.revision then landed
        else match outcome
          case Resolved(r) => ApplyResponse(landed, flight.task, r, now)
          case Rejected(isAbort, overCapacity, message) =>
            if isAbort && flight.aborted then landed else QueryFailed(landed, overCapacity, Reported(message));
      assert applied.draining by {
        if outcome.Resolved? { Fr.ApplyResponseFrame(landed, flight.task, outcome.response, now); }
      }
      DrainLoopNeverAbandons(applied, now);
    }
  }

  lemma RestartNeverAbandons(s: Client, filters: N.Filters, now: int)
    ensures !Abandoned(Restart(s, now)) && !Abandoned(ChangeFilters(s, filters, now))
  {
    hide Enqueue, EnqueueBound, Invalidate, N.Normalize;
    var i := ClearPrivateDetail(Invalidate(s).(traceCursors := [None], spanCursors := [None], selectedSpanRequestId := None));
    EnqueueNeverAbandons(i.(view := InitialView(N.Normalize(s.view.filters))), now);
    var j := Invalidate(s).(traceCursors := [None], spanCursors := [None], selectedSpanRequestId := None);
    var u := j.(view := Fr.FilteredView(j.view, filters));
    EnqueueNeverAbandons(u, now);
    if u.view.snapshot.Some? {
      Fr.EnqueueInitialFrame(u, now);
      var t := EnqueueBound(u, Traces, None, None, None, 0, 0, now);
      EnqueueNeverAbandons(t, now);
      var f := EnqueueBound(t, FacetQuery, None, None, None, 0, 0, now);
      Fr.EnqueueBoundFrame(u, Traces, None, None, None, 0, 0, now);
      Fr.EnqueueBoundFrame(t, FacetQuery, None, None, None, 0, 0, now);
      EnqueueNeverAbandons(f.(view := f.view.(summary := SummaryPending)), now);
    }
  }

  lemma EnqueueBoundNeverAbandons(s: Client, p: Purpose, trace: Option<string>, span: Option<string>,
                                  cursor: Option<Cursor>, page: nat, now: int)
    requires !Abandoned(s)
    ensures !Abandoned(EnqueueBound(s, p, trace, span, cursor, page, 0, now))
  {
    EnqueueNeverAbandons(s, now);
    hide Enqueue;
  }

  lemma SelectionNeverAbandons(s: Client, id: string, now: int)
    requires !Abandoned(s)
    ensures !Abandoned(ChooseTrace(s, id, now)) && !Abandoned(ChooseSpan(s, id, now))
  {
    hide EnqueueBound, IsProjectedId;
    if s.view.snapshot.Some? {
      var c := ClearPrivateDetail(s.(spanCursors := [None], selectedSpanRequestId := None));
      EnqueueBoundNeverAbandons(
        c.(view := c.view.(selectedTraceId := Some(id), selectedSpan := None, spans := EmptyPage(),
                           availability := AvailabilityOf(s.view.snapshot.value), reason := None)),
        Spans, Some(id), None, None, 0, now);
    }
    EnqueueBoundNeverAbandons(ClearPrivateDetail(s).(selectedSpanRequestId := Some(id)), SpanQuery, s.view.selectedTraceId,
                              Some(id), None, 0, now);
  }

  lemma TraceNavigationNeverAbandons(s: Client, now: int)
    requires !Abandoned(s)
    ensures !Abandoned(TracesForward(s, now)) && !Abandoned(TracesBack(s, now))
  {
    hide EnqueueBound, Push;
    var c := s.view.traces.nextCursor;
    if c.Some? {
      EnqueueBoundNeverAbandons(s.(traceCursors := Push(s.traceCursors, c.value)), Traces, None, None, c, s.view.traces.page + 1, now);
    }
    if |s.traceCursors| > 1 {
      var p := s.(traceCursors := s.traceCursors[..|s.traceCursors| - 1]);
      EnqueueBoundNeverAbandons(p, Traces, None, None, Last(p.traceCursors), PageBefore(s.view.traces.page), now);
    }
  }

  lemma SpanNavigationNeverAbandons(s: Client, now: int)
    requires !Abandoned(s)
    ensures !Abandoned(SpansForward(s, now)) && !Abandoned(SpansBack(s, now))
  {
    hide EnqueueBound, Push;
    var trace, c := s.view.selectedTraceId, s.view.spans.nextCursor;
    if c.Some? {
      EnqueueBoundNeverAbandons(s.(spanCursors := Push(s.spanCursors, c.value)), Spans, trace, None, c, s.view.spans.page + 1, now);
    }
    if |s.spanCursors| > 1 {
      var p := s.(spanCursors := s.spanCursors[..|s.spanCursors| - 1]);
      EnqueueBoundNeverAbandons(p, Spans, trace, None, Last(p.spanCursors), PageBefore(s.view.spans.page), now);
    }
  }

  lemma NavigationStepNeverAbandons(s: Client, tick: Tick)
    requires !Abandoned(s) && Fr.Navigates(tick.event)
    ensures !Abandoned(Step(s, tick))
  {
    hide ChooseTrace, ChooseSpan, TracesForward, TracesBack, SpansForward, SpansBack;
    match tick.event {
      case SelectTrace(id) => SelectionNeverAbandons(s, id, tick.now);
      case SelectSpan(id) => SelectionNeverAbandons(s, id, tick.now);
      case NextTraces => TraceNavigationNeverAbandons(s, tick.now);
      case PreviousTraces => TraceNavigationNeverAbandons(s, tick.now);
      case NextSpans => SpanNavigationNeverAbandons(s, tick.now);
      case PreviousSpans => SpanNavigationNeverAbandons(s, tick.now);
    }
  }

  lemma SupersedingStepNeverAbandons(s: Client, tick: Tick)
    requires Fr.Supersedes(tick.event)
    ensures !Abandoned(Step(s, tick))
  {
    hide Restart, ChangeFilters;
    RestartNeverAbandons(s, if tick.event.SetFilters? then tick.event.filters else N.NO_FILTERS, tick.now);
  }

  lemma QuietStepAbandonsIff(s: Client, tick: Tick)
    requires !Abandoned(s) && !Fr.Navigates(tick.event) && !Fr.Supersedes(tick.event) && !tick.event.TransportSettles?
    ensures Abandoned(Step(s, tick)) <==>
            tick.event.Settled? && !s.draining && s.queue == [] && s.wake.Some?
  {
    hide ScheduleDrain, PrivateDetailSettles, StartPrivateDetail, Without;
    if tick.event.DetailSettles? || tick.event.LoadPrivateDetail? {
      DetailStepNeverAbandons(s, tick);
    } else {
      ScheduleDrainNeverAbandons(s.(hidden := false), tick.now);
      ScheduleDrainNeverAbandons(s.(wake := None), tick.now);
    }
  }

  lemma DetailStepNeverAbandons(s: Client, tick: Tick)
    requires !Abandoned(s) && (tick.event.DetailSettles? || tick.event.LoadPrivateDetail?)
    ensures !Abandoned(Step(s, tick))
  {
    hide PrivateDetailSettles, StartPrivateDetail, Without;
    if tick.event.LoadPrivateDetail? {
      Fr.StartPrivateDetailFrame(s);
    } else if tick.event.call < |s.detailCalls| {
      Fr.PrivateDetailFrame(s.(detailCalls := Without(s.detailCalls, tick.event.call)), s.detailCalls[tick.event.call],
                           tick.event.detailOutcome);
    }
  }

  /** A wait is abandoned exactly by calling settled() while nothing runs, nothing is queued and a timer is
      still armed. Every other step ends the wait or leaves it to somebody. */
  lemma WaitIsAbandonedIff(s: Client, tick: Tick)
    requires Inv(s) && !Abandoned(s)
    ensures Abandoned(Step(s, tick)) <==>
            tick.event.Settled? && !s.draining && s.queue == [] && s.wake.Some?
  {
    if tick.event.TransportSettles? {
      T.DrainsWhileAwaiting(s);
      hide QuerySettles, Inv;
      if s.flight.Some? {
        QuerySettlesNeverAbandons(s, tick.event.outcome, tick.now);
      } else {
        T.NothingLands(s, tick.event.outcome, tick.now);
      }
    } else {
      hide Step;
      if Fr.Navigates(tick.event) {
        NavigationStepNeverAbandons(s, tick);
      } else if Fr.Supersedes(tick.event) {
        SupersedingStepNeverAbandons(s, tick);
      } else {
        QuietStepAbandonsIff(s, tick);
      }
    }
  }

  /** The timer that was armed does not help: it finds an empty queue and the wait goes on. */
  lemma TimerDoesNotRescue(s: Client, now: int)
    requires Abandoned(s)
    ensures Step(s, Tick(now, TimerFires)) == s.(wake := None)
  {
  }

  lemma RunFirst(s: Client, tick: Tick, rest: seq<Tick>)
    ensures Run(s, [tick] + rest) == Run(Step(s, tick), rest)
  {
    hide Step;
    RunConcat(s, [tick], rest);
    assert Run(s, [tick]) == Step(Run(s, []), tick);
  }

  lemma ReadyTaskTakesOff(s: Client, t: Task, now: int)
    requires s.queue == [t] && !s.draining && !s.hidden && t.readyAt <= now && t.revision == s.revision
    ensures ScheduleDrain(s, now) == s.(queue := [], draining := true, flight := Some(Flight(t, false)), controller := true)
  {
    var d := s.(draining := true);
    assert s.queue[0].readyAt <= now;
    assert ScheduleDrain(s, now) == DrainLoop(d, now);
    assert FirstReady(d.queue, now) == 0;
    assert Without(d.queue, 0) == [];
  }

  lemma StartTakesOff(s: Client, now: int)
    requires s.queue == [] && !s.draining && !s.hidden && s.flight.None?
    ensures var r := Restart(s, now);
            && r.flight.Some? && !r.flight.value.aborted && r.draining && r.queue == [] && r.wake.None? && r.view.snapshot.None?
            && r.flight.value.task.revision == r.revision && r.flight.value.task.purpose.Bootstrap?
            && r.waiters == s.waiters && r.hidden == s.hidden && r.backoff == s.backoff
  {
    hide ScheduleDrain, N.Normalize;
    var i := ClearPrivateDetail(Invalidate(s).(traceCursors := [None], spanCursors := [None], selectedSpanRequestId := None));
    var u := i.(view := InitialView(N.Normalize(s.view.filters)));
    var t := BootstrapTask(u, now);
    assert u.queue + [t] == [t];
    ReadyTaskTakesOff(u.(queue := [t]), t, now);
  }

  /** A bootstrap in flight, alone. */
  predicate Bootstrapping(s: Client) {
    && s.flight.Some? && !s.flight.value.aborted && s.flight.value.task.revision == s.revision
    && s.draining && s.queue == [] && !s.hidden
  }

  lemma BusyArmsTheTimer(s: Client, now: int)
    requires Bootstrapping(s) && s.wake.None? && s.backoff > 0
    ensures var r := QuerySettles(s, Resolved(StatusResponse(Busy)), now);
            && r.queue == [s.flight.value.task.(readyAt := now + s.backoff)] && r.wake == Some(now + s.backoff)
            && !r.draining && r.flight.None? && !r.hidden && r.revision == s.revision && r.waiters == s.waiters
  {
    var t := s.flight.value.task.(readyAt := now + s.backoff);
    var landed := s.(flight := None, controller := s.controller && false);
    var u := landed.(view := s.view.(reason := Some(Status(Busy))), queue := s.queue + [t]);
    assert u.queue == [t];
    assert !SomeReady(u.queue, now);
    assert QuerySettles(s, Resolved(StatusResponse(Busy)), now) == DrainLoop(u, now);
    assert DrainLoop(u, now) == DrainEnds(u, now) == ScheduleDrain(u.(draining := false), now);
  }

  lemma CapacityEmptiesTheQueue(s: Client, now: int)
    requires Bootstrapping(s)
    ensures var r := QuerySettles(s, Resolved(StatusResponse(OverCapacity)), now);
            r.queue == [] && !r.draining && r.flight.None? && r.waiters == 0 && r.wake == s.wake
  {
    var u := ApplyStatus(s.(flight := None, controller := s.controller && false), s.flight.value.task, OverCapacity, now);
    assert QuerySettles(s, Resolved(StatusResponse(OverCapacity)), now) == DrainLoop(u, now);
    assert DrainLoop(u, now) == DrainEnds(u, now);
  }

  lemma RunOfSix(s: Client, a: Tick, b: Tick, c: Tick, d: Tick, e: Tick, f: Tick)
    ensures Run(s, [a, b, c, d, e, f]) == Step(Step(Step(Step(Step(Step(s, a), b), c), d), e), f)
  {
    hide Step;
    assert [a, b, c, d, e, f] == [a] + ([b] + ([c] + ([d] + ([e] + ([f] + [])))));
    RunFirst(s, a, [b] + ([c] + ([d] + ([e] + ([f] + [])))));
    var s1 := Step(s, a);
    RunFirst(s1, b, [c] + ([d] + ([e] + ([f] + []))));
    var s2 := Step(s1, b);
    RunFirst(s2, c, [d] + ([e] + ([f] + [])));
    var s3 := Step(s2, c);
    RunFirst(s3, d, [e] + ([f] + []));
    var s4 := Step(s3, d);
    RunFirst(s4, e, [f] + []);
    RunFirst(Step(s4, e), f, []);
  }

  /** The retry of a busy bootstrap, started by the page becoming visible while the timer is still armed,
      and answered with "capacity". */
  lemma RetryBeatsTheTimer(s: Client, now: int)
    requires Bootstrapping(s) && s.wake.None? && s.backoff > 0
    ensures var busy := Step(s, Tick(now, TransportSettles(Resolved(StatusResponse(Busy)))));
            var retried := Step(busy, Tick(now + s.backoff, Show));
            var r := Step(retried, Tick(now + s.backoff + 1, TransportSettles(Resolved(StatusResponse(OverCapacity)))));
            r.queue == [] && !r.draining && r.flight.None? && r.waiters == 0 && r.wake.Some?
  {
    BusyArmsTheTimer(s, now);
    hide QuerySettles;
    var busy := QuerySettles(s, Resolved(StatusResponse(Busy)), now);
    var again := s.flight.value.task.(readyAt := now + s.backoff);
    ReadyTaskTakesOff(busy.(hidden := false), again, now + s.backoff);
    hide ScheduleDrain;
    CapacityEmptiesTheQueue(ScheduleDrain(busy.(hidden := false), now + s.backoff), now + s.backoff + 1);
  }

  lemma SettledTooLate(s: Client, now: int, later: int)
    requires s.queue == [] && !s.draining && s.flight.None? && s.waiters == 0 && s.wake.Some?
    ensures var end := Step(Step(s, Tick(now, Settled)), Tick(later, TimerFires));
            end.waiters == 1 && Abandoned(end) && end.wake.None? && end.flight.None?
  {
    TimerDoesNotRescue(s.(waiters := 1), later);
  }

  lemma StartsBootstrapping(s: Client, now: int)
    requires s.queue == [] && !s.draining && !s.hidden && s.flight.None?
    ensures var r := Step(s, Tick(now, Start));
            Bootstrapping(r) && r.wake.None? && r.backoff == s.backoff
  {
    StartTakesOff(s, now);
    hide Restart;
  }

  /** A run of the code that strands a caller of settled(): a busy bootstrap arms the timer, the page becomes
      visible just as the retry is due and beats the timer to it, and the retry empties the queue. */
  lemma SettledCanBeStranded()
    ensures exists ticks :: var end := Run(InitialClient(250, true, true, false), ticks);
            end.waiters == 1 && Abandoned(end) && end.wake.None? && end.flight.None?
  {
    hide Step, Bootstrapping, Abandoned;
    var s0 := InitialClient(250, true, true, false);
    var start, busy := Tick(0, Start), Tick(0, TransportSettles(Resolved(StatusResponse(Busy))));
    var show, full := Tick(250, Show), Tick(251, TransportSettles(Resolved(StatusResponse(OverCapacity))));
    var settled, timer := Tick(252, Settled), Tick(260, TimerFires);
    StartsBootstrapping(s0, 0);
    RetryBeatsTheTimer(Step(s0, start), 0);
    SettledTooLate(Step(Step(Step(Step(s0, start), busy), show), full), 252, 260);
    RunOfSix(s0, start, busy, show, full, settled, timer);
  }
}
