/** What the paged dashboard client promises over whole runs. */
module DashboardTheorems {
  import opened Common
  import opened DashboardModel
  import opened DashboardInvariants
  import opened DashboardFrames
  import F = Facets
  import N = DashboardFilters

  // ----- superseded work cannot interfere

  /** The query in flight is awaited for nothing: its abort signal is up. */
  predicate Superseded(s: Client) {
    s.flight.Some? && s.flight.value.aborted
  }

  lemma DrainsWhileAwaiting(s: Client)
    requires Inv(s)
    ensures s.draining <==> s.flight.Some?
    ensures s.flight.Some? ==> (s.controller <==> !s.flight.value.aborted)
  {
  }

  lemma OtherStepsKeepFlight(s: Client, tick: Tick)
    requires Inv(s) && s.flight.Some? && !tick.event.TransportSettles?
    ensures Step(s, tick).flight == if Supersedes(tick.event) then Some(Flight(s.flight.value.task, true)) else s.flight
  {
    DrainsWhileAwaiting(s);
    hide Step, Inv, ShownOf, AfterClick;
    if Supersedes(tick.event) {
      SupersedingShows(s, tick);
    } else {
      StepShows(s, tick);
    }
  }

  lemma LateOutcomeIsIgnored(s: Client, now: int, o1: Outcome, o2: Outcome)
    requires Inv(s) && Superseded(s)
    ensures QuerySettles(s, o1, now) == QuerySettles(s, o2, now)
    ensures QuerySettles(s, o1, now).view == s.view
  {
    DrainLoopKeeps(s.(flight := None), now);
  }

  lemma {:induction false} SupersededUntilItSettles(s: Client, ticks: seq<Tick>)
    requires Inv(s) && Superseded(s)
    requires forall i :: 0 <= i < |ticks| ==> !ticks[i].event.TransportSettles?
    ensures Inv(Run(s, ticks)) && Superseded(Run(s, ticks))
  {
    if ticks != [] {
      var front, last := ticks[..|ticks| - 1], ticks[|ticks| - 1];
      SupersededUntilItSettles(s, front);
      StepKeepsInvariant(Run(s, front), last);
      OtherStepsKeepFlight(Run(s, front), last);
    }
  }

  /** After start, refresh, setFilters or dispose, the answer of a query issued before changes nothing:
      not what is shown when it arrives, and not the state any continuation of the run ends in. */
  lemma SupersededWorkCannotInterfere(s: Client, superseding: Tick, between: seq<Tick>, now: int, o1: Outcome, o2: Outcome,
                                      rest: seq<Tick>)
    requires Inv(s) && s.flight.Some? && Supersedes(superseding.event)
    requires forall i :: 0 <= i < |between| ==> !between[i].event.TransportSettles?
    ensures var mid := Run(Step(s, superseding), between);
            && Step(mid, Tick(now, TransportSettles(o1))).view == mid.view
            && Run(mid, [Tick(now, TransportSettles(o1))] + rest) == Run(mid, [Tick(now, TransportSettles(o2))] + rest)
  {
    hide Run, Inv;
    var first := Step(s, superseding);
    StepKeepsInvariant(s, superseding);
    OtherStepsKeepFlight(s, superseding);
    SupersededUntilItSettles(first, between);
    var mid := Run(first, between);
    LateOutcomeIsIgnored(mid, now, o1, o2);
    var t1, t2 := Tick(now, TransportSettles(o1)), Tick(now, TransportSettles(o2));
    RestIsShared(mid, t1, t2, rest);
  }

  lemma RestIsShared(s: Client, t1: Tick, t2: Tick, rest: seq<Tick>)
    requires Step(s, t1) == Step(s, t2)
    ensures Run(s, [t1] + rest) == Run(s, [t2] + rest)
  {
    hide Step;
    RunConcat(s, [t1], rest);
    RunConcat(s, [t2], rest);
    assert Run(s, [t1]) == Step(Run(s, []), t1);
    assert Run(s, [t2]) == Step(Run(s, []), t2);
  }

  lemma NothingLands(s: Client, outcome: Outcome, now: int)
    requires s.flight.None?
    ensures QuerySettles(s, outcome, now) == s
  {
  }

  // ----- refreshing

  /** Refreshing normalises the filters a second time, so it keeps them exactly when the text last given to
      setFilters was not cut just after white space. */
  lemma RefreshKeepsFiltersIff(s: Client, filters: N.Filters, now: int, later: int)
    ensures var chosen := Step(s, Tick(now, SetFilters(filters)));
            Step(chosen, Tick(later, Refresh)).view.filters == chosen.view.filters <==> N.CutIsClean(filters.text)
  {
    hide Restart, ChangeFilters, N.Normalize, N.CutIsClean;
    ChangeFiltersFrame(s, filters, now);
    RestartFrame(ChangeFilters(s, filters, now), later);
    N.NormalizeIsIdempotentIff(filters);
  }
}
