/** Which queries the paged dashboard client still waits for, and what that says about the span on display. */
module DashboardRequests {
  import opened Common
  import opened DashboardModel
  import opened DashboardInvariants
  import opened DashboardWork
  import Fr = DashboardFrames
  import F = Facets
  import N = DashboardFilters
  import S = DashboardSelection

  // ----- the queries the client waits for

  function Count(p: Task -> bool, q: seq<Task>): nat {
    if q == [] then 0 else Count(p, q[..|q| - 1]) + (if p(q[|q| - 1]) then 1 else 0)
  }

  lemma {:induction false} CountConcat(p: Task -> bool, q: seq<Task>, r: seq<Task>)
    ensures Count(p, q + r) == Count(p, q) + Count(p, r)
  {
    if r == [] {
      assert q + r == q;
    } else {
      assert (q + r)[..|q + r| - 1] == q + r[..|r| - 1];
      CountConcat(p, q, r[..|r| - 1]);
    }
  }

  lemma CountOneMore(p: Task -> bool, q: seq<Task>, t: Task)
    ensures Count(p, q + [t]) == Count(p, q) + One(p(t))
  {
    assert (q + [t])[..|q|] == q;
  }

  lemma CountWithout(p: Task -> bool, q: seq<Task>, i: nat)
    requires i < |q|
    ensures Count(p, q) == Count(p, q[..i] + q[i + 1..]) + One(p(q[i]))
  {
    hide Count;
    var before, after := q[..i], q[i + 1..];
    assert q == (before + [q[i]]) + after;
    CountOneMore(p, before, q[i]);
    CountConcat(p, before + [q[i]], after);
    CountConcat(p, before, after);
  }

  /** How many of the tasks that `p` accepts are queued, or in flight and not superseded. */
  function Waiting(p: Task -> bool, s: Client): nat {
    Count(p, s.queue) + (if Live(s) && p(s.flight.value.task) then 1 else 0)
  }

  function One(b: bool): nat { if b then 1 else 0 }

  /** The current query whose outcome arrives. */
  predicate Lands(p: Task -> bool, s: Client, e: Event) { e.TransportSettles? && Live(s) && p(s.flight.value.task) }

  lemma AddedIsCurrent(s: Client, tick: Tick)
    ensures AllCurrent(Added(s, tick), if Fr.Supersedes(tick.event) then s.revision + 1 else s.revision)
  {
    hide IsProjectedId, Fails, N.Normalize;
  }

  lemma TodoIsCurrent(s: Client, tick: Tick)
    requires AllCurrent(s.queue, s.revision)
    ensures AllCurrent(Todo(s, tick), if Fr.Supersedes(tick.event) then s.revision + 1 else s.revision)
  {
    AddedIsCurrent(s, tick);
    hide Added, Fails, StartsOver;
  }

  lemma TakingOffWaits(p: Task -> bool, w: seq<Task>, hidden: bool, wake: Option<int>, now: int, t: Client)
    requires TakesOff(w, hidden, wake, now, t) && AllCurrent(w, t.revision)
    ensures Waiting(p, t) == Count(p, w)
  {
    hide Count;
    if !(hidden || NothingReady(w, now)) {
      var i: nat :| IsFirstReady(w, now, i) && Sends(w, i, t);
      CountWithout(p, w, i);
    }
  }

  lemma FlightIsOld(s: Client)
    requires Inv(s)
    ensures s.flight.Some? ==> s.flight.value.task.revision <= s.revision
  {
    hide F.WithinLimit, AllBound, BoundTo;
  }

  /** How many queries of any sort are waited for after a step: what was waited for, unless the event drops it,
      less the current query that has landed, and what the event adds. */
  lemma WaitingAfter(p: Task -> bool, s: Client, tick: Tick)
    requires Inv(s)
    ensures Waiting(p, Step(s, tick)) ==
              (if EmptiesQueue(s, tick.event) then 0 else Waiting(p, s) - One(Lands(p, s, tick.event)))
              + Count(p, Added(s, tick))
  {
    var t := Step(s, tick);
    StepFollows(s, tick);
    InvSchedules(s);
    TodoIsCurrent(s, tick);
    FlightIsOld(s);
    hide Inv, Step, Added, TakesOff, Fails, StartsOver;
    CountConcat(p, if EmptiesQueue(s, tick.event) then [] else s.queue, Added(s, tick));
    if (s.flight.None? || tick.event.TransportSettles?) && Stirs(s, tick) {
      TakingOffWaits(p, Todo(s, tick), HiddenAfter(s, tick.event), WakeBefore(s, tick.event), tick.now, t);
    }
  }

  // ----- queries for a span

  predicate Asks(id: string, t: Task) { t.request.kind.SpanQuery? && t.request.spanId == Some(id) }

  function ById(id: string): Task -> bool { t => Asks(id, t) }

  /** How many queries for the span `id` are queued, or in flight and not superseded. */
  function Pending(id: string, s: Client): nat { Waiting(ById(id), s) }

  /** The click on a span that the client serves. */
  predicate Opens(s: Client, e: Event) {
    e.SelectSpan? && s.view.selectedTraceId.Some? && IsProjectedId(e.spanId)
  }

  lemma CountOfOne(p: Task -> bool, t: Task)
    ensures Count(p, [t]) == One(p(t)) && Count(p, []) == 0
  {
    assert Count(p, [t][..0]) == 0;
  }

  lemma NobodyAsks(id: string, q: seq<Task>)
    requires forall i :: 0 <= i < |q| ==> !q[i].request.kind.SpanQuery?
    ensures Count(ById(id), q) == 0
  {
    if q != [] { NobodyAsks(id, q[..|q| - 1]); }
  }

  /** Of what an event adds, a served click on the span and a retry of a query for it are the queries for it. */
  lemma SpanQueriesAdded(id: string, s: Client, tick: Tick)
    requires Live(s) ==> BoundTo(PresentOf(s), s.flight.value.task)
    ensures var e := tick.event;
            Count(ById(id), Added(s, tick)) ==
              One(Opens(s, e) && e.spanId == id && s.view.snapshot.Some?)
              + One(Lands(ById(id), s, e) && !EmptiesQueue(s, e) && e.outcome.response.StatusResponse?)
  {
    hide IsProjectedId, N.Normalize;
    var e := tick.event;
    assert e.TransportSettles? && Live(s) && e.outcome.Rejected? ==> Fails(s.flight.value.task, e.outcome);
    hide Fails;
    if e.SelectSpan? {
      if Opens(s, e) && s.view.snapshot.Some? { CountOfOne(ById(id), Added(s, tick)[0]); }
    } else if e.TransportSettles? && Live(s) && e.outcome.Resolved? && !Fails(s.flight.value.task, e.outcome)
              && e.outcome.response.StatusResponse? {
      RetriesAdded(id, s, tick);
    } else {
      NobodyAsks(id, Added(s, tick));
    }
  }

  lemma RetriesAdded(id: string, s: Client, tick: Tick)
    requires var e := tick.event;
             e.TransportSettles? && Live(s) && e.outcome.Resolved? && !Fails(s.flight.value.task, e.outcome)
             && e.outcome.response.StatusResponse?
    ensures Count(ById(id), Added(s, tick)) == One(Lands(ById(id), s, tick.event) && !EmptiesQueue(s, tick.event))
  {
    if !StartsOver(tick.event.outcome) {
      CountOfOne(ById(id), s.flight.value.task.(readyAt := tick.now + s.backoff));
    } else {
      NobodyAsks(id, Added(s, tick));
    }
  }

  // ----- the queries for one span, over a step

  /** The answer to a current query, or the dispose, after which the client waits for no span. */
  predicate Drops(s: Client, e: Event) {
    || e.Dispose?
    || (e.TransportSettles? && Live(s) && Fails(s.flight.value.task, e.outcome))
  }

  predicate Blanks(s: Client, e: Event) {
    e.TransportSettles? && Live(s) && StartsOver(e.outcome)
  }

  /** The answer to a current query for the span `id`, with the span in it. */
  predicate Delivers(id: string, s: Client, e: Event) {
    && e.TransportSettles? && Live(s) && Asks(id, s.flight.value.task)
    && e.outcome.Resolved? && e.outcome.response.DataResponse? && !Fails(s.flight.value.task, e.outcome)
  }

  /** How many queries for the span `id` are waited for after an event: a click on it adds one, an answer takes
      one off, and a failure, a restart or a dispose takes them all. Nothing else changes the number. */
  lemma PendingAfter(id: string, s: Client, tick: Tick)
    requires Inv(s) && (s.view.selectedTraceId.Some? ==> s.view.snapshot.Some?)
    ensures var e := tick.event;
            Pending(id, Step(s, tick)) ==
              if Fr.Supersedes(e) || Drops(s, e) || Blanks(s, e) then 0
              else Pending(id, s) + One(Opens(s, e) && e.spanId == id) - One(Delivers(id, s, e))
  {
    LiveTaskIsBound(s);
    WaitingAfter(ById(id), s, tick);
    SpanQueriesAdded(id, s, tick);
    hide Inv, Step, Added, Waiting, IsProjectedId, BoundTo;
  }

  // ----- what is shown, over a step

  predicate ShowsSpan(o: Fr.Shown, id: string) { o.span.Some? && o.span.value.spanId == id }

  lemma AnswerShowsSpan(s: Client, outcome: Outcome)
    requires Live(s) ==> BoundTo(PresentOf(s), s.flight.value.task)
    ensures var o, a, e := Fr.ShownOf(s), Fr.AfterAnswer(s, outcome), TransportSettles(outcome);
            && a.requested == o.requested
            && (if Blanks(s, e) then a.span.None?
                else if o.requested.Some? && Delivers(o.requested.value, s, e)
                then outcome.response.body.SpanBody? && a.span == Some(outcome.response.body.detail)
                else a.span == o.span)
  {
    hide F.Apply, N.Normalize;
  }

  /** Nothing shows a span except the answer to a current query for the id asked for last, and it shows what
      that answer holds. */
  lemma SpanChangesOnlyByItsAnswer(s: Client, tick: Tick)
    requires Inv(s)
    ensures var t, e := Step(s, tick), tick.event;
            t.view.selectedSpan != s.view.selectedSpan && t.view.selectedSpan.Some? ==>
              && s.selectedSpanRequestId.Some? && t.selectedSpanRequestId == s.selectedSpanRequestId
              && Delivers(s.selectedSpanRequestId.value, s, e)
              && e.outcome.response.body == SpanBody(t.view.selectedSpan.value)
  {
    LiveTaskIsBound(s);
    hide Step, Inv, Fr.AfterAnswer, Fr.AfterClick, Fr.AfterSuperseding, Delivers, Blanks, BoundTo;
    if tick.event.TransportSettles? {
      SettlingStepShows(s, tick);
      AnswerShowsSpan(s, tick.event.outcome);
      SpanOfDelivery(s, tick.event);
    } else {
      if Fr.Supersedes(tick.event) { Fr.SupersedingShows(s, tick); } else { Fr.StepShows(s, tick); }
      ClicksShowNothing(s, tick.event);
    }
  }

  lemma SpanOfDelivery(s: Client, e: Event)
    ensures forall id :: Delivers(id, s, e) ==> e.TransportSettles? && e.outcome.Resolved? && e.outcome.response.DataResponse?
  {
  }

  lemma SettlingStepShows(s: Client, tick: Tick)
    requires tick.event.TransportSettles? && (s.flight.Some? ==> s.draining)
    ensures Fr.ShownOf(Step(s, tick)) == Fr.AfterAnswer(s, tick.event.outcome)
  {
    hide QuerySettles, Fr.AfterAnswer, Fr.ShownOf;
    Fr.SettlingShows(s, tick.event.outcome, tick.now);
  }

  lemma ClicksShowNothing(s: Client, e: Event)
    ensures Fr.AfterClick(s, e).span == s.view.selectedSpan || Fr.AfterClick(s, e).span.None?
    ensures Fr.AfterSuperseding(s, e).span == s.view.selectedSpan || Fr.AfterSuperseding(s, e).span.None?
  {
    hide IsProjectedId, Push, N.Normalize;
  }

  /** What an event does to the id asked for last, and to whether that span is the one shown. */
  lemma SelectionAfter(owner: string -> string, s: Client, tick: Tick)
    requires Inv(s) && S.Honest(owner, s, tick.event)
    ensures var t, e := Step(s, tick), tick.event;
            if Opens(s, e) then
              t.selectedSpanRequestId == Some(e.spanId) && t.view.selectedSpan == s.view.selectedSpan
            else t.selectedSpanRequestId.Some? ==>
              var id := t.selectedSpanRequestId.value;
              && s.selectedSpanRequestId == Some(id)
              && (ShowsSpan(Fr.ShownOf(t), id) <==>
                    Delivers(id, s, e) || (ShowsSpan(Fr.ShownOf(s), id) && !Blanks(s, e)))
  {
    LiveTaskIsBound(s);
    hide Step, Inv, Fr.AfterAnswer, Fr.AfterClick, Fr.AfterSuperseding, BoundTo;
    if tick.event.TransportSettles? {
      SettlingStepShows(s, tick);
      AnswerShowsSpan(s, tick.event.outcome);
    } else {
      if Fr.Supersedes(tick.event) { Fr.SupersedingShows(s, tick); } else { Fr.StepShows(s, tick); }
      ClicksSelect(s, tick.event);
    }
  }

  lemma ClicksSelect(s: Client, e: Event)
    ensures var o, c, p := Fr.ShownOf(s), Fr.AfterClick(s, e), Fr.AfterSuperseding(s, e);
            && (Opens(s, e) ==> c.requested == Some(e.spanId) && c.span == o.span)
            && (!Opens(s, e) && c.requested.Some? ==> c.requested == o.requested && c.span == o.span)
            && (Fr.Supersedes(e) && p.requested.Some? ==> p.requested == o.requested && p.span == o.span)
  {
    hide IsProjectedId, Push, N.Normalize;
  }

  // ----- the span shown and the span asked for, over runs

  /** About the last click on a span: how many queries for that span were waited for just after it, whether the
      span was shown already, and how many of those queries the client has dropped unanswered since. */
  datatype Ledger = Ledger(asked: nat, already: bool, lost: nat)

  function Account(l: Ledger, s: Client, e: Event): Ledger {
    if Opens(s, e) then Ledger(Pending(e.spanId, s) + 1, ShowsSpan(Fr.ShownOf(s), e.spanId), 0)
    else if Blanks(s, e) then Ledger(l.asked, false, l.asked)
    else if Drops(s, e) && s.selectedSpanRequestId.Some? then
      l.(lost := l.lost + Pending(s.selectedSpanRequestId.value, s))
    else l
  }

  function RunLedger(s: Client, ticks: seq<Tick>): Ledger {
    if ticks == [] then Ledger(0, false, 0)
    else
      var front := ticks[..|ticks| - 1];
      Account(RunLedger(s, front), Run(s, front), ticks[|ticks| - 1].event)
  }

  /** The span asked for last is shown exactly if it was shown at the click, or one of the queries for it that
      the client waited for then has been answered: it is neither waited for any more nor lost. */
  predicate Balanced(s: Client, l: Ledger) {
    s.selectedSpanRequestId.Some? ==>
      var id := s.selectedSpanRequestId.value;
      && 1 <= l.asked && Pending(id, s) + l.lost <= l.asked
      && (ShowsSpan(Fr.ShownOf(s), id) <==> l.already || Pending(id, s) + l.lost < l.asked)
  }

  lemma StepIsBalanced(owner: string -> string, s: Client, l: Ledger, tick: Tick)
    requires Inv(s) && S.Coherent(owner, Fr.ShownOf(s)) && S.Honest(owner, s, tick.event) && Balanced(s, l)
    ensures Balanced(Step(s, tick), Account(l, s, tick.event))
  {
    var t := Step(s, tick);
    assert s.view.selectedTraceId.Some? ==> s.view.snapshot.Some?;
    hide Step, Inv, Pending, S.Honest, S.Coherent, ShowsSpan, Delivers, Fails, StartsOver, IsProjectedId;
    SelectionAfter(owner, s, tick);
    if t.selectedSpanRequestId.Some? {
      PendingAfter(t.selectedSpanRequestId.value, s, tick);
      if Fr.Supersedes(tick.event) && !tick.event.Dispose? { SupersedingAsksForNothing(s, tick); }
    }
  }

  lemma SupersedingAsksForNothing(s: Client, tick: Tick)
    requires Fr.Supersedes(tick.event) && !tick.event.Dispose?
    ensures Step(s, tick).selectedSpanRequestId.None?
  {
    hide Step, N.Normalize;
    Fr.SupersedingShows(s, tick);
  }

  /** Against an honest server, and in every state of every run: the span asked for last is the span shown
      exactly if it was shown when it was asked for last or one of the queries then waited for has come back
      with it. So once nothing is waited for and nothing was dropped it is shown; and a span that is asked for
      once, and was not shown then, is shown exactly when the query is over and was not dropped. */
  lemma {:induction false} SelectedIsLastRequestedIff(owner: string -> string, backoff: nat, autoLoad: bool, detail: bool,
                                                      hidden: bool, ticks: seq<Tick>)
    requires S.HonestRun(owner, InitialClient(backoff, autoLoad, detail, hidden), ticks)
    ensures var s0 := InitialClient(backoff, autoLoad, detail, hidden);
            var s, l := Run(s0, ticks), RunLedger(s0, ticks);
            && Balanced(s, l)
            && (s.selectedSpanRequestId.Some? ==>
                  var id := s.selectedSpanRequestId.value;
                  var shows := ShowsSpan(Fr.ShownOf(s), id);
                  && (Pending(id, s) == 0 && l.lost == 0 ==> shows)
                  && (!l.already && l.asked == 1 ==> (shows <==> Pending(id, s) == 0 && l.lost == 0)))
  {
    if ticks != [] {
      hide Step, Inv, Pending, S.Honest, S.Coherent, Account, Balanced;
      var front, s0 := ticks[..|ticks| - 1], InitialClient(backoff, autoLoad, detail, hidden);
      SelectedIsLastRequestedIff(owner, backoff, autoLoad, detail, hidden, front);
      EveryRunKeepsInvariant(backoff, autoLoad, detail, hidden, front);
      S.SelectionStaysCoherent(owner, backoff, autoLoad, detail, hidden, front);
      StepIsBalanced(owner, Run(s0, front), RunLedger(s0, front), ticks[|ticks| - 1]);
    }
  }
}
