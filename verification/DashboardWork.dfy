/** What the paged dashboard client has to do after every event, and what it does of it at once: the requests that
    each event adds, in order, and the scheduler as one statement about every step. */
module DashboardWork {
  import opened Common
  import opened DashboardModel
  import opened DashboardInvariants
  import Fr = DashboardFrames
  import F = Facets
  import N = DashboardFilters

  // ----- the requests an event adds

  /** A query under a snapshot. */
  function Query(revision: nat, filters: N.Filters, snapshotId: string, kind: Purpose, traceId: Option<string>,
                 spanId: Option<string>, cursor: Option<Cursor>, page: nat, readyAt: int): Task
  {
    Task(revision, Request(kind, filters, Some(snapshotId), traceId, spanId, cursor), kind, page, readyAt)
  }

  function FirstQuery(revision: nat, filters: N.Filters, readyAt: int): Task {
    Task(revision, Request(Bootstrap, filters, None, None, None, None), Bootstrap, 0, readyAt)
  }

  /** What is asked for under a new snapshot, in this order. */
  function InitialQueries(revision: nat, filters: N.Filters, snapshotId: string, now: int): seq<Task> {
    [Query(revision, filters, snapshotId, Traces, None, None, None, 0, now),
     Query(revision, filters, snapshotId, FacetQuery, None, None, None, 0, now),
     Query(revision, filters, snapshotId, SummaryQuery, None, None, None, 0, now)]
  }

  /** The answer, given to a current query, that makes the client drop everything it still waits for. */
  predicate Fails(task: Task, outcome: Outcome) {
    match outcome
    case Rejected(_, _, _) => true
    case Resolved(StatusResponse(status)) => status.OverCapacity? || status.InvalidQuery?
    case Resolved(DataResponse(snapshot, _, body)) =>
      || BodyPurpose(body) != task.purpose
      || (task.request.snapshotId.Some? && snapshot.id != task.request.snapshotId.value)
  }

  /** The answer that makes the client start over. */
  predicate StartsOver(outcome: Outcome) {
    && outcome.Resolved? && outcome.response.StatusResponse?
    && (outcome.response.status.RefreshIsPending? || outcome.response.status.SnapshotExpired?)
  }

  /** The rest of an answer that came in pages is asked for after the short pause. */
  function Pause(s: Client): nat { if s.backoff <= 16 then s.backoff else 16 }

  /** What the answer to the current query `task` adds. */
  function AddedByAnswer(s: Client, task: Task, outcome: Outcome, now: int): seq<Task> {
    if Fails(task, outcome) then []
    else match outcome.response
      case StatusResponse(status) =>
        if status.Busy? || status.BuildingSnapshot? then [task.(readyAt := now + s.backoff)]
        else if status.RefreshIsPending? then [FirstQuery(s.revision, s.view.filters, now + s.backoff)]
        else []
      case DataResponse(snapshot, _, body) =>
        match body
        case BootstrapBody(_) => if s.autoLoad then InitialQueries(s.revision, s.view.filters, snapshot.id, now) else []
        case SummaryBody(kpis, cursor) =>
          if kpis.Some? || cursor.None? then []
          else [Query(s.revision, s.view.filters, snapshot.id, SummaryQuery, None, None, cursor, 0, now + Pause(s))]
        case FacetsBody(_, cursor) =>
          if cursor.None? then []
          else [Query(s.revision, s.view.filters, snapshot.id, FacetQuery, None, None, cursor, task.page + 1, now + Pause(s))]
        case _ => []
  }

  /** What a click adds under the snapshot `id`. */
  function AddedByClick(s: Client, id: string, e: Event, now: int): seq<Task> {
    var v := s.view;
    match e
    case SelectTrace(traceId) =>
      if IsProjectedId(traceId) then [Query(s.revision, v.filters, id, Spans, Some(traceId), None, None, 0, now)] else []
    case SelectSpan(spanId) =>
      if v.selectedTraceId.Some? && IsProjectedId(spanId)
      then [Query(s.revision, v.filters, id, SpanQuery, v.selectedTraceId, Some(spanId), None, 0, now)] else []
    case NextTraces =>
      if v.traces.nextCursor.Some?
      then [Query(s.revision, v.filters, id, Traces, None, None, v.traces.nextCursor, v.traces.page + 1, now)] else []
    case PreviousTraces =>
      if |s.traceCursors| > 1
      then [Query(s.revision, v.filters, id, Traces, None, None, s.traceCursors[|s.traceCursors| - 2],
                  if v.traces.page > 0 then v.traces.page - 1 else 0, now)] else []
    case NextSpans =>
      if v.spans.nextCursor.Some? && v.selectedTraceId.Some?
      then [Query(s.revision, v.filters, id, Spans, v.selectedTraceId, None, v.spans.nextCursor, v.spans.page + 1, now)] else []
    case PreviousSpans =>
      if v.selectedTraceId.Some? && |s.spanCursors| > 1
      then [Query(s.revision, v.filters, id, Spans, v.selectedTraceId, None, s.spanCursors[|s.spanCursors| - 2],
                  if v.spans.page > 0 then v.spans.page - 1 else 0, now)] else []
    case _ => []
  }

  /** The tasks that an event adds, in the order in which they are queued. */
  function Added(s: Client, tick: Tick): seq<Task> {
    var now := tick.now;
    match tick.event
    case Start => [FirstQuery(s.revision + 1, N.Normalize(s.view.filters), now)]
    case Refresh => [FirstQuery(s.revision + 1, N.Normalize(s.view.filters), now)]
    case SetFilters(filters) =>
      if s.view.snapshot.None? then [FirstQuery(s.revision + 1, N.Normalize(filters), now)]
      else InitialQueries(s.revision + 1, N.Normalize(filters), s.view.snapshot.value.id, now)
    case TransportSettles(outcome) => if Live(s) then AddedByAnswer(s, s.flight.value.task, outcome, now) else []
    case _ => if s.view.snapshot.Some? then AddedByClick(s, s.view.snapshot.value.id, tick.event, now) else []
  }

  /** The events after which nothing of what was queued is left. */
  predicate EmptiesQueue(s: Client, e: Event) {
    || Fr.Supersedes(e)
    || (e.TransportSettles? && Live(s) && (Fails(s.flight.value.task, e.outcome) || StartsOver(e.outcome)))
  }

  /** What there is to do after an event, besides a query that is still in flight. */
  function Todo(s: Client, tick: Tick): seq<Task> {
    (if EmptiesQueue(s, tick.event) then [] else s.queue) + Added(s, tick)
  }

  // ----- the scheduler

  predicate IsFirstReady(w: seq<Task>, now: int, i: nat) {
    i < |w| && w[i].readyAt <= now && forall k :: 0 <= k < i ==> w[k].readyAt > now
  }

  predicate NothingReady(w: seq<Task>, now: int) { forall i :: 0 <= i < |w| ==> w[i].readyAt > now }

  predicate IsEarliest(w: seq<Task>, at: int) {
    (exists i :: 0 <= i < |w| && w[i].readyAt == at) && forall i :: 0 <= i < |w| ==> at <= w[i].readyAt
  }

  /** A client without a query in flight and with `w` to do runs its scheduler: the first task that is ready is
      sent; if none is, and no timer is armed yet, one is armed for the earliest. A hidden page does neither. */
  ghost predicate TakesOff(w: seq<Task>, hidden: bool, wake: Option<int>, now: int, t: Client) {
    if hidden || NothingReady(w, now) then
      && t.flight.None? && !t.draining && t.queue == w
      && (if hidden || w == [] || wake.Some? then t.wake == wake else t.wake.Some? && IsEarliest(w, t.wake.value))
    else
      (exists i: nat :: IsFirstReady(w, now, i) && Sends(w, i, t)) && t.wake == wake
  }

  predicate Sends(w: seq<Task>, i: nat, t: Client)
    requires i < |w|
  {
    t.flight == Some(Flight(w[i], false)) && t.queue == w[..i] + w[i + 1..] && t.draining
  }

  /** Nothing superseded is to be done. */
  predicate AllCurrent(q: seq<Task>, revision: nat) { forall i :: 0 <= i < |q| ==> q[i].revision == revision }

  lemma {:induction false} EarliestIsEarliest(q: seq<Task>)
    requires q != []
    ensures IsEarliest(q, EarliestReady(q))
  {
    if |q| > 1 {
      var rest := q[1..];
      EarliestIsEarliest(rest);
      var k :| 0 <= k < |rest| && rest[k].readyAt == EarliestReady(rest);
      assert q[k + 1] == rest[k];
      forall i | 0 <= i < |q| ensures EarliestReady(q) <= q[i].readyAt { if i > 0 { assert q[i] == rest[i - 1]; } }
      if q[0].readyAt < EarliestReady(rest) { assert q[0].readyAt == EarliestReady(q); }
    } else {
      assert q[0].readyAt == EarliestReady(q);
    }
  }

  lemma ReadyMeans(q: seq<Task>, now: int)
    ensures SomeReady(q, now) <==> !NothingReady(q, now)
    ensures SomeReady(q, now) ==> IsFirstReady(q, now, FirstReady(q, now))
  {
    if SomeReady(q, now) {
      var i := FirstReady(q, now);
      forall k | 0 <= k < i ensures q[k].readyAt > now { assert q[..i][k] == q[k]; }
    }
  }

  lemma LoopTakesOff(s: Client, now: int)
    requires Applying(s) && AllCurrent(s.queue, s.revision)
    ensures TakesOff(s.queue, s.hidden, s.wake, now, DrainLoop(s, now))
    ensures DrainLoop(s, now).waiters == if s.queue == [] then 0 else s.waiters
  {
    ReadyMeans(s.queue, now);
    if Drainable(s, now) {
      hide IsFirstReady, NothingReady, IsEarliest;
      var i := FirstReady(s.queue, now);
      assert s.queue[i].revision == s.revision;
    } else {
      assert DrainLoop(s, now) == DrainEnds(s, now);
      if s.queue != [] {
        EarliestIsEarliest(s.queue);
        assert DrainEnds(s, now) == ScheduleDrain(s.(draining := false), now);
      }
      hide IsEarliest;
    }
  }

  lemma ScheduleTakesOff(s: Client, now: int)
    requires s.flight.None? && !s.draining && AllCurrent(s.queue, s.revision)
    ensures TakesOff(s.queue, s.hidden, s.wake, now, ScheduleDrain(s, now)) && ScheduleDrain(s, now).waiters == s.waiters
  {
    ReadyMeans(s.queue, now);
    hide DrainLoop, IsFirstReady, IsEarliest, NothingReady;
    if s.queue == [] {
      assert NothingReady(s.queue, now) by { NothingToDo(now); }
    } else if !s.hidden && SomeReady(s.queue, now) {
      hide TakesOff;
      LoopTakesOff(s.(draining := true), now);
    } else {
      EarliestIsEarliest(s.queue);
    }
  }

  lemma NothingToDo(now: int)
    ensures NothingReady([], now)
  {
  }

  /** A client that has `w` to do and has run its scheduler; a query in flight keeps it from doing anything. */
  ghost predicate Scheduled(u: Client, w: seq<Task>, now: int, t: Client) {
    && t.waiters == u.waiters
    && if u.flight.Some? then t.queue == w && t.flight == u.flight && t.wake == u.wake && t.draining
       else TakesOff(w, u.hidden, u.wake, now, t)
  }

  lemma ScheduleSchedules(s: Client, now: int)
    requires SingleFlight(s) && AllCurrent(s.queue, s.revision)
    ensures Scheduled(s, s.queue, now, ScheduleDrain(s, now))
  {
    hide TakesOff, DrainLoop;
    if s.flight.None? { ScheduleTakesOff(s, now); }
  }

  lemma EnqueueSchedules(s: Client, task: Task, now: int)
    requires SingleFlight(s) && AllCurrent(s.queue, s.revision) && task.revision == s.revision
    ensures Scheduled(s, s.queue + [task], now, Enqueue(s, task, now))
  {
    hide TakesOff, ScheduleDrain;
    ScheduleSchedules(s.(queue := s.queue + [task]), now);
  }

  lemma EnqueueAppends(s: Client, task: Task, now: int)
    requires s.draining
    ensures Enqueue(s, task, now) == s.(queue := s.queue + [task])
  {
    hide DrainLoop;
  }

  lemma QueryAppends(s: Client, purpose: Purpose, traceId: Option<string>, spanId: Option<string>, cursor: Option<Cursor>,
                     page: nat, delay: nat, now: int)
    requires s.draining && s.view.snapshot.Some?
    ensures EnqueueBound(s, purpose, traceId, spanId, cursor, page, delay, now)
            == s.(queue := s.queue + [Query(s.revision, s.view.filters, s.view.snapshot.value.id, purpose, traceId, spanId,
                                            cursor, page, now + delay)])
  {
    hide Enqueue;
    EnqueueAppends(s, BoundTask(s, s.view.snapshot.value, purpose, traceId, spanId, cursor, page, now + delay), now);
  }

  lemma QuerySchedules(s: Client, purpose: Purpose, traceId: Option<string>, spanId: Option<string>,
                       cursor: Option<Cursor>, page: nat, now: int)
    requires SingleFlight(s) && AllCurrent(s.queue, s.revision) && s.view.snapshot.Some?
    ensures var task := Query(s.revision, s.view.filters, s.view.snapshot.value.id, purpose, traceId, spanId, cursor, page, now);
            Scheduled(s, s.queue + [task], now, EnqueueBound(s, purpose, traceId, spanId, cursor, page, 0, now))
  {
    hide Enqueue, Scheduled;
    EnqueueSchedules(s, BoundTask(s, s.view.snapshot.value, purpose, traceId, spanId, cursor, page, now), now);
  }

  lemma InitialQueriesAppend(s: Client, now: int)
    requires s.draining && s.view.snapshot.Some?
    ensures var r := EnqueueInitialQueries(s, now);
            r == s.(queue := s.queue + InitialQueries(s.revision, s.view.filters, s.view.snapshot.value.id, now),
                    view := s.view.(summary := SummaryPending))
  {
    hide EnqueueBound;
    QueryAppends(s, Traces, None, None, None, 0, 0, now);
    var t := EnqueueBound(s, Traces, None, None, None, 0, 0, now);
    QueryAppends(t, FacetQuery, None, None, None, 0, 0, now);
    var f := EnqueueBound(t, FacetQuery, None, None, None, 0, 0, now);
    QueryAppends(f.(view := f.view.(summary := SummaryPending)), SummaryQuery, None, None, None, 0, 0, now);
  }

  /** With nothing else to do the first of the three is sent at once, and the others wait for it. */
  lemma InitialQueriesSchedule(s: Client, now: int)
    requires SingleFlight(s) && s.queue == [] && s.view.snapshot.Some?
    ensures Scheduled(s, InitialQueries(s.revision, s.view.filters, s.view.snapshot.value.id, now), now,
                      EnqueueInitialQueries(s, now))
  {
    if s.draining {
      hide EnqueueInitialQueries;
      InitialQueriesAppend(s, now);
    } else {
      var id := s.view.snapshot.value.id;
      var w := InitialQueries(s.revision, s.view.filters, id, now);
      QuerySchedules(s, Traces, None, None, None, 0, now);
      Fr.EnqueueBoundFrame(s, Traces, None, None, None, 0, 0, now);
      assert s.queue + [w[0]] == [w[0]];
      FirstOfOne(s, w[0], EnqueueBound(s, Traces, None, None, None, 0, 0, now), now);
      hide Scheduled, EnqueueBound;
      RestFollows(s, EnqueueBound(s, Traces, None, None, None, 0, 0, now), w, now);
    }
  }

  /** The first of the queries has been dealt with in `t`; the others join the queue. */
  lemma RestFollows(s: Client, t: Client, w: seq<Task>, now: int)
    requires s.view.snapshot.Some? && s.flight.None? && w == InitialQueries(s.revision, s.view.filters, s.view.snapshot.value.id, now)
    requires SameButScheduling(s, t) && t == EnqueueBound(s, Traces, None, None, None, 0, 0, now)
    requires t.waiters == s.waiters
    requires if s.hidden then t.flight.None? && !t.draining && t.queue == [w[0]] && t.wake == s.wake
             else t.flight == Some(Flight(w[0], false)) && t.queue == [] && t.draining && t.wake == s.wake
    ensures Scheduled(s, w, now, EnqueueInitialQueries(s, now))
  {
    hide EnqueueBound;
    var f := EnqueueBound(t, FacetQuery, None, None, None, 0, 0, now);
    var p := f.(view := f.view.(summary := SummaryPending));
    if s.hidden {
      HiddenAppends(t, FacetQuery, now);
      HiddenAppends(p, SummaryQuery, now);
      assert [w[0]] + [w[1]] + [w[2]] == w;
    } else {
      QueryAppends(t, FacetQuery, None, None, None, 0, 0, now);
      QueryAppends(p, SummaryQuery, None, None, None, 0, 0, now);
      assert IsFirstReady(w, now, 0);
      assert w[..0] + w[1..] == [] + [w[1]] + [w[2]];
      assert Sends(w, 0, EnqueueInitialQueries(s, now));
    }
  }

  lemma FirstOfOne(s: Client, task: Task, t: Client, now: int)
    requires s.flight.None? && Scheduled(s, [task], now, t) && task.readyAt <= now
    ensures t.waiters == s.waiters
    ensures if s.hidden then t.flight.None? && !t.draining && t.queue == [task] && t.wake == s.wake
            else t.flight == Some(Flight(task, false)) && t.queue == [] && t.draining && t.wake == s.wake
  {
    assert !NothingReady([task], now) by { assert [task][0].readyAt <= now; }
    if !s.hidden {
      var i: nat :| IsFirstReady([task], now, i) && Sends([task], i, t);
      assert i == 0 && [task][..0] + [task][1..] == [];
    }
  }

  lemma HiddenAppends(s: Client, purpose: Purpose, now: int)
    requires s.hidden && s.view.snapshot.Some?
    ensures EnqueueBound(s, purpose, None, None, None, 0, 0, now)
            == s.(queue := s.queue + [Query(s.revision, s.view.filters, s.view.snapshot.value.id, purpose, None, None, None, 0, now)])
  {
  }

  // ----- every step

  /** The events after which the scheduler runs. */
  predicate Stirs(s: Client, tick: Tick) {
    var e := tick.event;
    Added(s, tick) != [] || e.Show? || (e.TimerFires? && s.wake.Some?) || (e.TransportSettles? && s.flight.Some?)
  }

  /** The timer that is still armed when the scheduler comes to run. */
  function WakeBefore(s: Client, e: Event): Option<int> {
    if Fr.Supersedes(e) || e.TimerFires? then None else s.wake
  }

  /** Who waits for the work to end afterwards: the end of the loop, when nothing is left to do, releases everybody,
      and so does a dispose; a caller of settled() joins unless there is nothing to wait for. */
  function WaitersAfter(s: Client, tick: Tick): nat {
    match tick.event
    case Dispose => 0
    case Settled => if s.flight.None? && s.queue == [] && s.wake.None? then s.waiters else s.waiters + 1
    case TransportSettles(_) => if s.flight.Some? && Todo(s, tick) == [] then 0 else s.waiters
    case _ => s.waiters
  }

  predicate HiddenAfter(s: Client, e: Event) { e.Hide? || (s.hidden && !e.Show?) }

  /** What there is to do and what is done of it, from one state to the next: `t` follows `s`. */
  ghost predicate Follows(s: Client, tick: Tick, t: Client) {
    var e, w := tick.event, Todo(s, tick);
    && t.revision == (if Fr.Supersedes(e) then s.revision + 1 else s.revision)
    && t.hidden == HiddenAfter(s, e) && t.waiters == WaitersAfter(s, tick)
    && if s.flight.Some? && !e.TransportSettles? then
         && t.queue == w && t.draining && t.wake == WakeBefore(s, e)
         && t.flight == Some(Flight(s.flight.value.task, Fr.Supersedes(e) || s.flight.value.aborted))
       else if Stirs(s, tick) then TakesOff(w, HiddenAfter(s, e), WakeBefore(s, e), tick.now, t)
       else t.queue == w && t.wake == WakeBefore(s, e) && t.flight.None? && !t.draining
  }

  lemma InvSchedules(s: Client)
    requires Core(s)
    ensures AllCurrent(s.queue, s.revision)
  {
    hide F.WithinLimit;
    forall i | 0 <= i < |s.queue| ensures s.queue[i].revision == s.revision {
      assert BoundTo(PresentOf(s), s.queue[i]);
    }
  }

  lemma AbortRaises(s: Client)
    requires Inv(s)
    ensures s.draining <==> s.flight.Some?
    ensures s.flight.Some? ==> Abort(s).flight == Some(Flight(s.flight.value.task, true))
    ensures s.flight.None? ==> Abort(s).flight.None?
  {
    hide F.WithinLimit, AllBound, BoundTo;
  }

  /** The client after start, refresh, setFilters or dispose, before anything is asked for. */
  predicate Cleared(s: Client, u: Client) {
    && u.queue == [] && u.wake.None? && u.revision == s.revision + 1 && u.hidden == s.hidden && u.draining == s.draining
    && u.waiters == s.waiters
    && (if s.flight.Some? then u.flight == Some(Flight(s.flight.value.task, true)) else u.flight.None?)
  }

  lemma InvalidateClears(s: Client)
    requires Inv(s)
    ensures Cleared(s, Invalidate(s)) && SingleFlight(Invalidate(s))
  {
    AbortRaises(s);
    hide F.WithinLimit, AllBound, BoundTo;
  }

  lemma SupersedingFollows(s: Client, tick: Tick, u: Client)
    requires Fr.Supersedes(tick.event) && !tick.event.Dispose? && Cleared(s, u)
    requires Scheduled(u, Added(s, tick), tick.now, Step(s, tick)) && Added(s, tick) != []
    requires Step(s, tick).revision == u.revision && Step(s, tick).hidden == u.hidden
    ensures Follows(s, tick, Step(s, tick))
  {
    hide Step, TakesOff, Added;
    assert Todo(s, tick) == Added(s, tick);
  }

  lemma RestartFollows(s: Client, tick: Tick)
    requires Inv(s) && (tick.event.Start? || tick.event.Refresh?)
    ensures Follows(s, tick, Step(s, tick))
  {
    InvalidateClears(s);
    hide Inv, Invalidate, Enqueue, N.Normalize, Scheduled, Follows;
    var i := ClearPrivateDetail(Invalidate(s).(traceCursors := [None], spanCursors := [None], selectedSpanRequestId := None));
    var u := i.(view := InitialView(N.Normalize(s.view.filters)));
    var task := BootstrapTask(u, tick.now);
    assert u.queue + [task] == [task];
    EnqueueSchedules(u, task, tick.now);
    Fr.EnqueueFrame(u, task, tick.now);
    SupersedingFollows(s, tick, u);
  }

  /** The client that has taken new filters and asked for nothing yet. */
  function Refiltered(s: Client, filters: N.Filters): Client {
    var i := Invalidate(s).(traceCursors := [None], spanCursors := [None], selectedSpanRequestId := None);
    i.(view := Fr.FilteredView(i.view, filters))
  }

  lemma RefilteredIsCleared(s: Client, filters: N.Filters)
    requires Inv(s)
    ensures var u := Refiltered(s, filters);
            && Cleared(s, u) && SingleFlight(u)
            && u.view.snapshot == s.view.snapshot && u.view.filters == N.Normalize(filters)
  {
    InvalidateClears(s);
    hide Inv, N.Normalize;
  }

  lemma ChangeFiltersIs(s: Client, filters: N.Filters, now: int)
    ensures var u := Refiltered(s, filters);
            ChangeFilters(s, filters, now) ==
              if s.view.snapshot.None? then EnqueueBootstrap(u, 0, now) else EnqueueInitialQueries(u, now)
  {
    hide EnqueueBootstrap, EnqueueInitialQueries, N.Normalize;
  }

  lemma FiltersFollow(s: Client, tick: Tick)
    requires Inv(s) && tick.event.SetFilters?
    ensures Follows(s, tick, Step(s, tick))
  {
    var filters := tick.event.filters;
    RefilteredIsCleared(s, filters);
    ChangeFiltersIs(s, filters, tick.now);
    hide Inv, ChangeFilters, Refiltered, Enqueue, EnqueueInitialQueries, N.Normalize, Scheduled, Follows, InitialQueries, Cleared;
    var u := Refiltered(s, filters);
    ClearedIsEmpty(s, u);
    if s.view.snapshot.None? {
      var task := BootstrapTask(u, tick.now);
      assert u.queue + [task] == [task];
      EnqueueSchedules(u, task, tick.now);
      Fr.EnqueueBootstrapFrame(u, 0, tick.now);
    } else {
      InitialQueriesSchedule(u, tick.now);
      Fr.EnqueueInitialFrame(u, tick.now);
      ThreeQueries(s, tick);
    }
    SupersedingFollows(s, tick, u);
  }

  lemma ClearedIsEmpty(s: Client, u: Client)
    requires Cleared(s, u)
    ensures u.queue == [] && u.revision == s.revision + 1 && u.hidden == s.hidden
  {
  }

  lemma ThreeQueries(s: Client, tick: Tick)
    requires tick.event.SetFilters? && s.view.snapshot.Some?
    ensures Added(s, tick) != []
  {
  }

  lemma DisposeFollows(s: Client, tick: Tick)
    requires Inv(s) && tick.event.Dispose?
    ensures Follows(s, tick, Step(s, tick))
  {
    InvalidateClears(s);
    hide Inv, Invalidate;
  }

  /** An event that supersedes nothing and makes the scheduler run. */
  lemma StirredFollows(s: Client, tick: Tick, u: Client, t: Client)
    requires !Fr.Supersedes(tick.event) && !tick.event.TransportSettles? && Stirs(s, tick)
    requires !tick.event.Settled? && u.waiters == s.waiters
    requires u.flight == s.flight && u.wake == WakeBefore(s, tick.event) && u.hidden == HiddenAfter(s, tick.event)
    requires Scheduled(u, Todo(s, tick), tick.now, t)
    requires t.revision == s.revision && t.hidden == u.hidden
    ensures Follows(s, tick, t)
  {
    hide TakesOff, Todo, Stirs;
  }

  // ----- clicks

  /** A click that adds one query to the work of an otherwise unchanged client. */
  lemma ClickFollows(s: Client, tick: Tick, u: Client, purpose: Purpose, traceId: Option<string>, spanId: Option<string>,
                     cursor: Option<Cursor>, page: nat)
    requires Inv(s) && Fr.Navigates(tick.event) && s.view.snapshot.Some?
    requires u.queue == s.queue && u.flight == s.flight && u.wake == s.wake && u.hidden == s.hidden
    requires u.revision == s.revision && u.draining == s.draining && u.waiters == s.waiters
    requires u.view.snapshot == s.view.snapshot && u.view.filters == s.view.filters
    requires Step(s, tick) == EnqueueBound(u, purpose, traceId, spanId, cursor, page, 0, tick.now)
    requires Added(s, tick) ==
               [Query(s.revision, s.view.filters, s.view.snapshot.value.id, purpose, traceId, spanId, cursor, page, tick.now)]
    ensures Follows(s, tick, Step(s, tick))
  {
    InvSchedules(s);
    AbortRaises(s);
    hide Inv, Step, EnqueueBound, Scheduled, Added, Follows;
    QuerySchedules(u, purpose, traceId, spanId, cursor, page, tick.now);
    Fr.EnqueueBoundFrame(u, purpose, traceId, spanId, cursor, page, 0, tick.now);
    StirredFollows(s, tick, u, Step(s, tick));
  }

  /** A click that is not served. */
  lemma NothingFollows(s: Client, tick: Tick)
    requires Inv(s) && !Fr.Supersedes(tick.event) && Added(s, tick) == []
    requires !tick.event.Show? && !tick.event.Hide? && !tick.event.TimerFires? && !tick.event.TransportSettles?
    requires var t := Step(s, tick);
             && t.queue == s.queue && t.flight == s.flight && t.wake == s.wake && t.hidden == s.hidden
             && t.revision == s.revision && t.draining == s.draining && t.waiters == WaitersAfter(s, tick)
    ensures Follows(s, tick, Step(s, tick))
  {
    AbortRaises(s);
    hide Inv, Step, TakesOff, Added;
  }

  lemma SelectTraceFollows(s: Client, tick: Tick)
    requires Inv(s) && tick.event.SelectTrace?
    ensures Follows(s, tick, Step(s, tick))
  {
    hide Inv, EnqueueBound, Follows, IsProjectedId;
    var id := tick.event.traceId;
    if s.view.snapshot.Some? && IsProjectedId(id) {
      var c := ClearPrivateDetail(s.(spanCursors := [None], selectedSpanRequestId := None));
      var u := c.(view := c.view.(selectedTraceId := Some(id), selectedSpan := None, spans := EmptyPage(),
                                  availability := AvailabilityOf(s.view.snapshot.value), reason := None));
      ClickFollows(s, tick, u, Spans, Some(id), None, None, 0);
    } else {
      NothingFollows(s, tick);
    }
  }

  lemma SelectSpanFollows(s: Client, tick: Tick)
    requires Inv(s) && tick.event.SelectSpan?
    ensures Follows(s, tick, Step(s, tick))
  {
    hide Inv, EnqueueBound, Follows, IsProjectedId;
    var id := tick.event.spanId;
    var u := ClearPrivateDetail(s).(selectedSpanRequestId := Some(id));
    if s.view.selectedTraceId.Some? && IsProjectedId(id) && s.view.snapshot.Some? {
      ClickFollows(s, tick, u, SpanQuery, s.view.selectedTraceId, Some(id), None, 0);
    } else {
      NoSnapshotNoQuery(u, SpanQuery, s.view.selectedTraceId, Some(id), None, 0, tick.now);
      NothingFollows(s, tick);
    }
  }

  lemma NoSnapshotNoQuery(u: Client, purpose: Purpose, traceId: Option<string>, spanId: Option<string>,
                          cursor: Option<Cursor>, page: nat, now: int)
    ensures u.view.snapshot.None? ==> EnqueueBound(u, purpose, traceId, spanId, cursor, page, 0, now) == u
  {
  }

  lemma TracesForwardFollows(s: Client, tick: Tick)
    requires Inv(s) && tick.event.NextTraces?
    ensures Follows(s, tick, Step(s, tick))
  {
    hide Inv, EnqueueBound, Follows, Push;
    var c := s.view.traces.nextCursor;
    if c.Some? {
      var u := s.(traceCursors := Push(s.traceCursors, c.value));
      if s.view.snapshot.Some? {
        ClickFollows(s, tick, u, Traces, None, None, c, s.view.traces.page + 1);
      } else {
        NoSnapshotNoQuery(u, Traces, None, None, c, s.view.traces.page + 1, tick.now);
        NothingFollows(s, tick);
      }
    } else {
      NothingFollows(s, tick);
    }
  }

  lemma TracesBackFollows(s: Client, tick: Tick)
    requires Inv(s) && tick.event.PreviousTraces?
    ensures Follows(s, tick, Step(s, tick))
  {
    hide Inv, EnqueueBound, Follows;
    if |s.traceCursors| > 1 {
      var u := s.(traceCursors := s.traceCursors[..|s.traceCursors| - 1]);
      if s.view.snapshot.Some? {
        ClickFollows(s, tick, u, Traces, None, None, Last(u.traceCursors), PageBefore(s.view.traces.page));
      } else {
        NoSnapshotNoQuery(u, Traces, None, None, Last(u.traceCursors), PageBefore(s.view.traces.page), tick.now);
        NothingFollows(s, tick);
      }
    } else {
      NothingFollows(s, tick);
    }
  }

  lemma SpansForwardFollows(s: Client, tick: Tick)
    requires Inv(s) && tick.event.NextSpans?
    ensures Follows(s, tick, Step(s, tick))
  {
    hide Inv, EnqueueBound, Follows, Push;
    var trace, c := s.view.selectedTraceId, s.view.spans.nextCursor;
    if trace.Some? && c.Some? {
      var u := s.(spanCursors := Push(s.spanCursors, c.value));
      if s.view.snapshot.Some? {
        ClickFollows(s, tick, u, Spans, trace, None, c, s.view.spans.page + 1);
      } else {
        NoSnapshotNoQuery(u, Spans, trace, None, c, s.view.spans.page + 1, tick.now);
        NothingFollows(s, tick);
      }
    } else {
      NothingFollows(s, tick);
    }
  }

  lemma SpansBackFollows(s: Client, tick: Tick)
    requires Inv(s) && tick.event.PreviousSpans?
    ensures Follows(s, tick, Step(s, tick))
  {
    hide Inv, EnqueueBound, Follows;
    var trace := s.view.selectedTraceId;
    if trace.Some? && |s.spanCursors| > 1 {
      var u := s.(spanCursors := s.spanCursors[..|s.spanCursors| - 1]);
      if s.view.snapshot.Some? {
        ClickFollows(s, tick, u, Spans, trace, None, Last(u.spanCursors), PageBefore(s.view.spans.page));
      } else {
        NoSnapshotNoQuery(u, Spans, trace, None, Last(u.spanCursors), PageBefore(s.view.spans.page), tick.now);
        NothingFollows(s, tick);
      }
    } else {
      NothingFollows(s, tick);
    }
  }

  // ----- the other events

  lemma DetailFollows(s: Client, tick: Tick)
    requires Inv(s) && (tick.event.LoadPrivateDetail? || tick.event.DetailSettles?)
    ensures Follows(s, tick, Step(s, tick))
  {
    hide Inv, PrivateDetailSettles, StartPrivateDetail, Without, Follows;
    if tick.event.LoadPrivateDetail? {
      Fr.StartPrivateDetailFrame(s);
    } else if tick.event.call < |s.detailCalls| {
      Fr.PrivateDetailFrame(s.(detailCalls := Without(s.detailCalls, tick.event.call)), s.detailCalls[tick.event.call],
                           tick.event.detailOutcome);
    }
    NothingFollows(s, tick);
  }

  lemma RestFollowsNothing(s: Client, tick: Tick)
    requires Inv(s) && (tick.event.ClearSelectedDetail? || tick.event.Settled?)
    ensures Follows(s, tick, Step(s, tick))
  {
    AbortRaises(s);
    hide Inv, Follows;
    NothingFollows(s, tick);
  }

  lemma ShowFollows(s: Client, tick: Tick)
    requires Inv(s) && tick.event.Show?
    ensures Follows(s, tick, Step(s, tick))
  {
    InvSchedules(s);
    AbortRaises(s);
    hide Inv, ScheduleDrain, Scheduled, Follows;
    assert s.queue + [] == s.queue;
    ScheduleSchedules(s.(hidden := false), tick.now);
    Fr.ScheduleDrainFrame(s.(hidden := false), tick.now);
    StirredFollows(s, tick, s.(hidden := false), Step(s, tick));
  }

  lemma TimerFollows(s: Client, tick: Tick)
    requires Inv(s) && tick.event.TimerFires?
    ensures Follows(s, tick, Step(s, tick))
  {
    InvSchedules(s);
    AbortRaises(s);
    hide Inv, ScheduleDrain, Scheduled, Follows;
    assert s.queue + [] == s.queue;
    if s.wake.None? {
      UnarmedFollows(s, tick);
    } else {
      ScheduleSchedules(s.(wake := None), tick.now);
      Fr.ScheduleDrainFrame(s.(wake := None), tick.now);
      StirredFollows(s, tick, s.(wake := None), Step(s, tick));
    }
  }

  lemma UnarmedFollows(s: Client, tick: Tick)
    requires Inv(s) && tick.event.TimerFires? && s.wake.None?
    ensures Follows(s, tick, Step(s, tick))
  {
    AbortRaises(s);
    hide Inv, TakesOff, ScheduleDrain;
    assert s.queue + [] == s.queue;
  }

  lemma HideFollows(s: Client, tick: Tick)
    requires Inv(s) && tick.event.Hide?
    ensures Follows(s, tick, Step(s, tick))
  {
    AbortRaises(s);
    hide Inv, TakesOff;
    assert s.queue + [] == s.queue;
  }

  // ----- answers

  lemma StatusAppends(s: Client, task: Task, r: Reason, now: int)
    requires Applying(s) && task.revision == s.revision
    ensures var u, outcome := ApplyStatus(s, task, r, now), Resolved(StatusResponse(r));
            u.queue == (if Fails(task, outcome) || StartsOver(outcome) then [] else s.queue) + AddedByAnswer(s, task, outcome, now)
  {
    hide Enqueue;
    if r.Busy? || r.BuildingSnapshot? {
      var v := s.view.(availability := if r.Busy? then s.view.availability else Building, reason := Some(Status(r)));
      EnqueueAppends(s.(view := v), task.(readyAt := now + s.backoff), now);
    } else if r.RefreshIsPending? {
      var c := ClearPrivateDetail(s);
      var u := c.(view := InitialView(c.view.filters).(availability := RefreshPending, reason := Some(Status(r))), queue := []);
      EnqueueAppends(u, BootstrapTask(u, now + s.backoff), now);
    }
  }

  lemma FacetsAppend(s: Client, task: Task, r: Response, now: int)
    requires Applying(s) && r.DataResponse? && !Fails(task, Resolved(r)) && s.view.snapshot == Some(r.snapshot) && r.body.FacetsBody?
    ensures ApplyBody(s, task, r.body, now).queue == s.queue + AddedByAnswer(s, task, Resolved(r), now)
  {
    hide EnqueueBound, F.Apply, Fails;
    var list := F.Apply(F.FacetList(s.view.facets, s.view.facetsLimited), r.body.facetRows, FacetLimit(s.view));
    var u := s.(view := s.view.(facets := list.rows, facetsLimited := list.limited));
    if r.body.facetCursor.Some? {
      QueryAppends(u, FacetQuery, None, None, r.body.facetCursor, task.page + 1, SmallBackoff(s), now);
    }
  }

  lemma SummaryAppends(s: Client, task: Task, r: Response, now: int)
    requires Applying(s) && r.DataResponse? && !Fails(task, Resolved(r)) && s.view.snapshot == Some(r.snapshot) && r.body.SummaryBody?
    ensures ApplyBody(s, task, r.body, now).queue == s.queue + AddedByAnswer(s, task, Resolved(r), now)
  {
    hide EnqueueBound, Fails;
    QueryAppends(s.(view := s.view.(summary := SummaryPending)), SummaryQuery, None, None, r.body.summaryCursor, 0, SmallBackoff(s), now);
  }

  lemma BodyAppends(s: Client, task: Task, r: Response, now: int)
    requires Applying(s) && r.DataResponse? && !Fails(task, Resolved(r)) && s.view.snapshot == Some(r.snapshot)
    ensures ApplyBody(s, task, r.body, now).queue == s.queue + AddedByAnswer(s, task, Resolved(r), now)
  {
    match r.body {
      case SummaryBody(_, _) => SummaryAppends(s, task, r, now);
      case FacetsBody(_, _) => FacetsAppend(s, task, r, now);
      case BootstrapBody(limit) =>
        hide EnqueueInitialQueries, Fails;
        InitialQueriesAppend(s.(view := s.view.(facetLimit := Some(limit))), now);
      case _ => hide Fails, ApplySummary, ApplyFacets, EnqueueInitialQueries;
    }
  }

  lemma ResponseAppends(s: Client, task: Task, r: Response, now: int)
    requires Applying(s) && task.revision == s.revision
    ensures var u, outcome := ApplyResponse(s, task, r, now), Resolved(r);
            u.queue == (if Fails(task, outcome) || StartsOver(outcome) then [] else s.queue) + AddedByAnswer(s, task, outcome, now)
  {
    hide ApplyStatus, ApplyBody;
    match r {
      case StatusResponse(status) => StatusAppends(s, task, status, now);
      case DataResponse(snapshot, coldExcluded, body) =>
        if !Fails(task, Resolved(r)) {
          var v := s.view.(snapshot := Some(snapshot), coldExcluded := Some(coldExcluded),
                           availability := AvailabilityOf(snapshot),
                           reason := if coldExcluded then Some(ColdExcluded) else None);
          BodyAppends(s.(view := v), task, r, now);
          SameAdded(s, s.(view := v), task, Resolved(r), now);
        }
    }
  }

  lemma SameAdded(s: Client, t: Client, task: Task, outcome: Outcome, now: int)
    requires t.revision == s.revision && t.view.filters == s.view.filters && t.backoff == s.backoff && t.autoLoad == s.autoLoad
    ensures AddedByAnswer(t, task, outcome, now) == AddedByAnswer(s, task, outcome, now)
  {
    hide Fails;
  }

  /** The loop goes on with what an answer has left and added. */
  lemma LoopFollows(s: Client, tick: Tick, u: Client)
    requires tick.event.TransportSettles? && s.flight.Some?
    requires Applying(u) && AllCurrent(u.queue, u.revision) && u.queue == Todo(s, tick)
    requires u.revision == s.revision && u.hidden == s.hidden && u.wake == s.wake && u.waiters == s.waiters
    requires Step(s, tick) == DrainLoop(u, tick.now)
    ensures Follows(s, tick, Step(s, tick))
  {
    hide Step, DrainLoop, TakesOff, Todo;
    LoopTakesOff(u, tick.now);
    Fr.DrainLoopFrame(u, tick.now);
  }

  lemma SettlingFollows(s: Client, tick: Tick)
    requires Inv(s) && tick.event.TransportSettles?
    ensures Follows(s, tick, Step(s, tick))
  {
    InvSchedules(s);
    AbortRaises(s);
    var outcome := tick.event.outcome;
    if s.flight.None? {
      assert s.queue + [] == s.queue;
    } else {
      var flight := s.flight.value;
      var landed := s.(flight := None, controller := s.controller && flight.aborted);
      assert Live(s) ==> !flight.aborted && BoundTo(PresentOf(s), flight.task) && (s.view.snapshot.None? ==> s.queue == []) by {
        hide F.WithinLimit;
      }
      assert Core(landed) && Applying(landed) by { hide F.WithinLimit; }
      hide Inv, Core, Follows, DrainLoop, ApplyResponse, AddedByAnswer, Fails, BoundTo;
      if !Live(s) {
        assert s.queue + [] == s.queue;
        LoopFollows(s, tick, landed);
      } else {
        LiveAnswerFollows(s, landed, tick);
      }
    }
  }

  lemma LiveAnswerFollows(s: Client, landed: Client, tick: Tick)
    requires tick.event.TransportSettles? && Live(s) && !s.flight.value.aborted
    requires landed == s.(flight := None, controller := s.controller && s.flight.value.aborted)
    requires Core(landed) && Applying(landed) && BoundTo(PresentOf(landed), s.flight.value.task)
    requires s.view.snapshot.None? ==> s.queue == []
    ensures Follows(s, tick, Step(s, tick))
  {
    var outcome, task := tick.event.outcome, s.flight.value.task;
    hide Core, Follows, DrainLoop, ApplyResponse, BoundTo, AddedByAnswer;
    SettledCoreHolds(landed, task, outcome, tick.now);
    var applied := ApplyOutcome(landed, Flight(task, false), outcome, tick.now);
    InvSchedules(applied);
    Fr.ApplyOutcomeFrame(landed, Flight(task, false), outcome, tick.now);
    match outcome {
      case Resolved(r) =>
        ResponseAppends(landed, task, r, tick.now);
        SameAdded(s, landed, task, outcome, tick.now);
      case Rejected(_, _, _) =>
        NothingAdded(s, task, outcome, tick.now);
    }
    LoopFollows(s, tick, applied);
  }

  lemma NothingAdded(s: Client, task: Task, outcome: Outcome, now: int)
    requires outcome.Rejected?
    ensures AddedByAnswer(s, task, outcome, now) == []
  {
  }

  lemma SettledCoreHolds(s: Client, task: Task, outcome: Outcome, now: int)
    requires Core(s) && Applying(s) && BoundTo(PresentOf(s), task)
    requires task.revision == s.revision && (s.view.snapshot.None? ==> s.queue == [])
    ensures var a := ApplyOutcome(s, Flight(task, false), outcome, now); Core(a) && Applying(a)
  {
    hide Core, ApplyResponse, QueryFailed, BoundTo;
    match outcome
    case Resolved(r) => ApplyResponseKeeps(s, task, r, now);
    case Rejected(isAbort, overCapacity, message) => QueryFailedKeeps(s, overCapacity, Reported(message));
  }

  /** Every step adds exactly the requests listed above, in their order, to what it leaves of the queue, and then
      the scheduler does the one thing that it can do with them. */
  lemma StepFollows(s: Client, tick: Tick)
    requires Inv(s)
    ensures Follows(s, tick, Step(s, tick))
  {
    hide Inv, Step, Follows;
    match tick.event
    case Start => RestartFollows(s, tick);
    case Refresh => RestartFollows(s, tick);
    case SetFilters(_) => FiltersFollow(s, tick);
    case Dispose => DisposeFollows(s, tick);
    case SelectTrace(_) => SelectTraceFollows(s, tick);
    case SelectSpan(_) => SelectSpanFollows(s, tick);
    case NextTraces => TracesForwardFollows(s, tick);
    case PreviousTraces => TracesBackFollows(s, tick);
    case NextSpans => SpansForwardFollows(s, tick);
    case PreviousSpans => SpansBackFollows(s, tick);
    case LoadPrivateDetail => DetailFollows(s, tick);
    case DetailSettles(_, _) => DetailFollows(s, tick);
    case TransportSettles(_) => SettlingFollows(s, tick);
    case ClearSelectedDetail => RestFollowsNothing(s, tick);
    case Settled => RestFollowsNothing(s, tick);
    case Show => ShowFollows(s, tick);
    case TimerFires => TimerFollows(s, tick);
    case Hide => HideFollows(s, tick);
  }

  /** So in every state of every run. */
  lemma EveryStepFollows(backoff: nat, autoLoad: bool, detail: bool, hidden: bool, ticks: seq<Tick>, tick: Tick)
    ensures var s := Run(InitialClient(backoff, autoLoad, detail, hidden), ticks); Follows(s, tick, Step(s, tick))
  {
    hide Run, Step, Inv, Follows;
    EveryRunKeepsInvariant(backoff, autoLoad, detail, hidden, ticks);
    StepFollows(Run(InitialClient(backoff, autoLoad, detail, hidden), ticks), tick);
  }
}
