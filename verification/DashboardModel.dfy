/** The paged dashboard client as a state machine on values (ui/report/paged-client.ts).
    One step is one synchronous stretch of the client: a call from the page, a timer that fires, or a
    promise that settles, up to the next `await`. The clock is read once per step and may jump in
    either direction between steps. */
module DashboardModel {
  import opened Common
  import F = Facets
  import N = DashboardFilters

  /** A cursor of the wire contract has at least one character. */
  type Cursor = c: string | c != "" witness "c"

  const CURSOR_HISTORY_LIMIT := 16
  const DEFAULT_FACET_LIMIT := 500

  datatype Availability =
    Loading | Current | Stale | Building | RefreshPending | Expired | Capacity | Failed

  datatype Snapshot = Snapshot(id: string, generation: string, stale: bool)

  datatype Page<Row> = Page(rows: seq<Row>, total: Option<nat>, nextCursor: Option<Cursor>, page: nat, canGoBack: bool)

  datatype TraceRow = TraceRow(traceId: string, repo: string)

  datatype SpanRow = SpanRow(traceId: string, spanId: string, name: string)

  datatype SpanDetail = SpanDetail(traceId: string, spanId: string, turnId: Option<string>, privateLookup: bool)

  datatype PrivateTurn = PrivateTurn(turnId: string, content: string)

  datatype Summary = SummaryIdle | SummaryPending | SummaryComplete(kpis: string)

  /** Why a state is shown: one constructor for each fixed text or code of the source. */
  datatype Notice =
    | ColdExcluded
    | Status(code: Reason)
    | UnexpectedKind
    | SnapshotChanged
    | NotEligible
    | NoTurnCorrelation
    | DetailFailedValidation
    | NotCollected
    | Unavailable(failure: string)
    | Reported(message: string)

  datatype PrivateDetail =
    | DetailIdle
    | DetailEligible
    | DetailLoading
    | DetailLoaded(detail: PrivateTurn)
    | DetailMissing(why: Notice)

  datatype View = View(
    availability: Availability,
    reason: Option<Notice>,
    snapshot: Option<Snapshot>,
    coldExcluded: Option<bool>,
    facetLimit: Option<nat>,
    filters: N.Filters,
    summary: Summary,
    traces: Page<TraceRow>,
    spans: Page<SpanRow>,
    facets: seq<F.FacetRow>,
    facetsLimited: bool,
    selectedTraceId: Option<string>,
    selectedSpan: Option<SpanDetail>,
    privateDetail: PrivateDetail)

  datatype Purpose = Bootstrap | Traces | Spans | SummaryQuery | SpanQuery | FacetQuery

  datatype Request = Request(
    kind: Purpose,
    filters: N.Filters,
    snapshotId: Option<string>,
    traceId: Option<string>,
    spanId: Option<string>,
    cursor: Option<Cursor>)

  datatype Task = Task(revision: nat, request: Request, purpose: Purpose, page: nat, readyAt: int)

  /** The request awaited by the drain loop, and whether its abort signal was raised. */
  datatype Flight = Flight(task: Task, aborted: bool)

  /** A call of loadPrivateDetail suspended at its `await`. */
  datatype DetailCall = DetailCall(revision: nat, turnId: string)

  datatype Reason = Busy | BuildingSnapshot | RefreshIsPending | SnapshotExpired | OverCapacity | InvalidQuery

  datatype Pagination = Pagination(nextCursor: Option<Cursor>, total: Option<nat>)

  datatype Body =
    | BootstrapBody(facetLimit: nat)
    | TracesBody(traceRows: seq<TraceRow>, tracePagination: Pagination)
    | SpansBody(spanRows: seq<SpanRow>, spanPagination: Pagination)
    | SummaryBody(kpis: Option<string>, summaryCursor: Option<Cursor>)
    | SpanBody(detail: SpanDetail)
    | FacetsBody(facetRows: seq<F.FacetRow>, facetCursor: Option<Cursor>)

  datatype Response =
    | StatusResponse(status: Reason)
    | DataResponse(snapshot: Snapshot, coldExcluded: bool, body: Body)

  /** How an awaited promise settles. `isAbort` is a rejection by an AbortError, `overCapacity` one by a
      transport error with the code "capacity". */
  datatype Outcome = Resolved(response: Response) | Rejected(isAbort: bool, overCapacity: bool, message: string)

  datatype DetailOutcome =
    | DetailResolved(detail: PrivateTurn)
    | DetailAbsent(absence: Notice)
    | DetailRejected(detailAborted: bool, error: Notice)

  datatype Client = Client(
    view: View,
    queue: seq<Task>,
    revision: nat,
    draining: bool,
    flight: Option<Flight>,
    controller: bool,
    wake: Option<int>,
    traceCursors: seq<Option<Cursor>>,
    spanCursors: seq<Option<Cursor>>,
    selectedSpanRequestId: Option<string>,
    detailRevision: nat,
    detailCalls: seq<DetailCall>,
    waiters: nat,
    hidden: bool,
    backoff: nat,
    autoLoad: bool,
    detailTransport: bool)

  datatype Event =
    | Start
    | Refresh
    | SetFilters(filters: N.Filters)
    | SelectTrace(traceId: string)
    | SelectSpan(spanId: string)
    | ClearSelectedDetail
    | LoadPrivateDetail
    | NextTraces
    | PreviousTraces
    | NextSpans
    | PreviousSpans
    | Settled
    | Dispose
    | Hide
    | Show
    | TimerFires
    | TransportSettles(outcome: Outcome)
    | DetailSettles(call: nat, detailOutcome: DetailOutcome)

  /** An event and the clock reading of its step. */
  datatype Tick = Tick(now: int, event: Event)

  // ----- pure helpers of the source

  function EmptyPage<Row>(): Page<Row> {
    Page([], None, None, 0, false)
  }

  function InitialView(filters: N.Filters): View {
    View(Loading, None, None, None, None, filters, SummaryIdle, EmptyPage(), EmptyPage(), [], false, None, None, DetailIdle)
  }

  function InitialClient(backoff: nat, autoLoad: bool, detailTransport: bool, hidden: bool): Client {
    Client(InitialView(N.NO_FILTERS), [], 0, false, None, false, None, [None], [None], None, 0, [], 0, hidden,
           backoff, autoLoad, detailTransport)
  }

  function AvailabilityOf(s: Snapshot): Availability {
    if s.stale then Stale else Current
  }

  /** id:sha256: and sixty-four lower-case hexadecimal digits. */
  predicate IsProjectedId(value: string) {
    |value| == 74 && value[..10] == "id:sha256:"
    && forall i :: 10 <= i < 74 ==> '0' <= value[i] <= '9' || 'a' <= value[i] <= 'f'
  }

  predicate PrivateDetailEligible(span: SpanDetail) {
    span.turnId.Some? && span.privateLookup
  }

  function DetailStateFor(span: SpanDetail): PrivateDetail {
    if PrivateDetailEligible(span) then DetailEligible
    else DetailMissing(NotEligible)
  }

  function PageState<Row>(rows: seq<Row>, p: Pagination, page: nat, cursors: nat): Page<Row> {
    Page(rows, p.total, p.nextCursor, page, cursors > 1)
  }

  function BodyPurpose(b: Body): Purpose {
    match b
    case BootstrapBody(_) => Bootstrap
    case TracesBody(_, _) => Traces
    case SpansBody(_, _) => Spans
    case SummaryBody(_, _) => SummaryQuery
    case SpanBody(_) => SpanQuery
    case FacetsBody(_, _) => FacetQuery
  }

  function Push(cursors: seq<Option<Cursor>>, c: Cursor): seq<Option<Cursor>> {
    var pushed := cursors + [Some(c)];
    if |pushed| > CURSOR_HISTORY_LIMIT then pushed[1..] else pushed
  }

  function Last(cursors: seq<Option<Cursor>>): Option<Cursor> {
    if cursors == [] then None else cursors[|cursors| - 1]
  }

  function SmallBackoff(s: Client): nat {
    if s.backoff < 16 then s.backoff else 16
  }

  function PageBefore(page: nat): nat {
    if page == 0 then 0 else page - 1
  }

  // ----- the scheduler

  predicate SomeReady(q: seq<Task>, now: int) {
    exists i :: 0 <= i < |q| && q[i].readyAt <= now
  }

  predicate Drainable(s: Client, now: int) {
    !s.hidden && SomeReady(s.queue, now)
  }

  /** The lowest index whose task is ready. */
  function FirstReady(q: seq<Task>, now: int): (i: nat)
    requires SomeReady(q, now)
    ensures i < |q| && q[i].readyAt <= now && !SomeReady(q[..i], now)
  {
    if q[0].readyAt <= now then 0 else
      assert SomeReady(q[1..], now) by {
        var k :| 0 <= k < |q| && q[k].readyAt <= now;
        assert q[1..][k - 1] == q[k];
      }
      var i := 1 + FirstReady(q[1..], now);
      assert !SomeReady(q[..i], now) by {
        assert q[..i] == [q[0]] + q[1..][..i - 1];
        forall k | 0 <= k < i ensures q[..i][k].readyAt > now {
          if k > 0 { assert q[..i][k] == q[1..][..i - 1][k - 1]; }
        }
      }
      i
  }

  function EarliestReady(q: seq<Task>): int
    requires q != []
  {
    if |q| == 1 then q[0].readyAt
    else
      var rest := EarliestReady(q[1..]);
      if q[0].readyAt < rest then q[0].readyAt else rest
  }

  function Without<T>(q: seq<T>, i: nat): seq<T>
    requires i < |q|
  {
    q[..i] + q[i + 1..]
  }

  function ScheduleDrain(s: Client, now: int): Client
    decreases |s.queue|, if Drainable(s, now) then 3 else 0
  {
    if s.draining || s.hidden || s.queue == [] then s
    else if SomeReady(s.queue, now) then DrainLoop(s.(draining := true), now)
    else if s.wake.None? then s.(wake := Some(EarliestReady(s.queue)))
    else s
  }

  /** The drain loop from its head to the next `await` or to its end. */
  function DrainLoop(s: Client, now: int): Client
    decreases |s.queue|, 2
  {
    if !Drainable(s, now) then DrainEnds(s, now)
    else
      var i := FirstReady(s.queue, now);
      var task, rest := s.queue[i], s.(queue := Without(s.queue, i));
      if task.revision != s.revision then DrainLoop(rest, now)
      else rest.(flight := Some(Flight(task, false)), controller := true)
  }

  function DrainEnds(s: Client, now: int): Client
    requires !Drainable(s, now)
    decreases |s.queue|, 1
  {
    var idle := s.(draining := false);
    if s.queue == [] then idle.(waiters := 0) else ScheduleDrain(idle, now)
  }

  function Enqueue(s: Client, task: Task, now: int): Client {
    ScheduleDrain(s.(queue := s.queue + [task]), now)
  }

  function BootstrapTask(s: Client, readyAt: int): Task {
    Task(s.revision, Request(Bootstrap, s.view.filters, None, None, None, None), Bootstrap, 0, readyAt)
  }

  function EnqueueBootstrap(s: Client, delay: nat, now: int): Client {
    Enqueue(s, BootstrapTask(s, now + delay), now)
  }

  function BoundTask(s: Client, snapshot: Snapshot, purpose: Purpose, traceId: Option<string>, spanId: Option<string>,
                     cursor: Option<Cursor>, page: nat, readyAt: int): Task
  {
    Task(s.revision, Request(purpose, s.view.filters, Some(snapshot.id), traceId, spanId, cursor), purpose, page, readyAt)
  }

  function EnqueueBound(s: Client, purpose: Purpose, traceId: Option<string>, spanId: Option<string>,
                        cursor: Option<Cursor>, page: nat, delay: nat, now: int): Client
  {
    match s.view.snapshot
    case None => s
    case Some(snapshot) => Enqueue(s, BoundTask(s, snapshot, purpose, traceId, spanId, cursor, page, now + delay), now)
  }

  function EnqueueInitialQueries(s: Client, now: int): Client {
    var t := EnqueueBound(s, Traces, None, None, None, 0, 0, now);
    var f := EnqueueBound(t, FacetQuery, None, None, None, 0, 0, now);
    var p := f.(view := f.view.(summary := SummaryPending));
    EnqueueBound(p, SummaryQuery, None, None, None, 0, 0, now)
  }

  // ----- invalidation

  function ClearPrivateDetail(s: Client): Client {
    s.(detailRevision := s.detailRevision + 1, view := s.view.(privateDetail := DetailIdle))
  }

  /** Raises the abort signal of the controller the client holds, if it holds one. */
  function Abort(s: Client): Client {
    if s.controller && s.flight.Some?
    then s.(flight := Some(s.flight.value.(aborted := true)), controller := false)
    else s.(controller := false)
  }

  function Invalidate(s: Client): Client {
    ClearPrivateDetail(Abort(s.(revision := s.revision + 1)).(queue := [], wake := None))
  }

  // ----- calls from the page

  function Restart(s: Client, now: int): Client {
    var i := ClearPrivateDetail(Invalidate(s).(traceCursors := [None], spanCursors := [None], selectedSpanRequestId := None));
    EnqueueBootstrap(i.(view := InitialView(N.Normalize(s.view.filters))), 0, now)
  }

  function ChangeFilters(s: Client, filters: N.Filters, now: int): Client {
    var i := Invalidate(s).(traceCursors := [None], spanCursors := [None], selectedSpanRequestId := None);
    var v := i.view.(
      filters := N.Normalize(filters), summary := SummaryIdle, traces := EmptyPage(), spans := EmptyPage(), facets := [],
      facetsLimited := false, selectedTraceId := None, selectedSpan := None, privateDetail := DetailIdle,
      availability := if i.view.snapshot.None? then Loading else AvailabilityOf(i.view.snapshot.value), reason := None);
    var u := i.(view := v);
    if v.snapshot.None? || v.availability == Expired then EnqueueBootstrap(u, 0, now) else EnqueueInitialQueries(u, now)
  }

  function ChooseTrace(s: Client, traceId: string, now: int): Client {
    if s.view.snapshot.None? || !IsProjectedId(traceId) then s
    else
      var c := ClearPrivateDetail(s.(spanCursors := [None], selectedSpanRequestId := None));
      var u := c.(view := c.view.(selectedTraceId := Some(traceId), selectedSpan := None, spans := EmptyPage(),
                                  availability := AvailabilityOf(s.view.snapshot.value), reason := None));
      EnqueueBound(u, Spans, Some(traceId), None, None, 0, 0, now)
  }

  function ChooseSpan(s: Client, spanId: string, now: int): Client {
    if s.view.selectedTraceId.None? || !IsProjectedId(spanId) then s
    else
      EnqueueBound(ClearPrivateDetail(s).(selectedSpanRequestId := Some(spanId)), SpanQuery, s.view.selectedTraceId,
                   Some(spanId), None, 0, 0, now)
  }

  function ClearDetail(s: Client): Client {
    var c := ClearPrivateDetail(s.(selectedSpanRequestId := None));
    c.(view := c.view.(selectedSpan := None))
  }

  function StartPrivateDetail(s: Client): Client {
    if s.view.selectedSpan.None? || !s.detailTransport || !PrivateDetailEligible(s.view.selectedSpan.value)
    then s.(view := s.view.(privateDetail := DetailMissing(NotEligible)))
    else if s.view.selectedSpan.value.turnId.value == ""
    then s.(view := s.view.(privateDetail := DetailMissing(NoTurnCorrelation)))
    else
      s.(detailRevision := s.detailRevision + 1,
         detailCalls := s.detailCalls + [DetailCall(s.detailRevision + 1, s.view.selectedSpan.value.turnId.value)],
         view := s.view.(privateDetail := DetailLoading))
  }

  function TracesForward(s: Client, now: int): Client {
    match s.view.traces.nextCursor
    case None => s
    case Some(c) =>
      EnqueueBound(s.(traceCursors := Push(s.traceCursors, c)), Traces, None, None, Some(c), s.view.traces.page + 1, 0, now)
  }

  function TracesBack(s: Client, now: int): Client {
    if |s.traceCursors| <= 1 then s
    else
      var p := s.(traceCursors := s.traceCursors[..|s.traceCursors| - 1]);
      EnqueueBound(p, Traces, None, None, Last(p.traceCursors), PageBefore(s.view.traces.page), 0, now)
  }

  function SpansForward(s: Client, now: int): Client {
    if s.view.spans.nextCursor.None? || s.view.selectedTraceId.None? then s
    else
      var c := s.view.spans.nextCursor.value;
      EnqueueBound(s.(spanCursors := Push(s.spanCursors, c)), Spans, s.view.selectedTraceId, None, Some(c),
                   s.view.spans.page + 1, 0, now)
  }

  function SpansBack(s: Client, now: int): Client {
    if s.view.selectedTraceId.None? || |s.spanCursors| <= 1 then s
    else
      var p := s.(spanCursors := s.spanCursors[..|s.spanCursors| - 1]);
      EnqueueBound(p, Spans, s.view.selectedTraceId, None, Last(p.spanCursors), PageBefore(s.view.spans.page), 0, now)
  }

  // ----- settling promises

  /** The catch clause of the drain loop for a query that is still current. */
  function QueryFailed(s: Client, overCapacity: bool, why: Notice): Client {
    s.(view := s.view.(availability := if overCapacity then Capacity else Failed, reason := Some(why)), queue := [])
  }

  function ApplyStatus(s: Client, task: Task, r: Reason, now: int): Client {
    match r
    case Busy =>
      Enqueue(s.(view := s.view.(reason := Some(Status(r)))), task.(readyAt := now + s.backoff), now)
    case BuildingSnapshot =>
      Enqueue(s.(view := s.view.(availability := Building, reason := Some(Status(r)))),
              task.(readyAt := now + s.backoff), now)
    case RefreshIsPending =>
      var c := ClearPrivateDetail(s);
      var v := InitialView(c.view.filters).(availability := RefreshPending, reason := Some(Status(r)));
      EnqueueBootstrap(c.(view := v, queue := []), s.backoff, now)
    case SnapshotExpired =>
      var c := ClearPrivateDetail(s.(queue := []));
      c.(view := InitialView(c.view.filters).(availability := Expired, reason := Some(Status(r))))
    case OverCapacity =>
      s.(queue := [], view := s.view.(availability := Capacity, reason := Some(Status(r))))
    case InvalidQuery =>
      s.(queue := [], view := s.view.(availability := Failed, reason := Some(Status(r))))
  }

  function ApplySummary(s: Client, kpis: Option<string>, cursor: Option<Cursor>, now: int): Client {
    if kpis.Some? then s.(view := s.view.(summary := SummaryComplete(kpis.value)))
    else
      var p := s.(view := s.view.(summary := SummaryPending));
      if cursor.None? then p
      else EnqueueBound(p, SummaryQuery, None, None, cursor, 0, SmallBackoff(s), now)
  }

  function FacetLimit(v: View): nat {
    if v.facetLimit.Some? then v.facetLimit.value else DEFAULT_FACET_LIMIT
  }

  function ApplyFacets(s: Client, rows: seq<F.FacetRow>, cursor: Option<Cursor>, page: nat, now: int): Client {
    var list := F.Apply(F.FacetList(s.view.facets, s.view.facetsLimited), rows, FacetLimit(s.view));
    var u := s.(view := s.view.(facets := list.rows, facetsLimited := list.limited));
    if cursor.None? then u
    else EnqueueBound(u, FacetQuery, None, None, cursor, page + 1, SmallBackoff(s), now)
  }

  function ApplyBody(s: Client, task: Task, body: Body, now: int): Client {
    match body
    case BootstrapBody(limit) =>
      var u := s.(view := s.view.(facetLimit := Some(limit)));
      if s.autoLoad then EnqueueInitialQueries(u, now) else u
    case TracesBody(rows, p) =>
      s.(view := s.view.(traces := PageState(rows, p, task.page, |s.traceCursors|)))
    case SpansBody(rows, p) =>
      if task.request.traceId != s.view.selectedTraceId then s
      else s.(view := s.view.(spans := PageState(rows, p, task.page, |s.spanCursors|)))
    case SummaryBody(kpis, cursor) => ApplySummary(s, kpis, cursor, now)
    case SpanBody(detail) =>
      if task.request.spanId != s.selectedSpanRequestId then s
      else s.(view := s.view.(selectedSpan := Some(detail), privateDetail := DetailStateFor(detail)))
    case FacetsBody(rows, cursor) => ApplyFacets(s, rows, cursor, task.page, now)
  }

  function ApplyResponse(s: Client, task: Task, r: Response, now: int): Client {
    match r
    case StatusResponse(status) => ApplyStatus(s, task, status, now)
    case DataResponse(snapshot, coldExcluded, body) =>
      if BodyPurpose(body) != task.purpose then QueryFailed(s, false, UnexpectedKind)
      else if task.request.snapshotId.Some? && snapshot.id != task.request.snapshotId.value
      then QueryFailed(s, false, SnapshotChanged)
      else
        var v := s.view.(snapshot := Some(snapshot), coldExcluded := Some(coldExcluded),
                         availability := AvailabilityOf(snapshot),
                         reason := if coldExcluded then Some(ColdExcluded) else None);
        ApplyBody(s.(view := v), task, body, now)
  }

  /** A superseded query's outcome is dropped, and so is the rejection of an aborted one. */
  function ApplyOutcome(s: Client, flight: Flight, outcome: Outcome, now: int): Client {
    if flight.task.revision != s.revision then s
    else match outcome
      case Resolved(r) => ApplyResponse(s, flight.task, r, now)
      case Rejected(isAbort, overCapacity, message) =>
        if isAbort && flight.aborted then s else QueryFailed(s, overCapacity, Reported(message))
  }

  /** The drain loop from its `await` on. The query itself is no longer pending. The client drops its
      handle on the controller last; it is dropped first here, since nothing in between looks at it. */
  function QuerySettles(s: Client, outcome: Outcome, now: int): Client {
    if s.flight.None? then s
    else
      var flight := s.flight.value;
      var landed := s.(flight := None, controller := s.controller && flight.aborted);
      DrainLoop(ApplyOutcome(landed, flight, outcome, now), now)
  }

  /** The private-detail transport accepts a body only for the turn it asked for. */
  function DetailResult(turnId: string, outcome: DetailOutcome): DetailOutcome {
    if outcome.DetailResolved? && outcome.detail.turnId != turnId
    then DetailRejected(false, DetailFailedValidation)
    else outcome
  }

  function PrivateDetailSettles(s: Client, call: DetailCall, outcome: DetailOutcome): Client {
    if call.revision != s.detailRevision then s
    else match DetailResult(call.turnId, outcome)
      case DetailResolved(detail) =>
        if SelectedTurn(s) != Some(call.turnId) then s else s.(view := s.view.(privateDetail := DetailLoaded(detail)))
      case DetailAbsent(why) =>
        if SelectedTurn(s) != Some(call.turnId) then s else s.(view := s.view.(privateDetail := DetailMissing(why)))
      case DetailRejected(isAbort, error) =>
        if isAbort then s else s.(view := s.view.(privateDetail := DetailMissing(error)))
  }

  function SelectedTurn(s: Client): Option<string> {
    if s.view.selectedSpan.Some? then s.view.selectedSpan.value.turnId else None
  }

  // ----- runs

  function Step(s: Client, tick: Tick): Client {
    var now := tick.now;
    match tick.event
    case Start => Restart(s, now)
    case Refresh => Restart(s, now)
    case SetFilters(filters) => ChangeFilters(s, filters, now)
    case SelectTrace(traceId) => ChooseTrace(s, traceId, now)
    case SelectSpan(spanId) => ChooseSpan(s, spanId, now)
    case ClearSelectedDetail => ClearDetail(s)
    case LoadPrivateDetail => StartPrivateDetail(s)
    case NextTraces => TracesForward(s, now)
    case PreviousTraces => TracesBack(s, now)
    case NextSpans => SpansForward(s, now)
    case PreviousSpans => SpansBack(s, now)
    case Settled => if !s.draining && s.queue == [] && s.wake.None? then s else s.(waiters := s.waiters + 1)
    case Dispose => Invalidate(s).(waiters := 0)
    case Hide => s.(hidden := true)
    case Show => ScheduleDrain(s.(hidden := false), now)
    case TimerFires => if s.wake.None? then s else ScheduleDrain(s.(wake := None), now)
    case TransportSettles(outcome) => QuerySettles(s, outcome, now)
    case DetailSettles(call, outcome) =>
      if call >= |s.detailCalls| then s
      else PrivateDetailSettles(s.(detailCalls := Without(s.detailCalls, call)), s.detailCalls[call], outcome)
  }

  function Run(s: Client, ticks: seq<Tick>): Client {
    if ticks == [] then s else Step(Run(s, ticks[..|ticks| - 1]), ticks[|ticks| - 1])
  }

  lemma {:induction false} RunConcat(s: Client, xs: seq<Tick>, ys: seq<Tick>)
    ensures Run(s, xs + ys) == Run(Run(s, xs), ys)
  {
    if ys == [] {
      assert xs + ys == xs;
    } else {
      assert (xs + ys)[..|xs + ys| - 1] == xs + ys[..|ys| - 1];
      RunConcat(s, xs, ys[..|ys| - 1]);
    }
  }
}
