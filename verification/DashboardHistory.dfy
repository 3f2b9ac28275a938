/** The bounded page history behaves like a stack. */
module DashboardHistory {
  import opened Common
  import opened DashboardModel
  import opened DashboardInvariants
  import Fr = DashboardFrames
  import N = DashboardFilters
  import R = DashboardRequests
  import W = DashboardWork

  /** The unbounded stacks of visited page cursors. */
  datatype Stacks = Stacks(traces: seq<Option<Cursor>>, spans: seq<Option<Cursor>>)

  const FIRST_PAGES := Stacks([None], [None])

  /** The stacks follow the clicks that the client serves. */
  function Track(s: Client, st: Stacks, e: Event): Stacks {
    match e
    case Start => FIRST_PAGES
    case Refresh => FIRST_PAGES
    case SetFilters(_) => FIRST_PAGES
    case SelectTrace(id) => if s.view.snapshot.Some? && IsProjectedId(id) then st.(spans := [None]) else st
    case NextTraces => if s.view.traces.nextCursor.Some? then st.(traces := st.traces + [s.view.traces.nextCursor]) else st
    case PreviousTraces => if |s.traceCursors| > 1 && st.traces != [] then st.(traces := st.traces[..|st.traces| - 1]) else st
    case NextSpans =>
      if s.view.spans.nextCursor.Some? && s.view.selectedTraceId.Some?
      then st.(spans := st.spans + [s.view.spans.nextCursor]) else st
    case PreviousSpans =>
      if s.view.selectedTraceId.Some? && |s.spanCursors| > 1 && st.spans != []
      then st.(spans := st.spans[..|st.spans| - 1]) else st
    case _ => st
  }

  function RunStacks(s: Client, ticks: seq<Tick>): Stacks {
    if ticks == [] then FIRST_PAGES
    else
      var front := ticks[..|ticks| - 1];
      Track(Run(s, front), RunStacks(s, front), ticks[|ticks| - 1].event)
  }

  /** The bounded history is a non-empty window on the top of the stack. */
  predicate Window(history: seq<Option<Cursor>>, stack: seq<Option<Cursor>>) {
    1 <= |history| <= |stack| && |history| <= CURSOR_HISTORY_LIMIT && stack[|stack| - |history|..] == history
  }

  lemma PushKeepsWindow(history: seq<Option<Cursor>>, stack: seq<Option<Cursor>>, c: Cursor)
    requires Window(history, stack)
    ensures Window(Push(history, c), stack + [Some(c)])
  {
    var full := stack + [Some(c)];
    assert full[|stack| - |history|..] == history + [Some(c)];
  }

  lemma PopKeepsWindow(history: seq<Option<Cursor>>, stack: seq<Option<Cursor>>)
    requires Window(history, stack) && |history| > 1
    ensures Window(history[..|history| - 1], stack[..|stack| - 1])
    ensures Last(history[..|history| - 1]) == Last(stack[..|stack| - 1])
  {
    var h, st := history[..|history| - 1], stack[..|stack| - 1];
    assert st[|st| - |h|..] == h;
    assert h[|h| - 1] == st[|st| - 1];
  }

  predicate Windows(o: Fr.Shown, st: Stacks) {
    Window(o.traceCursors, st.traces) && Window(o.spanCursors, st.spans)
  }

  lemma ClicksKeepWindows(s: Client, st: Stacks, e: Event)
    requires Windows(Fr.ShownOf(s), st)
    requires !Fr.Supersedes(e)
    ensures Windows(Fr.AfterClick(s, e), Track(s, st, e))
  {
    hide IsProjectedId, Push;
    if e.NextTraces? && s.view.traces.nextCursor.Some? {
      PushKeepsWindow(s.traceCursors, st.traces, s.view.traces.nextCursor.value);
    } else if e.PreviousTraces? && |s.traceCursors| > 1 {
      PopKeepsWindow(s.traceCursors, st.traces);
    } else if e.NextSpans? && s.view.spans.nextCursor.Some? {
      PushKeepsWindow(s.spanCursors, st.spans, s.view.spans.nextCursor.value);
    } else if e.PreviousSpans? && |s.spanCursors| > 1 {
      PopKeepsWindow(s.spanCursors, st.spans);
    }
  }

  lemma SettlingKeepsCursors(s: Client, tick: Tick)
    requires Inv(s) && tick.event.TransportSettles?
    ensures Step(s, tick).traceCursors == s.traceCursors && Step(s, tick).spanCursors == s.spanCursors
  {
    LiveTaskIsBound(s);
    if s.flight.Some? {
      hide QuerySettles, Inv;
      Fr.QuerySettlesFrame(s, tick.event.outcome, tick.now);
    }
  }

  lemma StepKeepsWindows(s: Client, st: Stacks, tick: Tick)
    requires Inv(s) && Windows(Fr.ShownOf(s), st)
    ensures Windows(Fr.ShownOf(Step(s, tick)), Track(s, st, tick.event))
  {
    hide Step, Inv, N.Normalize;
    if tick.event.TransportSettles? {
      SettlingKeepsCursors(s, tick);
    } else if Fr.Supersedes(tick.event) {
      Fr.SupersedingShows(s, tick);
    } else {
      hide Window, Windows, Track, Fr.ShownOf, Fr.AfterClick;
      Fr.StepShows(s, tick);
      ClicksKeepWindows(s, st, tick.event);
    }
  }

  lemma {:induction false} RunsKeepWindows(s0: Client, backoff: nat, autoLoad: bool, detail: bool, hidden: bool, ticks: seq<Tick>)
    requires s0 == InitialClient(backoff, autoLoad, detail, hidden)
    ensures Windows(Fr.ShownOf(Run(s0, ticks)), RunStacks(s0, ticks))
  {
    if ticks != [] {
      var front, last := ticks[..|ticks| - 1], ticks[|ticks| - 1];
      RunsKeepWindows(s0, backoff, autoLoad, detail, hidden, front);
      EveryRunKeepsInvariant(backoff, autoLoad, detail, hidden, front);
      hide Step, Track, Inv, Windows;
      StepKeepsWindows(Run(s0, front), RunStacks(s0, front), last);
    }
  }

  /** The page clicks that the client serves. */
  predicate Turns(s: Client, e: Event) {
    match e
    case NextTraces => s.view.traces.nextCursor.Some?
    case PreviousTraces => |s.traceCursors| > 1
    case NextSpans => s.view.spans.nextCursor.Some? && s.view.selectedTraceId.Some?
    case PreviousSpans => |s.spanCursors| > 1 && s.view.selectedTraceId.Some?
    case _ => false
  }

  function PageAfter(page: nat, forward: bool): nat {
    if forward then page + 1 else if page > 0 then page - 1 else 0
  }

  /** The query for the page on top of the stacks, after the click `e`. */
  function TopQuery(s: Client, st: Stacks, e: Event, now: int): Task
    requires s.view.snapshot.Some?
  {
    if e.NextTraces? || e.PreviousTraces? then
      W.Query(s.revision, s.view.filters, s.view.snapshot.value.id, Traces, None, None, Last(st.traces),
              PageAfter(s.view.traces.page, e.NextTraces?), now)
    else
      W.Query(s.revision, s.view.filters, s.view.snapshot.value.id, Spans, s.view.selectedTraceId, None, Last(st.spans),
              PageAfter(s.view.spans.page, e.NextSpans?), now)
  }

  /** The histories are windows on the stacks, and a page click that the client serves adds exactly one query to what
      it waits for, the one for the page that is then on top of the stack. */
  predicate ServesTheStacks(p: Task -> bool, s: Client, st: Stacks, tick: Tick) {
    && Window(s.traceCursors, st.traces) && Window(s.spanCursors, st.spans)
    && (Turns(s, tick.event) && s.view.snapshot.Some? ==>
          R.Waiting(p, Step(s, tick)) == R.Waiting(p, s) + R.One(p(TopQuery(s, Track(s, st, tick.event), tick.event, tick.now))))
    && (IsPageClick(tick.event) && !(Turns(s, tick.event) && s.view.snapshot.Some?) ==>
          R.Waiting(p, Step(s, tick)) == R.Waiting(p, s))
  }

  predicate IsPageClick(e: Event) { e.NextTraces? || e.PreviousTraces? || e.NextSpans? || e.PreviousSpans? }

  lemma OtherwiseAddsNothing(s: Client, tick: Tick)
    requires IsPageClick(tick.event) && !(Turns(s, tick.event) && s.view.snapshot.Some?)
    ensures W.Added(s, tick) == []
  {
    hide IsProjectedId;
  }

  lemma AddsTheTop(s: Client, st: Stacks, tick: Tick)
    requires Window(s.traceCursors, st.traces) && Window(s.spanCursors, st.spans)
    requires Turns(s, tick.event) && s.view.snapshot.Some?
    ensures W.Added(s, tick) == [TopQuery(s, Track(s, st, tick.event), tick.event, tick.now)]
  {
    hide IsProjectedId;
    if tick.event.PreviousTraces? {
      PopKeepsWindow(s.traceCursors, st.traces);
    } else if tick.event.PreviousSpans? {
      PopKeepsWindow(s.spanCursors, st.spans);
    }
  }

  lemma WindowsServe(p: Task -> bool, s: Client, st: Stacks, tick: Tick)
    requires Inv(s) && Windows(Fr.ShownOf(s), st)
    ensures ServesTheStacks(p, s, st, tick)
  {
    hide Inv, Step, R.Waiting, W.Added, Window, Track, TopQuery;
    if Turns(s, tick.event) && s.view.snapshot.Some? {
      R.WaitingAfter(p, s, tick);
      AddsTheTop(s, st, tick);
      R.CountOfOne(p, TopQuery(s, Track(s, st, tick.event), tick.event, tick.now));
    } else if IsPageClick(tick.event) {
      R.WaitingAfter(p, s, tick);
      OtherwiseAddsNothing(s, tick);
    }
  }

  /** In every state of every run the sixteen-entry histories are windows on the unbounded stacks of the same
      clicks, and serve what the stacks would. */
  lemma HistoryRefinesStack(backoff: nat, autoLoad: bool, detail: bool, hidden: bool, ticks: seq<Tick>, tick: Tick,
                            p: Task -> bool)
    ensures var s0 := InitialClient(backoff, autoLoad, detail, hidden);
            ServesTheStacks(p, Run(s0, ticks), RunStacks(s0, ticks), tick)
  {
    hide Run, RunStacks, Inv, Windows, ServesTheStacks;
    var s0 := InitialClient(backoff, autoLoad, detail, hidden);
    RunsKeepWindows(s0, backoff, autoLoad, detail, hidden, ticks);
    EveryRunKeepsInvariant(backoff, autoLoad, detail, hidden, ticks);
    WindowsServe(p, Run(s0, ticks), RunStacks(s0, ticks), tick);
  }

  // ----- how far back the history reaches

  function Min(a: nat, b: nat): nat { if a < b then a else b }

  lemma ForwardStep(s: Client, st: Stacks, tick: Tick)
    requires Inv(s) && !tick.event.PreviousTraces? && |st.traces| >= 1
    requires |s.traceCursors| == Min(CURSOR_HISTORY_LIMIT, |st.traces|)
    ensures var pages := Track(s, st, tick.event).traces;
            |pages| >= 1 && |Step(s, tick).traceCursors| == Min(CURSOR_HISTORY_LIMIT, |pages|)
  {
    hide Step, Inv, N.Normalize, IsProjectedId;
    if tick.event.TransportSettles? {
      SettlingKeepsCursors(s, tick);
    } else if Fr.Supersedes(tick.event) {
      Fr.SupersedingShows(s, tick);
    } else {
      Fr.StepShows(s, tick);
    }
  }

  lemma {:induction false} ForwardRun(backoff: nat, autoLoad: bool, detail: bool, hidden: bool, ticks: seq<Tick>)
    requires forall i :: 0 <= i < |ticks| ==> !ticks[i].event.PreviousTraces?
    ensures var s0 := InitialClient(backoff, autoLoad, detail, hidden);
            |RunStacks(s0, ticks).traces| >= 1
            && |Run(s0, ticks).traceCursors| == Min(CURSOR_HISTORY_LIMIT, |RunStacks(s0, ticks).traces|)
  {
    if ticks != [] {
      hide Step, Track, Inv;
      var front, s0 := ticks[..|ticks| - 1], InitialClient(backoff, autoLoad, detail, hidden);
      ForwardRun(backoff, autoLoad, detail, hidden, front);
      EveryRunKeepsInvariant(backoff, autoLoad, detail, hidden, front);
      ForwardStep(Run(s0, front), RunStacks(s0, front), ticks[|ticks| - 1]);
    }
  }

  lemma {:induction false} BackRun(s: Client, backs: seq<Tick>)
    requires |s.traceCursors| >= 1 && forall i :: 0 <= i < |backs| ==> backs[i].event.PreviousTraces?
    ensures |Run(s, backs).traceCursors| == |s.traceCursors| - Min(|backs|, |s.traceCursors| - 1)
  {
    if backs != [] {
      hide TracesBack;
      BackRun(s, backs[..|backs| - 1]);
      Fr.TraceNavigationFrame(Run(s, backs[..|backs| - 1]), backs[|backs| - 1].now);
    }
  }

  /** After any run that has not paged back, standing on page `n` of the stack, exactly min(15, n) of any number
      of clicks on "previous" are served, where the unbounded stack would serve n. */
  lemma WindowDepth(backoff: nat, autoLoad: bool, detail: bool, hidden: bool, ticks: seq<Tick>, backs: seq<Tick>)
    requires forall i :: 0 <= i < |ticks| ==> !ticks[i].event.PreviousTraces?
    requires forall i :: 0 <= i < |backs| ==> backs[i].event.PreviousTraces?
    ensures var s0 := InitialClient(backoff, autoLoad, detail, hidden);
            var n := |RunStacks(s0, ticks).traces| - 1;
            n >= 0 && |Run(s0, ticks).traceCursors| - |Run(Run(s0, ticks), backs).traceCursors|
                   == Min(|backs|, Min(CURSOR_HISTORY_LIMIT - 1, n))
  {
    hide Run, RunStacks;
    ForwardRun(backoff, autoLoad, detail, hidden, ticks);
    BackRun(Run(InitialClient(backoff, autoLoad, detail, hidden), ticks), backs);
  }
}
