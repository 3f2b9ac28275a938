/** What is shown belongs to what is selected. */
module DashboardSelection {
  import opened Common
  import opened DashboardModel
  import opened DashboardInvariants
  import Fr = DashboardFrames
  import F = Facets
  import N = DashboardFilters

  // ----- selection

  /** `owner` names the trace each span id belongs to. A trace is selected in a snapshot only; the span rows
      shown are rows of the selected trace, the span asked for last lies in it, and so does the span whose
      detail is shown. */
  predicate Coherent(owner: string -> string, o: Fr.Shown) {
    && (o.traceId.Some? ==> o.snapshotId.Some?)
    && RowsOf(owner, o.traceId, o.rows)
    && (o.requested.Some? && o.traceId.Some? ==> owner(o.requested.value) == o.traceId.value)
    && (o.span.Some? ==>
          && o.traceId == Some(o.span.value.traceId)
          && owner(o.span.value.spanId) == o.span.value.traceId)
  }

  predicate RowsOf(owner: string -> string, traceId: Option<string>, rows: seq<SpanRow>) {
    forall i :: 0 <= i < |rows| ==> Some(rows[i].traceId) == traceId && owner(rows[i].spanId) == rows[i].traceId
  }

  /** The server answers about the trace and the span it was asked for. */
  predicate HonestAnswer(owner: string -> string, q: Request, b: Body) {
    match b
    case SpansBody(rows, _) => RowsOf(owner, q.traceId, rows)
    case SpanBody(d) => Some(d.spanId) == q.spanId && d.traceId == owner(d.spanId)
    case _ => true
  }

  /** An honest server, and a page on which a span is opened by clicking one of the rows shown. */
  predicate Honest(owner: string -> string, s: Client, e: Event) {
    && (e.SelectSpan? ==> exists i :: 0 <= i < |s.view.spans.rows| && s.view.spans.rows[i].spanId == e.spanId)
    && (e.TransportSettles? && e.outcome.Resolved? && e.outcome.response.DataResponse? && s.flight.Some? ==>
          HonestAnswer(owner, s.flight.value.task.request, e.outcome.response.body))
  }

  predicate HonestRun(owner: string -> string, s: Client, ticks: seq<Tick>) {
    ticks == []
    || (HonestRun(owner, s, ticks[..|ticks| - 1])
        && Honest(owner, Run(s, ticks[..|ticks| - 1]), ticks[|ticks| - 1].event))
  }

  lemma AnswerIsCoherent(owner: string -> string, s: Client, outcome: Outcome)
    requires Coherent(owner, Fr.ShownOf(s)) && Honest(owner, s, TransportSettles(outcome))
    requires Live(s) ==> BoundTo(PresentOf(s), s.flight.value.task)
    ensures Coherent(owner, Fr.AfterAnswer(s, outcome))
  {
    hide F.Apply;
  }

  lemma ClicksAreCoherent(owner: string -> string, s: Client, e: Event)
    requires Coherent(owner, Fr.ShownOf(s)) && Honest(owner, s, e)
    ensures Coherent(owner, Fr.AfterClick(s, e))
  {
    hide IsProjectedId, Push;
  }

  lemma SupersedingIsCoherent(owner: string -> string, s: Client, e: Event)
    requires Coherent(owner, Fr.ShownOf(s))
    ensures Coherent(owner, Fr.AfterSuperseding(s, e))
  {
    hide N.Normalize;
  }

  lemma StepIsCoherent(owner: string -> string, s: Client, tick: Tick)
    requires Inv(s) && Coherent(owner, Fr.ShownOf(s)) && Honest(owner, s, tick.event)
    ensures Coherent(owner, Fr.ShownOf(Step(s, tick)))
  {
    if tick.event.TransportSettles? {
      LiveTaskIsBound(s);
      hide QuerySettles, Inv, Fr.ShownOf, Fr.AfterAnswer, Coherent, Honest, BoundTo;
      Fr.SettlingShows(s, tick.event.outcome, tick.now);
      AnswerIsCoherent(owner, s, tick.event.outcome);
    } else {
      hide Step, Coherent, Honest, Inv, Fr.ShownOf, Fr.AfterClick, Fr.AfterSuperseding;
      if Fr.Supersedes(tick.event) {
        Fr.SupersedingShows(s, tick);
        SupersedingIsCoherent(owner, s, tick.event);
      } else {
        Fr.StepShows(s, tick);
        ClicksAreCoherent(owner, s, tick.event);
      }
    }
  }

  /** Against an honest server, and with spans opened from the rows shown, the rows and the span detail on
      display belong to the selected trace in every state of every run, however late the answers come, and a
      private detail on display is for the turn of that span. */
  lemma {:induction false} SelectionStaysCoherent(owner: string -> string, backoff: nat, autoLoad: bool, detail: bool,
                                                  hidden: bool, ticks: seq<Tick>)
    requires HonestRun(owner, InitialClient(backoff, autoLoad, detail, hidden), ticks)
    ensures var r := Run(InitialClient(backoff, autoLoad, detail, hidden), ticks);
            && Coherent(owner, Fr.ShownOf(r))
            && (r.view.privateDetail.DetailLoaded? ==> SelectedTurn(r) == Some(r.view.privateDetail.detail.turnId))
  {
    EveryRunKeepsInvariant(backoff, autoLoad, detail, hidden, ticks);
    DetailPart(Run(InitialClient(backoff, autoLoad, detail, hidden), ticks));
    if ticks != [] {
      hide Inv, Step, Coherent, Honest, Fr.ShownOf;
      var front := ticks[..|ticks| - 1];
      SelectionStaysCoherent(owner, backoff, autoLoad, detail, hidden, front);
      EveryRunKeepsInvariant(backoff, autoLoad, detail, hidden, front);
      StepIsCoherent(owner, Run(InitialClient(backoff, autoLoad, detail, hidden), front), ticks[|ticks| - 1]);
    }
  }
}
