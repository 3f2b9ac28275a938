/** Everything on display answers the filters and the snapshot on display. */
module DashboardProvenance {
  import opened Common
  import opened DashboardModel
  import opened DashboardInvariants
  import Fr = DashboardFrames
  import F = Facets
  import N = DashboardFilters

  datatype Item =
    | TraceItem(traceRow: TraceRow)
    | SpanItem(spanRow: SpanRow)
    | FacetItem(facetRow: F.FacetRow)
    | KpiItem(kpis: string)

  /** Which items the server may list under which filters in which snapshot. */
  type Truth = (N.Filters, string, Item) -> bool

  predicate TracesOk(truth: Truth, f: N.Filters, id: string, rows: seq<TraceRow>) {
    forall i :: 0 <= i < |rows| ==> truth(f, id, TraceItem(rows[i]))
  }

  predicate SpansOk(truth: Truth, f: N.Filters, id: string, rows: seq<SpanRow>) {
    forall i :: 0 <= i < |rows| ==> truth(f, id, SpanItem(rows[i]))
  }

  predicate FacetsOk(truth: Truth, f: N.Filters, id: string, rows: seq<F.FacetRow>) {
    forall row :: row in rows ==> truth(f, id, FacetItem(row))
  }

  /** Without a snapshot nothing is listed; with one, all of it is true of the filters shown. */
  predicate Genuine(truth: Truth, o: Fr.Shown) {
    match o.snapshotId
    case None => o.traceRows == [] && o.rows == [] && o.facets == [] && o.kpis.None?
    case Some(id) =>
      && TracesOk(truth, o.filters, id, o.traceRows)
      && SpansOk(truth, o.filters, id, o.rows)
      && FacetsOk(truth, o.filters, id, o.facets)
      && (o.kpis.Some? ==> truth(o.filters, id, KpiItem(o.kpis.value)))
  }

  predicate TrueAnswer(truth: Truth, q: Request, b: Body) {
    q.snapshotId.Some? ==>
      match b
      case TracesBody(rows, _) => TracesOk(truth, q.filters, q.snapshotId.value, rows)
      case SpansBody(rows, _) => SpansOk(truth, q.filters, q.snapshotId.value, rows)
      case FacetsBody(rows, _) => FacetsOk(truth, q.filters, q.snapshotId.value, rows)
      case SummaryBody(kpis, _) => kpis.Some? ==> truth(q.filters, q.snapshotId.value, KpiItem(kpis.value))
      case _ => true
  }

  predicate Truthful(truth: Truth, s: Client, e: Event) {
    e.TransportSettles? && e.outcome.Resolved? && e.outcome.response.DataResponse? && s.flight.Some? ==>
      TrueAnswer(truth, s.flight.value.task.request, e.outcome.response.body)
  }

  predicate TruthfulRun(truth: Truth, s: Client, ticks: seq<Tick>) {
    ticks == []
    || (TruthfulRun(truth, s, ticks[..|ticks| - 1])
        && Truthful(truth, Run(s, ticks[..|ticks| - 1]), ticks[|ticks| - 1].event))
  }

  lemma FacetPageIsGenuine(truth: Truth, f: N.Filters, id: string, list: F.FacetList, page: seq<F.FacetRow>, limit: nat)
    requires FacetsOk(truth, f, id, list.rows) && FacetsOk(truth, f, id, page)
    ensures FacetsOk(truth, f, id, F.Apply(list, page, limit).rows)
  {
    F.ApplyOnlyKeepsGivenRows(list, page, limit);
  }

  lemma BodyIsGenuine(truth: Truth, autoLoad: bool, limited: bool, limit: nat, o: Fr.Shown, task: Task, body: Body)
    requires o.snapshotId.Some? && Genuine(truth, o) && TrueAnswer(truth, task.request, body)
    requires !body.BootstrapBody? ==> task.request.filters == o.filters && task.request.snapshotId == o.snapshotId
    ensures Genuine(truth, Fr.AfterBody(autoLoad, limited, limit, o, task, body))
  {
    if body.FacetsBody? {
      FacetPageIsGenuine(truth, o.filters, o.snapshotId.value, F.FacetList(o.facets, limited), body.facetRows, limit);
    }
    hide F.Apply, TracesOk, SpansOk, FacetsOk;
  }

  lemma AnswerIsGenuine(truth: Truth, s: Client, outcome: Outcome)
    requires Genuine(truth, Fr.ShownOf(s)) && Truthful(truth, s, TransportSettles(outcome))
    requires Live(s) ==> BoundTo(PresentOf(s), s.flight.value.task)
    ensures Genuine(truth, Fr.AfterAnswer(s, outcome))
  {
    hide F.Apply, TracesOk, SpansOk, FacetsOk, TrueAnswer, Fr.AfterBody;
    if Live(s) && outcome.Resolved? && outcome.response.DataResponse? {
      var task, r := s.flight.value.task, outcome.response;
      if BodyPurpose(r.body) == task.purpose && (task.request.snapshotId.Some? ==> r.snapshot.id == task.request.snapshotId.value) {
        var o := Fr.ShownOf(s).(snapshotId := Some(r.snapshot.id));
        assert Genuine(truth, o) by {
          if Fr.ShownOf(s).snapshotId.None? { NothingListedIsGenuine(truth, o); }
        }
        BodyIsGenuine(truth, s.autoLoad, s.view.facetsLimited, FacetLimit(s.view), o, task, r.body);
      }
    }
  }

  lemma NothingListedIsGenuine(truth: Truth, o: Fr.Shown)
    requires o.traceRows == [] && o.rows == [] && o.facets == [] && o.kpis.None?
    ensures Genuine(truth, o)
  {
  }

  lemma OtherStepsAreGenuine(truth: Truth, s: Client, e: Event)
    requires Genuine(truth, Fr.ShownOf(s))
    ensures Genuine(truth, Fr.AfterClick(s, e)) && Genuine(truth, Fr.AfterSuperseding(s, e))
  {
    hide IsProjectedId, Push, N.Normalize, FacetsOk, TracesOk;
    NothingListedIsGenuine(truth, Fr.Blank(N.Normalize(s.view.filters), None));
    if e.SetFilters? { NothingListedIsGenuine(truth, Fr.AfterSuperseding(s, e)); }
  }

  lemma StepIsGenuine(truth: Truth, s: Client, tick: Tick)
    requires Inv(s) && Genuine(truth, Fr.ShownOf(s)) && Truthful(truth, s, tick.event)
    ensures Genuine(truth, Fr.ShownOf(Step(s, tick)))
  {
    if tick.event.TransportSettles? {
      LiveTaskIsBound(s);
      hide QuerySettles, Inv, Fr.ShownOf, Fr.AfterAnswer, Genuine, Truthful, BoundTo;
      Fr.SettlingShows(s, tick.event.outcome, tick.now);
      AnswerIsGenuine(truth, s, tick.event.outcome);
    } else {
      hide Step, Genuine, Inv, Fr.ShownOf, Fr.AfterClick, Fr.AfterSuperseding;
      OtherStepsAreGenuine(truth, s, tick.event);
      if Fr.Supersedes(tick.event) { Fr.SupersedingShows(s, tick); } else { Fr.StepShows(s, tick); }
    }
  }

  /** Whatever the order of clicks, answers and filter changes: every trace row, span row, facet and KPI on
      display is one the server gave for the filters and the snapshot on display. */
  lemma {:induction false} EverythingShownAnswersTheFiltersShown(truth: Truth, backoff: nat, autoLoad: bool, detail: bool,
                                                                hidden: bool, ticks: seq<Tick>)
    requires TruthfulRun(truth, InitialClient(backoff, autoLoad, detail, hidden), ticks)
    ensures Genuine(truth, Fr.ShownOf(Run(InitialClient(backoff, autoLoad, detail, hidden), ticks)))
  {
    if ticks != [] {
      var front := ticks[..|ticks| - 1];
      EverythingShownAnswersTheFiltersShown(truth, backoff, autoLoad, detail, hidden, front);
      EveryRunKeepsInvariant(backoff, autoLoad, detail, hidden, front);
      StepIsGenuine(truth, Run(InitialClient(backoff, autoLoad, detail, hidden), front), ticks[|ticks| - 1]);
    }
  }
}
