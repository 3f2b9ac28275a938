/** The browser's whole-list summary (ui/report/view-summary.ts), and how far the accumulator agrees with it. */
module ViewSummary {
  import opened Common
  import opened SummaryModel
  import opened SummaryTheorems

  datatype ViewSummary = ViewSummary(
    sessions: nat, turns: nat, llmRequests: nat, toolExecutions: nat, errors: nat, inputTokens: Float,
    outputTokens: Float, totalTokens: Option<Float>, tokenStatus: TokenStatus, estimatedCost: Float,
    costStatus: CostStatus)

  function FloatTotal(f: Span -> Float, spans: seq<Span>): Float {
    if spans == [] then Finite(0.0) else Plus(FloatTotal(f, spans[..|spans| - 1]), f(spans[|spans| - 1]))
  }

  function Number(p: Span -> bool, spans: seq<Span>): nat {
    if spans == [] then 0 else Number(p, spans[..|spans| - 1]) + if p(spans[|spans| - 1]) then 1 else 0
  }

  function OrZero(value: Option<Float>): Float { if value.Some? then value.value else Finite(0.0) }
  function ViewInput(span: Span): Float { OrZero(span.metrics.inputTokens) }
  function ViewOutput(span: Span): Float { OrZero(span.metrics.outputTokens) }
  function ViewCost(span: Span): Float { OrZero(span.estimatedCost) }
  function ViewTokens(span: Span): Float { if HasTotal(span) then TokenTotal(span.metrics).value else Finite(0.0) }

  function Named(id: Option<string>): set<string> { if id.Some? && id.value != "" then {id.value} else {} }

  function SessionsOf(spans: seq<Span>): set<string> {
    if spans == [] then {} else SessionsOf(spans[..|spans| - 1]) + Named(spans[|spans| - 1].sessionId)
  }

  function TurnsOf(spans: seq<Span>): set<string> {
    if spans == [] then {} else TurnsOf(spans[..|spans| - 1]) + Named(spans[|spans| - 1].turnId)
  }

  function AggregateCostStatus(texts: seq<CostText>): CostStatus {
    var estimated := |Filter((t: CostText) => t == EstimatedText, texts)|;
    var incomplete := |Filter((t: CostText) => t == IncompleteText, texts)|;
    var unknown := |Filter((t: CostText) => t == UnknownText, texts)|;
    if estimated == 0 && incomplete == 0 then Unknown
    else if incomplete > 0 || unknown > 0 then Incomplete
    else Estimated
  }

  function BillableTexts(spans: seq<Span>): seq<CostText> {
    if spans == [] then []
    else
      var last := spans[|spans| - 1];
      BillableTexts(spans[..|spans| - 1]) + if Billable(last) then [last.costText] else []
  }

  function ViewTokenStatus(spans: seq<Span>): TokenStatus {
    if Number(LacksTotal, spans) > 0 then IncompleteTokens
    else if Number(HasTotal, spans) > 0 then CompleteTokens
    else UnavailableTokens
  }

  function Summary(spans: seq<Span>): ViewSummary {
    ViewSummary(
      |SessionsOf(spans)|, |TurnsOf(spans)|, Total(LlmOf, spans), Total(ToolsOf, spans), Total(ErrorsOf, spans),
      FloatTotal(ViewInput, spans), FloatTotal(ViewOutput, spans),
      if ViewTokenStatus(spans).CompleteTokens? then Some(FloatTotal(ViewTokens, spans)) else None,
      ViewTokenStatus(spans), FloatTotal(ViewCost, spans), AggregateCostStatus(BillableTexts(spans)))
  }

  lemma PlusZero(a: Float)
    ensures Plus(a, Finite(0.0)) == a
  {
  }

  /** The loop of the source. */
  method SummarizeVisible(spans: seq<Span>) returns (summary: ViewSummary)
    ensures summary == Summary(spans)
  {
    var sessions: set<string>, turns: set<string> := {}, {};
    var llmRequests, toolExecutions, errors := 0, 0, 0;
    var inputTokens, outputTokens, estimatedCost := Finite(0.0), Finite(0.0), Finite(0.0);
    var completeTokenTotal := Finite(0.0);
    var completeTokenSpans, incompleteTokenSpans := 0, 0;
    for i := 0 to |spans|
      invariant sessions == SessionsOf(spans[..i]) && turns == TurnsOf(spans[..i])
      invariant llmRequests == Total(LlmOf, spans[..i])
      invariant toolExecutions == Total(ToolsOf, spans[..i])
      invariant errors == Total(ErrorsOf, spans[..i])
      invariant inputTokens == FloatTotal(ViewInput, spans[..i])
      invariant outputTokens == FloatTotal(ViewOutput, spans[..i])
      invariant estimatedCost == FloatTotal(ViewCost, spans[..i])
      invariant completeTokenTotal == FloatTotal(ViewTokens, spans[..i])
      invariant completeTokenSpans == Number(HasTotal, spans[..i])
      invariant incompleteTokenSpans == Number(LacksTotal, spans[..i])
    {
      var span := spans[i];
      assert spans[..i + 1][..i] == spans[..i] && spans[..i + 1][i] == span;
      sessions := sessions + Named(span.sessionId);
      turns := turns + Named(span.turnId);
      if span.kind.LlmRequest? { llmRequests := llmRequests + 1; }
      if span.kind.ToolExecution? { toolExecutions := toolExecutions + 1; }
      if span.isError { errors := errors + 1; }
      inputTokens := Plus(inputTokens, OrZero(span.metrics.inputTokens));
      outputTokens := Plus(outputTokens, OrZero(span.metrics.outputTokens));
      var spanTokenTotal := TokenTotal(span.metrics);
      PlusZero(completeTokenTotal);
      if spanTokenTotal.Some? && span.tokens.Available? {
        completeTokenTotal := Plus(completeTokenTotal, spanTokenTotal.value);
        completeTokenSpans := completeTokenSpans + 1;
      } else if !span.tokens.NotApplicable? {
        incompleteTokenSpans := incompleteTokenSpans + 1;
      }
      estimatedCost := Plus(estimatedCost, OrZero(span.estimatedCost));
    }
    assert spans[..|spans|] == spans;
    var tokenStatus := if incompleteTokenSpans > 0 then IncompleteTokens
                       else if completeTokenSpans > 0 then CompleteTokens else UnavailableTokens;
    summary := ViewSummary(
      |sessions|, |turns|, llmRequests, toolExecutions, errors, inputTokens, outputTokens,
      if tokenStatus.CompleteTokens? then Some(completeTokenTotal) else None,
      tokenStatus, estimatedCost, AggregateCostStatus(BillableTexts(spans)));
  }

  // ----- the fast form refines the simple one

  lemma {:induction false} NumberIsAny(p: Span -> bool, spans: seq<Span>)
    ensures Number(p, spans) > 0 <==> Any(p, spans)
  {
    if spans == [] {
    } else {
      var front, last := spans[..|spans| - 1], spans[|spans| - 1];
      NumberIsAny(p, front);
      assert spans == front + [last];
      AnyOfOneMore(p, front, last);
    }
  }

  lemma {:induction false} TextsFilterIsAny(text: CostText, spans: seq<Span>)
    ensures |Filter((t: CostText) => t == text, BillableTexts(spans))| > 0 <==> Any(s => BilledAs(s, text), spans)
  {
    var p := (t: CostText) => t == text;
    if spans == [] {
    } else {
      var front, last := spans[..|spans| - 1], spans[|spans| - 1];
      TextsFilterIsAny(text, front);
      assert spans == front + [last];
      AnyOfOneMore(s => BilledAs(s, text), front, last);
      FilterConcat(p, BillableTexts(front), if Billable(last) then [last.costText] else []);
      assert BillableTexts(spans) == BillableTexts(front) + if Billable(last) then [last.costText] else [];
    }
  }

  lemma {:induction false} TotalsMatch(f: Span -> Float, g: Span -> nat, spans: seq<Span>)
    requires forall i :: 0 <= i < |spans| ==> f(spans[i]) == Finite(g(spans[i]) as real)
    ensures FloatTotal(f, spans) == Finite(Total(g, spans) as real)
  {
    if spans == [] {
    } else {
      var front := spans[..|spans| - 1];
      assert forall i :: 0 <= i < |front| ==> front[i] == spans[i];
      TotalsMatch(f, g, front);
    }
  }

  lemma {:induction false} CostsMatch(f: Span -> Float, g: Span -> real, spans: seq<Span>)
    requires forall i :: 0 <= i < |spans| ==> f(spans[i]) == Finite(g(spans[i]))
    ensures FloatTotal(f, spans) == Finite(TotalCost(g, spans))
  {
    if spans == [] {
    } else {
      var front := spans[..|spans| - 1];
      assert forall i :: 0 <= i < |front| ==> front[i] == spans[i];
      CostsMatch(f, g, front);
    }
  }

  /** Among accepted spans every number the browser adds up is the whole number the accumulator adds up. */
  lemma TokensAgree(spans: seq<Span>)
    requires AllFit(spans)
    ensures FloatTotal(ViewTokens, spans) == Finite(Total(TokensOf, spans) as real)
    ensures FloatTotal(ViewCost, spans) == Finite(TotalCost(CostOf, spans))
  {
    hide FloatTotal, Total, TotalCost, AmountOf, ComponentFits, TokenTotal;
    forall i | 0 <= i < |spans|
      ensures ViewTokens(spans[i]) == Finite(TokensOf(spans[i]) as real)
      ensures ViewCost(spans[i]) == Finite(CostOf(spans[i]))
    {
      assert SpanFits(spans[i]);
      if HasTotal(spans[i]) { AmountIsNumber(TokenTotal(spans[i].metrics)); }
    }
    TotalsMatch(ViewTokens, TokensOf, spans);
    CostsMatch(ViewCost, CostOf, spans);
  }

  predicate BilledOtherwise(span: Span) { Billable(span) && span.costText.OtherText? }

  /** The browser's cost status, by what occurs. */
  lemma CostStatusByEvidence(spans: seq<Span>)
    ensures AggregateCostStatus(BillableTexts(spans)) ==
              (if !Any(s => BilledAs(s, EstimatedText), spans) && !Any(s => BilledAs(s, IncompleteText), spans) then Unknown
               else if Any(s => BilledAs(s, IncompleteText), spans) || Any(s => BilledAs(s, UnknownText), spans)
               then Incomplete else Estimated)
  {
    TextsFilterIsAny(EstimatedText, spans);
    TextsFilterIsAny(IncompleteText, spans);
    TextsFilterIsAny(UnknownText, spans);
  }

  lemma UnknownOrOther(spans: seq<Span>)
    ensures Any(BilledUnknown, spans) <==> Any(s => BilledAs(s, UnknownText), spans) || Any(BilledOtherwise, spans)
  {
    if i :| 0 <= i < |spans| && BilledUnknown(spans[i]) {
      assert BilledAs(spans[i], UnknownText) || BilledOtherwise(spans[i]);
    }
    if i :| 0 <= i < |spans| && BilledAs(spans[i], UnknownText) { assert BilledUnknown(spans[i]); }
    if i :| 0 <= i < |spans| && BilledOtherwise(spans[i]) { assert BilledUnknown(spans[i]); }
  }

  /** Whatever list the accumulator accepts, it ends with the browser's counts, token status and token total; with
      the browser's cost status exactly unless the browser says `estimated` where currencies are mixed or a billable
      span has a status of its own, which the report contract refuses; and with the browser's cost whenever it gives
      one. */
  lemma AccumulatorAgreesWithView(spans: seq<Span>, sessions: nat, turns: nat)
    requires Fold(spans).Ok? && Finish(Fold(spans).value, sessions, turns).Ok?
    ensures var k, v := Finish(Fold(spans).value, sessions, turns).value, Summary(spans);
            && k.llm == v.llmRequests && k.tools == v.toolExecutions && k.errors == v.errors
            && k.tokenStatus == v.tokenStatus
            && (match k.totalTokens case None => v.totalTokens == None case Some(n) => v.totalTokens == Some(Finite(n as real)))
            && (k.costStatus == v.costStatus <==>
                  !(v.costStatus.Estimated? && (Mixed(spans) || Any(BilledOtherwise, spans))))
            && (k.estimatedCost.Some? ==> v.estimatedCost == Finite(k.estimatedCost.value))
            && (k.estimatedCost.Some? <==> k.costStatus != Unknown && !Mixed(spans))
  {
    FoldIsTotals(spans);
    NumberIsAny(LacksTotal, spans);
    NumberIsAny(HasTotal, spans);
    TokensAgree(spans);
    CostStatusByEvidence(spans);
    UnknownOrOther(spans);
    hide Fold, Total, TotalCost, Any, Mixed, FirstCurrency, AggregateCostStatus, BillableTexts, Number, FloatTotal;
  }

  /** A reported cost is in one currency, which every span with a cost names. */
  lemma ReportedCurrencyIsEveryones(spans: seq<Span>, sessions: nat, turns: nat)
    requires Fold(spans).Ok? && Finish(Fold(spans).value, sessions, turns).Ok?
    ensures var k := Finish(Fold(spans).value, sessions, turns).value;
            k.estimatedCost.Some? ==>
              forall i :: 0 <= i < |spans| && Costed(spans[i]) ==> spans[i].currency.Some? && spans[i].currency == k.currency
  {
    FoldIsTotals(spans);
    FirstCurrencyIsSomeones(spans);
  }

  function SkippedInput(span: Span): Float { if Counted(span) then Finite(0.0) else ViewInput(span) }
  function SkippedOutput(span: Span): Float { if Counted(span) then Finite(0.0) else ViewOutput(span) }

  lemma ComponentOfOne(counted: bool, value: Option<Float>)
    requires counted ==> ComponentFits(value)
    ensures OrZero(value) == Plus(Finite((if counted then AmountOf(value) else 0) as real),
                                  if counted then Finite(0.0) else OrZero(value))
  {
    if counted { AmountIsNumber(value); }
    hide AmountOf, OrZero, ComponentFits;
  }

  lemma AmountIsNumber(value: Option<Float>)
    requires ComponentFits(value)
    ensures OrZero(value) == Finite(AmountOf(value) as real)
  {
  }

  lemma PlusRegroups(a: nat, b: Float, c: nat, d: Float)
    ensures Plus(Plus(Finite(a as real), b), Plus(Finite(c as real), d)) == Plus(Finite((a + c) as real), Plus(b, d))
  {
  }

  /** A total of sums is the sum of the totals. */
  lemma {:induction false} TotalsSplit(f: Span -> Float, g: Span -> nat, h: Span -> Float, spans: seq<Span>)
    requires forall i :: 0 <= i < |spans| ==> f(spans[i]) == Plus(Finite(g(spans[i]) as real), h(spans[i]))
    ensures FloatTotal(f, spans) == Plus(Finite(Total(g, spans) as real), FloatTotal(h, spans))
  {
    if spans == [] {
    } else {
      var n := |spans| - 1;
      var front := spans[..n];
      assert forall i :: 0 <= i < n ==> front[i] == spans[i];
      TotalsSplit(f, g, h, front);
      PlusRegroups(Total(g, front), FloatTotal(h, front), g(spans[n]), h(spans[n]));
      hide Plus;
    }
  }

  lemma ComponentsAgree(spans: seq<Span>)
    requires AllFit(spans)
    ensures FloatTotal(ViewInput, spans) == Plus(Finite(Total(InputOf, spans) as real), FloatTotal(SkippedInput, spans))
    ensures FloatTotal(ViewOutput, spans) == Plus(Finite(Total(OutputOf, spans) as real), FloatTotal(SkippedOutput, spans))
  {
    hide FloatTotal, Total, OrZero, AmountOf, ComponentFits, CostFits, TokenTotal;
    forall i | 0 <= i < |spans|
      ensures ViewInput(spans[i]) == Plus(Finite(InputOf(spans[i]) as real), SkippedInput(spans[i]))
      ensures ViewOutput(spans[i]) == Plus(Finite(OutputOf(spans[i]) as real), SkippedOutput(spans[i]))
    {
      assert SpanFits(spans[i]);
      ComponentOfOne(Counted(spans[i]), spans[i].metrics.inputTokens);
      ComponentOfOne(Counted(spans[i]), spans[i].metrics.outputTokens);
    }
    TotalsSplit(ViewInput, InputOf, SkippedInput, spans);
    TotalsSplit(ViewOutput, OutputOf, SkippedOutput, spans);
  }

  /** A component is reported exactly when the tokens are known at all and no span lacks it. */
  lemma ComponentsReportedIff(spans: seq<Span>, sessions: nat, turns: nat)
    requires Fold(spans).Ok? && Finish(Fold(spans).value, sessions, turns).Ok?
    ensures var k, status := Finish(Fold(spans).value, sessions, turns).value, ViewTokenStatus(spans);
            && (k.inputTokens.Some? <==> !status.UnavailableTokens? && !Any(LacksInput, spans))
            && (k.outputTokens.Some? <==> !status.UnavailableTokens? && !Any(LacksOutput, spans))
  {
    FoldIsTotals(spans);
    NumberIsAny(LacksTotal, spans);
    NumberIsAny(HasTotal, spans);
    hide Fold, Total, TotalCost, Any, Mixed, FirstCurrency, Number;
  }

  /** The browser also adds the tokens of spans to which tokens do not apply; the two sums agree exactly when those
      come to nothing. */
  lemma ComponentsAgreeIff(spans: seq<Span>, sessions: nat, turns: nat)
    requires Fold(spans).Ok? && Finish(Fold(spans).value, sessions, turns).Ok?
    ensures var k, v := Finish(Fold(spans).value, sessions, turns).value, Summary(spans);
            && (k.inputTokens.Some? ==>
                  (v.inputTokens == Finite(k.inputTokens.value as real) <==>
                     FloatTotal(SkippedInput, spans) == Finite(0.0)))
            && (k.outputTokens.Some? ==>
                  (v.outputTokens == Finite(k.outputTokens.value as real) <==>
                     FloatTotal(SkippedOutput, spans) == Finite(0.0)))
  {
    FoldIsTotals(spans);
    ComponentsAgree(spans);
    hide Fold, Total, TotalCost, Any, Mixed, FirstCurrency, AggregateCostStatus, BillableTexts, Number, FloatTotal,
         SessionsOf, TurnsOf, ViewTokenStatus;
  }

  // ----- spans that satisfy the report contract

  predicate AllValid(spans: seq<Span>) { forall i :: 0 <= i < |spans| ==> ValidSpan(spans[i]) }

  /** The contract makes the availability of tokens and the metrics say the same. */
  lemma ValidSpanSays(span: Span)
    requires ValidSpan(span)
    ensures HasTotal(span) <==> TokenTotal(span.metrics).Some?
    ensures SkippedInput(span) == Finite(0.0) && SkippedOutput(span) == Finite(0.0)
    ensures !BilledOtherwise(span)
  {
  }

  lemma {:induction false} NothingSkipped(f: Span -> Float, spans: seq<Span>)
    requires forall i :: 0 <= i < |spans| ==> f(spans[i]) == Finite(0.0)
    ensures FloatTotal(f, spans) == Finite(0.0)
  {
    if spans == [] {
    } else {
      var front := spans[..|spans| - 1];
      assert forall i :: 0 <= i < |front| ==> front[i] == spans[i];
      NothingSkipped(f, front);
    }
  }

  /** Over spans that satisfy the report contract the fast form and the simple one agree on everything both
      report: a component that is reported is the browser's, the token status can be read off the metrics, and
      the cost status is the browser's exactly unless the browser says `estimated` of several currencies. */
  lemma ValidSpansAgree(spans: seq<Span>, sessions: nat, turns: nat)
    requires Fold(spans).Ok? && Finish(Fold(spans).value, sessions, turns).Ok? && AllValid(spans)
    ensures var k, v := Finish(Fold(spans).value, sessions, turns).value, Summary(spans);
            && (k.inputTokens.Some? ==> v.inputTokens == Finite(k.inputTokens.value as real))
            && (k.outputTokens.Some? ==> v.outputTokens == Finite(k.outputTokens.value as real))
            && (k.costStatus == v.costStatus <==> !(v.costStatus.Estimated? && Mixed(spans)))
            && (forall i :: 0 <= i < |spans| ==> (HasTotal(spans[i]) <==> TokenTotal(spans[i].metrics).Some?))
  {
    hide ValidSpan, FloatTotal, Summary, Finish, Fold, Mixed, HasTotal, TokenTotal, SkippedInput, SkippedOutput;
    forall i | 0 <= i < |spans|
      ensures HasTotal(spans[i]) <==> TokenTotal(spans[i].metrics).Some?
      ensures SkippedInput(spans[i]) == Finite(0.0) && SkippedOutput(spans[i]) == Finite(0.0)
      ensures !BilledOtherwise(spans[i])
    {
      ValidSpanSays(spans[i]);
    }
    NothingSkipped(SkippedInput, spans);
    NothingSkipped(SkippedOutput, spans);
    ComponentsAgreeIff(spans, sessions, turns);
    AccumulatorAgreesWithView(spans, sessions, turns);
  }

  const NO_METRICS := Metrics(None, None, None, None, None, None, None, None, None)

  /** A request that cost one unit of a currency. */
  function Priced(currency: string): Span {
    Span(None, None, LlmRequest, false, Available, NO_METRICS.(totalTokens := Some(Finite(1.0))), EstimatedText, Some(currency),
         Some(Finite(1.0)))
  }

  /** What the accumulator holds after `n` such requests. */
  function AfterPriced(n: nat, currency: string, mixed: bool): Accumulator {
    Accumulator(Counts(n, 0, 0), Component(0, true), Component(0, true), Tokens(n, true, false), Billed(true, false, false),
                Cost(n as real, Some(currency), mixed))
  }

  lemma PricedPushes(c: string, d: string)
    requires WellFormedCurrency(c) && WellFormedCurrency(d) && c != d
    ensures Push(EMPTY, Priced(c)) == Ok(AfterPriced(1, c, false))
    ensures Push(AfterPriced(1, c, false), Priced(d)) == Ok(AfterPriced(2, c, true))
  {
    hide WellFormedCurrency;
  }

  lemma PricedFolds(c: string, d: string)
    requires WellFormedCurrency(c) && WellFormedCurrency(d) && c != d
    ensures Fold([Priced(c), Priced(d)]) == Ok(AfterPriced(2, c, true))
  {
    PricedPushes(c, d);
    hide Push, Priced, WellFormedCurrency;
    assert [Priced(c), Priced(d)][..1] == [Priced(c)] && [Priced(c)][..0] == [];
    assert Fold([]) == Ok(EMPTY);
    assert Fold([Priced(c)]) == Push(EMPTY, Priced(c));
  }

  /** Two requests priced in two currencies satisfy the contract, and the two summaries disagree about them. */
  lemma MixedCurrenciesDisagree(c: string, d: string)
    requires WellFormedCurrency(c) && WellFormedCurrency(d) && c != d
    ensures var spans := [Priced(c), Priced(d)];
            && AllValid(spans) && Fold(spans).Ok? && Finish(Fold(spans).value, 1, 1).Ok?
            && Finish(Fold(spans).value, 1, 1).value.costStatus == Incomplete && Summary(spans).costStatus == Estimated
  {
    var spans := [Priced(c), Priced(d)];
    PricedFolds(c, d);
    CostStatusByEvidence(spans);
    assert BilledAs(spans[0], EstimatedText);
    hide Fold, BillableTexts, AggregateCostStatus, WellFormedCurrency, FloatTotal, Total, Number, SessionsOf, TurnsOf, ViewTokenStatus;
  }

  // ----- the accumulator as the object it is

  /** Scalar state only; a push works on a clone, so that a rejected span leaves no mark. */
  class DashboardSummaryAccumulator {
    var llm: nat
    var tools: nat
    var errors: nat
    var input: nat
    var output: nat
    var incompleteInput: bool
    var incompleteOutput: bool
    var tokens: nat
    var completeTokens: bool
    var incompleteTokens: bool
    var estimated: bool
    var incompleteCost: bool
    var unknownCost: bool
    var cost: real
    var currency: Option<string>
    var mixedCurrency: bool

    ghost function State(): Accumulator
      reads this
    {
      Accumulator(
        Counts(llm, tools, errors), Component(input, incompleteInput), Component(output, incompleteOutput),
        Tokens(tokens, completeTokens, incompleteTokens), Billed(estimated, incompleteCost, unknownCost),
        Cost(cost, currency, mixedCurrency))
    }

    constructor ()
      ensures State() == EMPTY
    {
      llm, tools, errors, input, output, tokens := 0, 0, 0, 0, 0, 0;
      incompleteInput, incompleteOutput, completeTokens, incompleteTokens := false, false, false, false;
      estimated, incompleteCost, unknownCost := false, false, false;
      cost, currency, mixedCurrency := 0.0, None, false;
    }

    method AssignCounts(other: DashboardSummaryAccumulator)
      modifies `llm, `tools, `errors, `input, `output, `incompleteInput, `incompleteOutput
      ensures State() == old(State()).(counts := old(other.State()).counts, input := old(other.State()).input,
                                       output := old(other.State()).output)
    {
      llm, tools, errors := other.llm, other.tools, other.errors;
      input, output := other.input, other.output;
      incompleteInput, incompleteOutput := other.incompleteInput, other.incompleteOutput;
    }

    method AssignTokens(other: DashboardSummaryAccumulator)
      modifies `tokens, `completeTokens, `incompleteTokens, `estimated, `incompleteCost, `unknownCost
      ensures State() == old(State()).(tokens := old(other.State()).tokens, billed := old(other.State()).billed)
    {
      tokens, completeTokens, incompleteTokens := other.tokens, other.completeTokens, other.incompleteTokens;
      estimated, incompleteCost, unknownCost := other.estimated, other.incompleteCost, other.unknownCost;
    }

    method Assign(other: DashboardSummaryAccumulator)
      requires other != this
      modifies this
      ensures State() == old(other.State())
    {
      AssignCounts(other);
      AssignTokens(other);
      cost, currency, mixedCurrency := other.cost, other.currency, other.mixedCurrency;
    }

    /** Accepts the span whole or not at all. */
    method Push(span: Span) returns (ok: bool)
      modifies this
      ensures ok == SummaryModel.Push(old(State()), span).Ok?
      ensures State() == if ok then SummaryModel.Push(old(State()), span).value else old(State())
    {
      var next := new DashboardSummaryAccumulator();
      next.Assign(this);
      ok := next.PushChecked(span);
      if ok { Assign(next); }
    }

    /** On failure the fields before the failing check have already moved. */
    method PushChecked(span: Span) returns (ok: bool)
      modifies this
      ensures ok == SummaryModel.Push(old(State()), span).Ok?
      ensures ok ==> State() == SummaryModel.Push(old(State()), span).value
    {
      hide PushCounts, PushComponent, PushTokens, PushCost;
      ok := CountSpan(span);
      if !ok { return; }
      ok := AddComponents(span);
      if !ok { return; }
      ok := AddTokens(span);
      if !ok { return; }
      AddBilling(span);
      ok := AddCost(span);
    }

    method AddComponents(span: Span) returns (ok: bool)
      modifies `input, `output, `incompleteInput, `incompleteOutput
      ensures var i := PushComponent(old(State()).input, span, span.metrics.inputTokens);
              var o := PushComponent(old(State()).output, span, span.metrics.outputTokens);
              ok == (i.Ok? && o.Ok?) && (ok ==> State().input == i.value && State().output == o.value)
    {
      if span.tokens.NotApplicable? { return true; }
      var inputDone := AccumulateComponent(Component(input, incompleteInput), span.metrics.inputTokens);
      if inputDone.Err? { return false; }
      input, incompleteInput := inputDone.value.sum, inputDone.value.incomplete;
      var outputDone := AccumulateComponent(Component(output, incompleteOutput), span.metrics.outputTokens);
      if outputDone.Err? { return false; }
      output, incompleteOutput := outputDone.value.sum, outputDone.value.incomplete;
      return true;
    }

    method AddBilling(span: Span)
      modifies `estimated, `incompleteCost, `unknownCost
      ensures State().billed == PushBillable(old(State()).billed, span)
    {
      if Billable(span) {
        match span.costText {
          case EstimatedText => estimated := true;
          case IncompleteText => incompleteCost := true;
          case _ => unknownCost := true;
        }
      }
    }

    method CountSpan(span: Span) returns (ok: bool)
      modifies `llm, `tools, `errors
      ensures ok == PushCounts(old(State()).counts, span).Ok?
      ensures ok ==> State().counts == PushCounts(old(State()).counts, span).value
    {
      if span.kind.LlmRequest? {
        if llm + 1 > SAFE_INTEGER_MAX { return false; }
        llm := llm + 1;
      }
      if span.kind.ToolExecution? {
        if tools + 1 > SAFE_INTEGER_MAX { return false; }
        tools := tools + 1;
      }
      if span.isError {
        if errors + 1 > SAFE_INTEGER_MAX { return false; }
        errors := errors + 1;
      }
      return true;
    }

    method AddTokens(span: Span) returns (ok: bool)
      modifies `tokens, `completeTokens, `incompleteTokens
      ensures ok == PushTokens(old(State()).tokens, span).Ok?
      ensures ok ==> State().tokens == PushTokens(old(State()).tokens, span).value
    {
      var total := TokenTotal(span.metrics);
      if total.Some? && span.tokens.Available? {
        var amount := TokenInteger(total.value);
        if amount.Err? { return false; }
        if tokens + amount.value > SAFE_INTEGER_MAX { return false; }
        tokens := tokens + amount.value;
        completeTokens := true;
      } else if !span.tokens.NotApplicable? {
        incompleteTokens := true;
      }
      return true;
    }

    method AddCost(span: Span) returns (ok: bool)
      modifies `cost, `currency, `mixedCurrency
      ensures ok == PushCost(old(State()).cost, span).Ok?
      ensures ok ==> State().cost == PushCost(old(State()).cost, span).value
    {
      if span.estimatedCost.None? { return true; }
      if span.estimatedCost.value.NonFinite? || span.estimatedCost.value.value < 0.0 { return false; }
      cost := cost + span.estimatedCost.value.value;
      if cost > ESTIMATED_COST_MAX { return false; }
      if span.currency.Some? {
        if !WellFormedCurrency(span.currency.value) { return false; }
        if currency.None? {
          currency := span.currency;
        } else if currency != span.currency {
          mixedCurrency := true;
        }
      } else {
        mixedCurrency := true;
      }
      return true;
    }
  }
}
