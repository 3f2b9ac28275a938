/** The spans that a dashboard summary is made of, and the constant-space accumulator as a function of its state
    (crates/application/src/dashboard_summary.rs). Counts are exact; a cost is a real number, without rounding. */
module SummaryModel {
  import opened Common

  const SAFE_INTEGER_MAX: nat := 9007199254740991
  const ESTIMATED_COST_MAX: real := 1000000000000.0

  /** A floating-point number: a finite value, or one of the values that are not numbers of anything. */
  datatype Float = Finite(value: real) | NonFinite

  function Plus(a: Float, b: Float): Float {
    if a.Finite? && b.Finite? then Finite(a.value + b.value) else NonFinite
  }

  datatype Metrics = Metrics(
    inputTokens: Option<Float>, outputTokens: Option<Float>, totalTokens: Option<Float>,
    totalInputTokens: Option<Float>, totalOutputTokens: Option<Float>, totalAccumulatedTokens: Option<Float>,
    cachedInputTokens: Option<Float>, cacheCreationInputTokens: Option<Float>, reasoningOutputTokens: Option<Float>)

  datatype SpanKind = LlmRequest | ToolExecution | OtherKind
  /** Whether the tokens of a span are known, and for an unavailable source whether the reason given is that the
      metrics are partial. */
  datatype Availability = Available | NotApplicable | SourceUnavailable(partialMetrics: bool) | OtherState
  datatype CostText = EstimatedText | IncompleteText | UnknownText | OtherText

  datatype Span = Span(
    sessionId: Option<string>, turnId: Option<string>, kind: SpanKind, isError: bool, tokens: Availability,
    metrics: Metrics, costText: CostText, currency: Option<string>, estimatedCost: Option<Float>)

  function SumComplete(a: Option<Float>, b: Option<Float>): Option<Float> {
    if a.Some? && b.Some? then Some(Plus(a.value, b.value)) else None
  }

  function Or<T>(a: Option<T>, b: Option<T>): Option<T> { if a.Some? then a else b }

  /** Direct, then total, then cumulative, then accumulated. */
  function TokenTotal(m: Metrics): Option<Float> {
    Or(SumComplete(m.inputTokens, m.outputTokens),
       Or(m.totalTokens, Or(SumComplete(m.totalInputTokens, m.totalOutputTokens), m.totalAccumulatedTokens)))
  }

  // ----- the report contract

  predicate AreFinite(m: Metrics) {
    && IsFinite(m.inputTokens) && IsFinite(m.outputTokens) && IsFinite(m.totalTokens)
    && IsFinite(m.totalInputTokens) && IsFinite(m.totalOutputTokens) && IsFinite(m.totalAccumulatedTokens)
    && IsFinite(m.cachedInputTokens) && IsFinite(m.cacheCreationInputTokens) && IsFinite(m.reasoningOutputTokens)
  }

  predicate IsFinite(value: Option<Float>) { value.Some? ==> value.value.Finite? }

  predicate SomeMetricPresent(m: Metrics) {
    m.inputTokens.Some? || m.outputTokens.Some? || m.totalTokens.Some? || m.totalInputTokens.Some?
    || m.totalOutputTokens.Some? || m.totalAccumulatedTokens.Some?
  }

  predicate TotalPresent(m: Metrics) {
    || m.totalTokens.Some? || m.totalAccumulatedTokens.Some?
    || (m.inputTokens.Some? && m.outputTokens.Some?)
    || (m.totalInputTokens.Some? && m.totalOutputTokens.Some?)
  }

  /** A report span as the wire contract accepts it. */
  predicate ValidSpan(span: Span) {
    && AreFinite(span.metrics)
    && (if TotalPresent(span.metrics) then span.tokens.Available?
        else if SomeMetricPresent(span.metrics) then span.tokens == SourceUnavailable(true)
        else !span.tokens.Available?)
    && IsFinite(span.estimatedCost)
    && !span.costText.OtherText?
  }

  // ----- the accumulator

  predicate Billable(span: Span) {
    TokenTotal(span.metrics).Some? || span.metrics.cachedInputTokens.Some?
    || span.metrics.cacheCreationInputTokens.Some? || span.metrics.reasoningOutputTokens.Some?
  }

  datatype TokenStatus = CompleteTokens | IncompleteTokens | UnavailableTokens
  datatype CostStatus = Estimated | Incomplete | Unknown

  datatype CapacityExceeded = CapacityExceeded

  datatype Counts = Counts(llm: nat, tools: nat, errors: nat)
  datatype Component = Component(sum: nat, incomplete: bool)
  datatype Tokens = Tokens(sum: nat, complete: bool, incomplete: bool)
  datatype Billed = Billed(estimated: bool, incomplete: bool, unknown: bool)
  datatype Cost = Cost(total: real, currency: Option<string>, mixed: bool)

  /** The accumulator's scalars, grouped by what they are about. */
  datatype Accumulator = Accumulator(
    counts: Counts, input: Component, output: Component, tokens: Tokens, billed: Billed, cost: Cost)

  const EMPTY :=
    Accumulator(Counts(0, 0, 0), Component(0, false), Component(0, false), Tokens(0, false, false),
                Billed(false, false, false), Cost(0.0, None, false))

  function Increment(value: nat, amount: nat): Result<nat, CapacityExceeded> {
    if value + amount <= SAFE_INTEGER_MAX then Ok(value + amount) else Err(CapacityExceeded)
  }

  function TokenInteger(value: Float): Result<nat, CapacityExceeded> {
    if value.NonFinite? || !(0.0 <= value.value <= SAFE_INTEGER_MAX as real)
       || value.value.Floor as real != value.value
    then Err(CapacityExceeded)
    else Ok(value.value.Floor)
  }

  function AccumulateComponent(c: Component, value: Option<Float>): Result<Component, CapacityExceeded> {
    match value
    case None => Ok(c.(incomplete := true))
    case Some(number) =>
      var amount :- TokenInteger(number);
      var sum :- Increment(c.sum, amount);
      Ok(c.(sum := sum))
  }

  predicate WellFormedCurrency(currency: string) {
    |currency| == 3 && forall i :: 0 <= i < |currency| ==> 'A' <= currency[i] <= 'Z'
  }

  function PushCounts(c: Counts, span: Span): Result<Counts, CapacityExceeded> {
    var llm :- if span.kind.LlmRequest? then Increment(c.llm, 1) else Ok(c.llm);
    var tools :- if span.kind.ToolExecution? then Increment(c.tools, 1) else Ok(c.tools);
    var errors :- if span.isError then Increment(c.errors, 1) else Ok(c.errors);
    Ok(Counts(llm, tools, errors))
  }

  function PushComponent(c: Component, span: Span, value: Option<Float>): Result<Component, CapacityExceeded> {
    if span.tokens.NotApplicable? then Ok(c) else AccumulateComponent(c, value)
  }

  function PushTokens(t: Tokens, span: Span): Result<Tokens, CapacityExceeded> {
    var total := TokenTotal(span.metrics);
    if total.Some? && span.tokens.Available? then
      var amount :- TokenInteger(total.value);
      var sum :- Increment(t.sum, amount);
      Ok(t.(sum := sum, complete := true))
    else Ok(if span.tokens.NotApplicable? then t else t.(incomplete := true))
  }

  function PushBillable(b: Billed, span: Span): Billed {
    if !Billable(span) then b
    else match span.costText
      case EstimatedText => b.(estimated := true)
      case IncompleteText => b.(incomplete := true)
      case _ => b.(unknown := true)
  }

  function PushCost(c: Cost, span: Span): Result<Cost, CapacityExceeded> {
    if span.estimatedCost.None? then Ok(c)
    else if span.estimatedCost.value.NonFinite? || span.estimatedCost.value.value < 0.0 then Err(CapacityExceeded)
    else
      var total := c.total + span.estimatedCost.value.value;
      if total > ESTIMATED_COST_MAX then Err(CapacityExceeded)
      else match span.currency
        case None => Ok(c.(total := total, mixed := true))
        case Some(currency) =>
          if !WellFormedCurrency(currency) then Err(CapacityExceeded)
          else if c.currency.None? then Ok(c.(total := total, currency := Some(currency)))
          else Ok(c.(total := total, mixed := c.mixed || c.currency.value != currency))
  }

  function Push(a: Accumulator, span: Span): Result<Accumulator, CapacityExceeded> {
    var counts :- PushCounts(a.counts, span);
    var input :- PushComponent(a.input, span, span.metrics.inputTokens);
    var output :- PushComponent(a.output, span, span.metrics.outputTokens);
    var tokens :- PushTokens(a.tokens, span);
    var cost :- PushCost(a.cost, span);
    Ok(Accumulator(counts, input, output, tokens, PushBillable(a.billed, span), cost))
  }

  function Fold(spans: seq<Span>): Result<Accumulator, CapacityExceeded> {
    if spans == [] then Ok(EMPTY)
    else
      var a :- Fold(spans[..|spans| - 1]);
      Push(a, spans[|spans| - 1])
  }

  datatype Kpis = Kpis(
    sessions: nat, turns: nat, llm: nat, tools: nat, errors: nat, inputTokens: Option<nat>, outputTokens: Option<nat>,
    totalTokens: Option<nat>, tokenStatus: TokenStatus, estimatedCost: Option<real>, costStatus: CostStatus,
    currency: Option<string>)

  function TokenStatusOf(t: Tokens): TokenStatus {
    if t.incomplete then IncompleteTokens else if t.complete then CompleteTokens else UnavailableTokens
  }

  function CostStatusOf(b: Billed, mixed: bool): CostStatus {
    if !b.estimated && !b.incomplete then Unknown
    else if b.incomplete || b.unknown || mixed then Incomplete
    else Estimated
  }

  function Finish(a: Accumulator, sessions: nat, turns: nat): Result<Kpis, CapacityExceeded> {
    if sessions > SAFE_INTEGER_MAX || turns > SAFE_INTEGER_MAX then Err(CapacityExceeded)
    else
      var tokenStatus, costStatus := TokenStatusOf(a.tokens), CostStatusOf(a.billed, a.cost.mixed);
      var known := costStatus != Unknown && !a.cost.mixed;
      Ok(Kpis(
        sessions, turns, a.counts.llm, a.counts.tools, a.counts.errors,
        if !tokenStatus.UnavailableTokens? && !a.input.incomplete then Some(a.input.sum) else None,
        if !tokenStatus.UnavailableTokens? && !a.output.incomplete then Some(a.output.sum) else None,
        if tokenStatus.CompleteTokens? then Some(a.tokens.sum) else None,
        tokenStatus,
        if known then Some(a.cost.total) else None,
        costStatus,
        if known then a.cost.currency else None))
  }
}
