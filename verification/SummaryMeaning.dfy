/** What a summary means, span by span: the figures of one span read off its fields, and the rule by which the figures
    of two lists make those of the list of both. */
module SummaryMeaning {
  import opened Common
  import opened SummaryModel
  import opened SummaryTheorems
  import opened ViewSummary

  // ----- the token total of a span

  /** The sum of two counts, where both are numbers. */
  function Added(a: Float, b: Float): Float {
    match (a, b)
    case (Finite(x), Finite(y)) => Finite(x + y)
    case _ => NonFinite
  }

  /** The direct counts if both are there, otherwise the total, otherwise the cumulative counts if both are there,
      otherwise the accumulated count. */
  lemma TokenTotalIs(m: Metrics)
    ensures TokenTotal(m) ==
              if m.inputTokens.Some? && m.outputTokens.Some? then Some(Added(m.inputTokens.value, m.outputTokens.value))
              else if m.totalTokens.Some? then m.totalTokens
              else if m.totalInputTokens.Some? && m.totalOutputTokens.Some?
              then Some(Added(m.totalInputTokens.value, m.totalOutputTokens.value))
              else m.totalAccumulatedTokens
    ensures TokenTotal(m).Some? <==> TotalPresent(m)
  {
  }

  // ----- one span

  /** A whole number that a counter can hold. */
  predicate Whole(f: Float) {
    f.Finite? && 0.0 <= f.value <= 9007199254740991.0 && f.value.Floor as real == f.value
  }

  predicate WholeOrAbsent(f: Option<Float>) { f.Some? ==> Whole(f.value) }

  predicate Applies(span: Span) { !span.tokens.NotApplicable? }

  predicate Totalled(span: Span) { span.tokens.Available? && TotalPresent(span.metrics) }

  predicate PriceFits(span: Span) {
    span.estimatedCost.Some? ==>
      && span.estimatedCost.value.Finite? && 0.0 <= span.estimatedCost.value.value <= 1000000000000.0
      && (span.currency.Some? ==>
            |span.currency.value| == 3 && forall i :: 0 <= i < 3 ==> 'A' <= span.currency.value[i] <= 'Z')
  }

  predicate Acceptable(span: Span) {
    && (Applies(span) ==> WholeOrAbsent(span.metrics.inputTokens) && WholeOrAbsent(span.metrics.outputTokens))
    && (Totalled(span) ==> WholeOrAbsent(TokenTotal(span.metrics)))
    && PriceFits(span)
  }

  /** The component of one span: its count, or the mark that it is missing. */
  predicate IsComponentOf(c: Component, span: Span, value: Option<Float>) {
    if !Applies(span) then c == Component(0, false)
    else if value.None? then c == Component(0, true)
    else !c.incomplete && value.value == Finite(c.sum as real)
  }

  predicate IsBillable(span: Span) {
    TotalPresent(span.metrics) || span.metrics.cachedInputTokens.Some? || span.metrics.cacheCreationInputTokens.Some?
    || span.metrics.reasoningOutputTokens.Some?
  }

  /** Everything that one span contributes. */
  predicate IsAccountOf(a: Accumulator, span: Span) {
    && a.counts.llm == (if span.kind.LlmRequest? then 1 else 0)
    && a.counts.tools == (if span.kind.ToolExecution? then 1 else 0)
    && a.counts.errors == (if span.isError then 1 else 0)
    && IsComponentOf(a.input, span, span.metrics.inputTokens)
    && IsComponentOf(a.output, span, span.metrics.outputTokens)
    && (a.tokens.complete <==> Totalled(span))
    && (a.tokens.incomplete <==> Applies(span) && !Totalled(span))
    && (if Totalled(span) then TokenTotal(span.metrics) == Some(Finite(a.tokens.sum as real)) else a.tokens.sum == 0)
    && (a.billed.estimated <==> IsBillable(span) && span.costText.EstimatedText?)
    && (a.billed.incomplete <==> IsBillable(span) && span.costText.IncompleteText?)
    && (a.billed.unknown <==> IsBillable(span) && (span.costText.UnknownText? || span.costText.OtherText?))
    && (if span.estimatedCost.Some? then
          span.estimatedCost.value == Finite(a.cost.total) && a.cost.currency == span.currency
          && (a.cost.mixed <==> span.currency.None?)
        else a.cost == Cost(0.0, None, false))
  }

  lemma WholeIs(f: Float)
    ensures TokenInteger(f).Ok? <==> Whole(f)
    ensures Whole(f) ==> f == Finite(TokenInteger(f).value as real)
  {
  }

  lemma PushOnEmpty(span: Span)
    ensures Fold([span]) == Push(EMPTY, span)
  {
    assert [span][..0] == [];
  }

  lemma ComponentOfOneSpan(span: Span, value: Option<Float>)
    ensures var r := PushComponent(Component(0, false), span, value);
            && (r.Ok? <==> (Applies(span) ==> WholeOrAbsent(value)))
            && (r.Ok? ==> IsComponentOf(r.value, span, value))
  {
    if value.Some? { WholeIs(value.value); }
    hide TokenInteger, Whole;
  }

  lemma TokensOfOneSpan(span: Span)
    ensures var r := PushTokens(Tokens(0, false, false), span);
            && (r.Ok? <==> (Totalled(span) ==> WholeOrAbsent(TokenTotal(span.metrics))))
            && (r.Ok? ==>
                  && (r.value.complete <==> Totalled(span))
                  && (r.value.incomplete <==> Applies(span) && !Totalled(span))
                  && (if Totalled(span) then TokenTotal(span.metrics) == Some(Finite(r.value.sum as real)) else r.value.sum == 0))
  {
    TokenTotalIs(span.metrics);
    if TokenTotal(span.metrics).Some? { WholeIs(TokenTotal(span.metrics).value); }
    hide TokenInteger, Whole, TokenTotal, TotalPresent;
  }

  lemma CostOfOneSpan(span: Span)
    ensures var r := PushCost(Cost(0.0, None, false), span);
            && (r.Ok? <==> PriceFits(span))
            && (r.Ok? ==>
                  if span.estimatedCost.Some? then
                    span.estimatedCost.value == Finite(r.value.total) && r.value.currency == span.currency
                    && (r.value.mixed <==> span.currency.None?)
                  else r.value == Cost(0.0, None, false))
  {
  }

  lemma BillingOfOneSpan(span: Span)
    ensures var b := PushBillable(Billed(false, false, false), span);
            && (b.estimated <==> IsBillable(span) && span.costText.EstimatedText?)
            && (b.incomplete <==> IsBillable(span) && span.costText.IncompleteText?)
            && (b.unknown <==> IsBillable(span) && (span.costText.UnknownText? || span.costText.OtherText?))
  {
    TokenTotalIs(span.metrics);
    hide TokenTotal, TotalPresent;
  }

  /** A span alone is accepted exactly when its counts are whole and its price fits, and leaves exactly its account. */
  lemma OneSpan(span: Span)
    ensures Fold([span]).Ok? <==> Acceptable(span)
    ensures Fold([span]).Ok? ==> IsAccountOf(Fold([span]).value, span)
  {
    PushOnEmpty(span);
    ComponentOfOneSpan(span, span.metrics.inputTokens);
    ComponentOfOneSpan(span, span.metrics.outputTokens);
    TokensOfOneSpan(span);
    CostOfOneSpan(span);
    BillingOfOneSpan(span);
    hide Fold, PushComponent, PushTokens, PushCost, PushBillable, IsComponentOf, Totalled, Applies, IsBillable, TokenTotal,
         WholeOrAbsent, PriceFits;
  }

  // ----- two lists

  /** The figures of two lists together. */
  function Joined(a: Accumulator, b: Accumulator): Accumulator {
    Accumulator(
      Counts(a.counts.llm + b.counts.llm, a.counts.tools + b.counts.tools, a.counts.errors + b.counts.errors),
      Component(a.input.sum + b.input.sum, a.input.incomplete || b.input.incomplete),
      Component(a.output.sum + b.output.sum, a.output.incomplete || b.output.incomplete),
      Tokens(a.tokens.sum + b.tokens.sum, a.tokens.complete || b.tokens.complete, a.tokens.incomplete || b.tokens.incomplete),
      Billed(a.billed.estimated || b.billed.estimated, a.billed.incomplete || b.billed.incomplete,
             a.billed.unknown || b.billed.unknown),
      Cost(a.cost.total + b.cost.total, if a.cost.currency.Some? then a.cost.currency else b.cost.currency,
           a.cost.mixed || b.cost.mixed
           || (a.cost.currency.Some? && b.cost.currency.Some? && a.cost.currency != b.cost.currency)))
  }

  /** No counter is above what a JavaScript number counts exactly, and the cost is at most a million million. */
  predicate InBounds(a: Accumulator) {
    && a.counts.llm <= 9007199254740991 && a.counts.tools <= 9007199254740991 && a.counts.errors <= 9007199254740991
    && a.input.sum <= 9007199254740991 && a.output.sum <= 9007199254740991 && a.tokens.sum <= 9007199254740991
    && a.cost.total <= 1000000000000.0
  }

  lemma AdvanceOfJoined(a: Accumulator, b: Accumulator, span: Span)
    ensures Advance(Joined(a, b), span) == Joined(a, Advance(b, span))
  {
    hide AmountOf, InputOf, OutputOf, TokensOf, CostOf, HasTotal, LacksTotal, LacksInput, LacksOutput, BilledAs, BilledUnknown;
  }

  lemma {:induction false} TotalsJoin(xs: seq<Span>, ys: seq<Span>)
    ensures Totals(xs + ys) == Joined(Totals(xs), Totals(ys))
  {
    if ys == [] {
      assert xs + ys == xs;
      NothingJoins(xs);
    } else {
      var front, last := ys[..|ys| - 1], ys[|ys| - 1];
      hide Totals, Advance, Joined;
      TotalsJoin(xs, front);
      assert xs + ys == (xs + front) + [last] && ys == front + [last];
      TotalsOfOneMore(xs + front, last);
      TotalsOfOneMore(front, last);
      AdvanceOfJoined(Totals(xs), Totals(front), last);
    }
  }

  lemma NothingJoins(xs: seq<Span>)
    ensures Joined(Totals(xs), Totals([])) == Totals(xs)
  {
    NothingTotals();
    hide Totals;
  }

  lemma NothingTotals()
    ensures Totals([]) == EMPTY
  {
  }

  lemma BoundsAreThese(a: Accumulator)
    ensures Bounded(a) <==> InBounds(a)
  {
  }

  lemma PartsAreInBounds(a: Accumulator, b: Accumulator)
    requires InBounds(Joined(a, b)) && a.cost.total >= 0.0 && b.cost.total >= 0.0
    ensures InBounds(a) && InBounds(b)
  {
  }

  lemma {:induction false} CostsAreNoDebts(spans: seq<Span>)
    ensures Totals(spans).cost.total >= 0.0
  {
    if spans != [] { CostsAreNoDebts(spans[..|spans| - 1]); }
  }

  /** Two lists are accepted as one exactly when each is accepted and their figures together stay in bounds, and then
      the figures are those of both. With the account of one span this says what every summary holds. */
  lemma SummariesJoin(xs: seq<Span>, ys: seq<Span>)
    ensures Fold(xs + ys).Ok? <==> Fold(xs).Ok? && Fold(ys).Ok? && InBounds(Joined(Fold(xs).value, Fold(ys).value))
    ensures Fold(xs + ys).Ok? ==> Fold(xs + ys).value == Joined(Fold(xs).value, Fold(ys).value)
  {
    FoldIsTotals(xs);
    FoldIsTotals(ys);
    FoldIsTotals(xs + ys);
    TotalsJoin(xs, ys);
    BoundsAreThese(Totals(xs));
    BoundsAreThese(Totals(ys));
    BoundsAreThese(Totals(xs + ys));
    CostsAreNoDebts(xs);
    CostsAreNoDebts(ys);
    assert AllFit(xs + ys) <==> AllFit(xs) && AllFit(ys) by { FitsJoin(xs, ys); }
    hide Totals, AllFit, Fold, Bounded, Joined, InBounds;
    if InBounds(Joined(Totals(xs), Totals(ys))) { PartsAreInBounds(Totals(xs), Totals(ys)); }
  }

  lemma FitsJoin(xs: seq<Span>, ys: seq<Span>)
    ensures AllFit(xs + ys) <==> AllFit(xs) && AllFit(ys)
  {
    hide SpanFits;
    if AllFit(xs + ys) {
      forall i | 0 <= i < |xs| ensures SpanFits(xs[i]) { assert (xs + ys)[i] == xs[i]; }
      forall i | 0 <= i < |ys| ensures SpanFits(ys[i]) { assert (xs + ys)[|xs| + i] == ys[i]; }
    }
  }

  // ----- the figures reported

  lemma {:induction false} DirectCountsAddUp(spans: seq<Span>)
    requires Fold(spans).Ok?
    requires forall i :: 0 <= i < |spans| ==>
               spans[i].tokens.Available? && spans[i].metrics.inputTokens.Some? && spans[i].metrics.outputTokens.Some?
    ensures var a := Fold(spans).value;
            && a.tokens.sum == a.input.sum + a.output.sum
            && !a.input.incomplete && !a.output.incomplete && !a.tokens.incomplete
            && (a.tokens.complete <==> spans != [])
  {
    if spans == [] {
    } else {
      var front, last := spans[..|spans| - 1], spans[|spans| - 1];
      assert spans == front + [last];
      SummariesJoin(front, [last]);
      forall i | 0 <= i < |front| ensures front[i] == spans[i] { }
      DirectCountsAddUp(front);
      hide Fold;
      OneSpan(last);
      TokenTotalIs(last.metrics);
      DirectSum(Fold([last]).value, last);
    }
  }

  lemma DirectSum(a: Accumulator, span: Span)
    requires IsAccountOf(a, span) && span.tokens.Available? && span.metrics.inputTokens.Some? && span.metrics.outputTokens.Some?
    ensures a.tokens.sum == a.input.sum + a.output.sum
    ensures !a.input.incomplete && !a.output.incomplete && !a.tokens.incomplete && a.tokens.complete
  {
    TokenTotalIs(span.metrics);
  }

  lemma BrowserTotalIsReported(spans: seq<Span>, sessions: nat, turns: nat)
    requires Fold(spans).Ok? && Finish(Fold(spans).value, sessions, turns).Ok?
    ensures var k := Finish(Fold(spans).value, sessions, turns).value;
            k.totalTokens.Some? ==> Summary(spans).totalTokens == Some(Finite(k.totalTokens.value as real))
  {
    AccumulatorAgreesWithView(spans, sessions, turns);
  }

  /** Where every span has both direct counts and its tokens are known, what is reported as the total is what is
      reported as input and output together, in the accumulator and in the browser. */
  lemma {:induction false} DirectTotalIsReported(spans: seq<Span>, sessions: nat, turns: nat)
    requires spans != [] && Fold(spans).Ok? && Finish(Fold(spans).value, sessions, turns).Ok?
    requires forall i :: 0 <= i < |spans| ==>
               spans[i].tokens.Available? && spans[i].metrics.inputTokens.Some? && spans[i].metrics.outputTokens.Some?
    ensures var k := Finish(Fold(spans).value, sessions, turns).value;
            && k.inputTokens.Some? && k.outputTokens.Some?
            && k.totalTokens == Some(k.inputTokens.value + k.outputTokens.value)
            && Summary(spans).totalTokens == Some(Finite((k.inputTokens.value + k.outputTokens.value) as real))
  {
    DirectCountsAddUp(spans);
    BrowserTotalIsReported(spans, sessions, turns);
  }

  /** Finishing passes the numbers of sessions and turns on, and fails only if one of them cannot be counted exactly. */
  lemma FinishCounts(a: Accumulator, sessions: nat, turns: nat)
    ensures Finish(a, sessions, turns).Ok? <==> sessions <= 9007199254740991 && turns <= 9007199254740991
    ensures Finish(a, sessions, turns).Ok? ==>
              Finish(a, sessions, turns).value.sessions == sessions && Finish(a, sessions, turns).value.turns == turns
  {
  }

  /** The browser counts every session and every turn that has a name once. */
  lemma {:induction false} NamesAreCountedOnce(spans: seq<Span>)
    ensures forall name :: name in SessionsOf(spans) <==>
              name != "" && exists i :: 0 <= i < |spans| && spans[i].sessionId == Some(name)
    ensures forall name :: name in TurnsOf(spans) <==> name != "" && exists i :: 0 <= i < |spans| && spans[i].turnId == Some(name)
  {
    if spans != [] {
      var front, last := spans[..|spans| - 1], spans[|spans| - 1];
      NamesAreCountedOnce(front);
      assert spans[|front|] == last;
      forall i | 0 <= i < |front| ensures spans[i] == front[i] { }
      forall name
        ensures name in SessionsOf(spans) <==> name != "" && exists i :: 0 <= i < |spans| && spans[i].sessionId == Some(name)
        ensures name in TurnsOf(spans) <==> name != "" && exists i :: 0 <= i < |spans| && spans[i].turnId == Some(name)
      {
        assert name in SessionsOf(spans) <==> name in SessionsOf(front) || name in Named(last.sessionId);
        assert name in TurnsOf(spans) <==> name in TurnsOf(front) || name in Named(last.turnId);
      }
    }
  }
}
