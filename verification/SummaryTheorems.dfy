/** What the summary accumulator computes, whatever order the spans come in. */
module SummaryTheorems {
  import opened Common
  import opened SummaryModel

  // ----- sums and evidence over a list of spans

  function Total(f: Span -> nat, spans: seq<Span>): nat {
    if spans == [] then 0 else Total(f, spans[..|spans| - 1]) + f(spans[|spans| - 1])
  }

  function TotalCost(f: Span -> real, spans: seq<Span>): real {
    if spans == [] then 0.0 else TotalCost(f, spans[..|spans| - 1]) + f(spans[|spans| - 1])
  }

  predicate Any(p: Span -> bool, spans: seq<Span>) { exists i :: 0 <= i < |spans| && p(spans[i]) }

  function AmountOf(value: Option<Float>): nat {
    if value.Some? && TokenInteger(value.value).Ok? then TokenInteger(value.value).value else 0
  }

  function LlmOf(span: Span): nat { if span.kind.LlmRequest? then 1 else 0 }
  function ToolsOf(span: Span): nat { if span.kind.ToolExecution? then 1 else 0 }
  function ErrorsOf(span: Span): nat { if span.isError then 1 else 0 }
  predicate Counted(span: Span) { !span.tokens.NotApplicable? }
  function InputOf(span: Span): nat { if Counted(span) then AmountOf(span.metrics.inputTokens) else 0 }
  function OutputOf(span: Span): nat { if Counted(span) then AmountOf(span.metrics.outputTokens) else 0 }
  predicate HasTotal(span: Span) { TokenTotal(span.metrics).Some? && span.tokens.Available? }
  function TokensOf(span: Span): nat { if HasTotal(span) then AmountOf(TokenTotal(span.metrics)) else 0 }
  predicate LacksInput(span: Span) { Counted(span) && span.metrics.inputTokens.None? }
  predicate LacksOutput(span: Span) { Counted(span) && span.metrics.outputTokens.None? }
  predicate LacksTotal(span: Span) { Counted(span) && !HasTotal(span) }
  predicate BilledAs(span: Span, text: CostText) { Billable(span) && span.costText == text }
  predicate BilledUnknown(span: Span) { Billable(span) && !span.costText.EstimatedText? && !span.costText.IncompleteText? }

  function CostOf(span: Span): (cost: real)
    ensures cost >= 0.0
  {
    if span.estimatedCost.Some? && span.estimatedCost.value.Finite? && span.estimatedCost.value.value >= 0.0
    then span.estimatedCost.value.value else 0.0
  }

  predicate Costed(span: Span) { span.estimatedCost.Some? }

  // ----- currencies

  function FirstCurrency(spans: seq<Span>): Option<string> {
    if spans == [] then None
    else
      var last := spans[|spans| - 1];
      Or(FirstCurrency(spans[..|spans| - 1]), if Costed(last) then last.currency else None)
  }

  /** The costs do not share one known currency. */
  ghost predicate Mixed(spans: seq<Span>) {
    || (exists i :: 0 <= i < |spans| && Costed(spans[i]) && spans[i].currency.None?)
    || (exists i, j :: 0 <= i < |spans| && 0 <= j < |spans| && Costed(spans[i]) && Costed(spans[j])
                       && spans[i].currency != spans[j].currency)
  }

  lemma {:induction false} FirstCurrencyIsSomeones(spans: seq<Span>)
    ensures FirstCurrency(spans).Some? ==>
              exists i :: 0 <= i < |spans| && Costed(spans[i]) && spans[i].currency == FirstCurrency(spans)
    ensures FirstCurrency(spans).None? ==>
              forall i :: 0 <= i < |spans| && Costed(spans[i]) ==> spans[i].currency.None?
  {
    if spans != [] {
      var front, last := spans[..|spans| - 1], spans[|spans| - 1];
      FirstCurrencyIsSomeones(front);
      if FirstCurrency(front).Some? {
        var i :| 0 <= i < |front| && Costed(front[i]) && front[i].currency == FirstCurrency(front);
        assert spans[i] == front[i];
      } else {
        assert forall i :: 0 <= i < |front| ==> front[i] == spans[i];
        assert Costed(last) ==> spans[|spans| - 1].currency == last.currency;
      }
    }
  }

  lemma MixedByOneMore(front: seq<Span>, last: Span)
    ensures Mixed(front + [last]) <==>
              || Mixed(front)
              || (Costed(last) && (last.currency.None?
                                   || (FirstCurrency(front).Some? && FirstCurrency(front) != last.currency)))
  {
    var spans := front + [last];
    FirstCurrencyIsSomeones(front);
    assert forall i :: 0 <= i < |front| ==> spans[i] == front[i];
    assert spans[|front|] == last;
    if Mixed(front) {
      if i :| 0 <= i < |front| && Costed(front[i]) && front[i].currency.None? {
        assert Costed(spans[i]);
      } else {
        var i, j :| 0 <= i < |front| && 0 <= j < |front| && Costed(front[i]) && Costed(front[j])
                    && front[i].currency != front[j].currency;
        assert Costed(spans[i]) && Costed(spans[j]);
      }
    } else if Costed(last) && FirstCurrency(front).Some? && FirstCurrency(front) != last.currency {
      var i :| 0 <= i < |front| && Costed(front[i]) && front[i].currency == FirstCurrency(front);
      assert Costed(spans[i]) && Costed(spans[|front|]);
    }
  }

  // ----- the closed form

  predicate ComponentFits(value: Option<Float>) { value.Some? ==> TokenInteger(value.value).Ok? }

  /** What one span needs to be acceptable by itself. */
  predicate SpanFits(span: Span) {
    && (Counted(span) ==> ComponentFits(span.metrics.inputTokens) && ComponentFits(span.metrics.outputTokens))
    && (HasTotal(span) ==> ComponentFits(TokenTotal(span.metrics)))
    && CostFits(span)
  }

  ghost predicate AllFit(spans: seq<Span>) { forall i :: 0 <= i < |spans| ==> SpanFits(spans[i]) }

  ghost function Totals(spans: seq<Span>): Accumulator {
    Accumulator(
      Counts(Total(LlmOf, spans), Total(ToolsOf, spans), Total(ErrorsOf, spans)),
      Component(Total(InputOf, spans), Any(LacksInput, spans)),
      Component(Total(OutputOf, spans), Any(LacksOutput, spans)),
      Tokens(Total(TokensOf, spans), Any(HasTotal, spans), Any(LacksTotal, spans)),
      Billed(Any(s => BilledAs(s, EstimatedText), spans), Any(s => BilledAs(s, IncompleteText), spans),
             Any(BilledUnknown, spans)),
      Cost(TotalCost(CostOf, spans), FirstCurrency(spans), Mixed(spans)))
  }

  lemma AnyOfOneMore(p: Span -> bool, front: seq<Span>, last: Span)
    ensures Any(p, front + [last]) <==> Any(p, front) || p(last)
  {
    var spans := front + [last];
    assert forall i :: 0 <= i < |front| ==> spans[i] == front[i];
    assert spans[|front|] == last;
    if Any(p, front) {
      var i :| 0 <= i < |front| && p(front[i]);
      assert p(spans[i]);
    }
  }

  lemma TotalOfOneMore(f: Span -> nat, front: seq<Span>, last: Span)
    ensures Total(f, front + [last]) == Total(f, front) + f(last)
  {
    assert (front + [last])[..|front|] == front;
  }

  lemma CostOfOneMore(front: seq<Span>, last: Span)
    ensures TotalCost(CostOf, front + [last]) == TotalCost(CostOf, front) + CostOf(last)
    ensures FirstCurrency(front + [last]) == Or(FirstCurrency(front), if Costed(last) then last.currency else None)
  {
    assert (front + [last])[..|front|] == front;
  }

  function AdvanceCost(c: Cost, span: Span): Cost {
    Cost(c.total + CostOf(span), Or(c.currency, if Costed(span) then span.currency else None),
         c.mixed || (Costed(span) && (span.currency.None? || (c.currency.Some? && c.currency != span.currency))))
  }

  /** What one acceptable span adds to each part. */
  function Advance(a: Accumulator, span: Span): Accumulator {
    Accumulator(
      Counts(a.counts.llm + LlmOf(span), a.counts.tools + ToolsOf(span), a.counts.errors + ErrorsOf(span)),
      Component(a.input.sum + InputOf(span), a.input.incomplete || LacksInput(span)),
      Component(a.output.sum + OutputOf(span), a.output.incomplete || LacksOutput(span)),
      Tokens(a.tokens.sum + TokensOf(span), a.tokens.complete || HasTotal(span), a.tokens.incomplete || LacksTotal(span)),
      Billed(a.billed.estimated || BilledAs(span, EstimatedText), a.billed.incomplete || BilledAs(span, IncompleteText),
             a.billed.unknown || BilledUnknown(span)),
      AdvanceCost(a.cost, span))
  }

  lemma TotalsOfOneMore(front: seq<Span>, last: Span)
    ensures Totals(front + [last]) == Advance(Totals(front), last)
  {
    hide Total, TotalCost, Any, FirstCurrency, Mixed, LlmOf, ToolsOf, ErrorsOf, InputOf, OutputOf, TokensOf, CostOf,
         LacksInput, LacksOutput, HasTotal, LacksTotal, BilledAs, BilledUnknown;
    TotalOfOneMore(LlmOf, front, last);
    TotalOfOneMore(ToolsOf, front, last);
    TotalOfOneMore(ErrorsOf, front, last);
    TotalOfOneMore(InputOf, front, last);
    TotalOfOneMore(OutputOf, front, last);
    TotalOfOneMore(TokensOf, front, last);
    CostOfOneMore(front, last);
    AnyOfOneMore(LacksInput, front, last);
    AnyOfOneMore(LacksOutput, front, last);
    AnyOfOneMore(HasTotal, front, last);
    AnyOfOneMore(LacksTotal, front, last);
    AnyOfOneMore(s => BilledAs(s, EstimatedText), front, last);
    AnyOfOneMore(s => BilledAs(s, IncompleteText), front, last);
    AnyOfOneMore(BilledUnknown, front, last);
    MixedByOneMore(front, last);
  }

  predicate Bounded(a: Accumulator) {
    && a.counts.llm <= SAFE_INTEGER_MAX && a.counts.tools <= SAFE_INTEGER_MAX && a.counts.errors <= SAFE_INTEGER_MAX
    && a.input.sum <= SAFE_INTEGER_MAX && a.output.sum <= SAFE_INTEGER_MAX && a.tokens.sum <= SAFE_INTEGER_MAX
    && a.cost.total <= ESTIMATED_COST_MAX
  }

  lemma ComponentIs(c: Component, span: Span, value: Option<Float>)
    requires c.sum <= SAFE_INTEGER_MAX
    ensures var r, amount := PushComponent(c, span, value), if Counted(span) then AmountOf(value) else 0;
            && (r.Ok? <==> (Counted(span) ==> ComponentFits(value)) && c.sum + amount <= SAFE_INTEGER_MAX)
            && (r.Ok? ==> r.value == Component(c.sum + amount, c.incomplete || (Counted(span) && value.None?)))
  {
    hide TokenInteger;
  }

  lemma TokensAre(t: Tokens, span: Span)
    requires t.sum <= SAFE_INTEGER_MAX
    ensures var r := PushTokens(t, span);
            && (r.Ok? <==> (HasTotal(span) ==> ComponentFits(TokenTotal(span.metrics)))
                           && t.sum + TokensOf(span) <= SAFE_INTEGER_MAX)
            && (r.Ok? ==> r.value == Tokens(t.sum + TokensOf(span), t.complete || HasTotal(span),
                                            t.incomplete || LacksTotal(span)))
  {
    hide TokenInteger, TokenTotal;
  }

  predicate CostFits(span: Span) {
    Costed(span) ==>
      && span.estimatedCost.value.Finite? && span.estimatedCost.value.value >= 0.0
      && (span.currency.Some? ==> WellFormedCurrency(span.currency.value))
  }

  lemma CostIs(c: Cost, span: Span)
    requires c.total <= ESTIMATED_COST_MAX
    ensures var r := PushCost(c, span);
            && (r.Ok? <==> CostFits(span) && c.total + CostOf(span) <= ESTIMATED_COST_MAX)
            && (r.Ok? ==> r.value == AdvanceCost(c, span))
  {
    hide WellFormedCurrency;
  }

  /** The checks of one push, made in whatever order, and its effect. */
  lemma PushIs(a: Accumulator, span: Span)
    requires Bounded(a)
    ensures Push(a, span).Ok? <==> SpanFits(span) && Bounded(Advance(a, span))
    ensures Push(a, span).Ok? ==> Push(a, span).value == Advance(a, span)
  {
    hide PushComponent, PushTokens, PushCost, AmountOf, TokensOf, CostOf, HasTotal, LacksTotal, ComponentFits, Costed,
         CostFits, AdvanceCost, Counted;
    ComponentIs(a.input, span, span.metrics.inputTokens);
    ComponentIs(a.output, span, span.metrics.outputTokens);
    TokensAre(a.tokens, span);
    CostIs(a.cost, span);
    assert AdvanceCost(a.cost, span).total == a.cost.total + CostOf(span) by { CostAdvances(a.cost, span); }
  }

  lemma CostAdvances(c: Cost, span: Span)
    ensures AdvanceCost(c, span).total == c.total + CostOf(span)
  {
  }

  /** The accumulator accepts a list exactly when every span is acceptable by itself and no total exceeds its bound,
      and then holds the totals. So whether it accepts does not depend on the order, only on the spans. */
  lemma {:induction false} FoldIsTotals(spans: seq<Span>)
    ensures Fold(spans).Ok? <==> AllFit(spans) && Bounded(Totals(spans))
    ensures Fold(spans).Ok? ==> Fold(spans).value == Totals(spans)
  {
    if spans == [] {
      assert Totals([]) == EMPTY;
    } else {
      var front, last := spans[..|spans| - 1], spans[|spans| - 1];
      FoldIsTotals(front);
      assert spans == front + [last];
      TotalsOfOneMore(front, last);
      hide Totals, SpanFits, Push;
      assert forall i :: 0 <= i < |front| ==> front[i] == spans[i];
      assert Bounded(Totals(spans)) ==> Bounded(Totals(front));
      if Bounded(Totals(front)) { PushIs(Totals(front), last); }
    }
  }

  /** No counter ever leaves the integers a browser represents exactly. */
  lemma CountersStaySafe(spans: seq<Span>)
    requires Fold(spans).Ok?
    ensures Bounded(Fold(spans).value)
  {
    FoldIsTotals(spans);
  }

  // ----- any order

  lemma {:induction false} TotalWithout(f: Span -> nat, spans: seq<Span>, i: nat)
    requires i < |spans|
    ensures Total(f, spans) == Total(f, spans[..i] + spans[i + 1..]) + f(spans[i])
  {
    var n := |spans| - 1;
    if i < n {
      TotalWithout(f, spans[..n], i);
      assert spans[..n][..i] + spans[..n][i + 1..] == (spans[..i] + spans[i + 1..])[..n - 1];
    } else {
      assert spans[..i] + spans[i + 1..] == spans[..n];
    }
  }

  lemma {:induction false} CostWithout(f: Span -> real, spans: seq<Span>, i: nat)
    requires i < |spans|
    ensures TotalCost(f, spans) == TotalCost(f, spans[..i] + spans[i + 1..]) + f(spans[i])
  {
    var n := |spans| - 1;
    if i < n {
      CostWithout(f, spans[..n], i);
      assert spans[..n][..i] + spans[..n][i + 1..] == (spans[..i] + spans[i + 1..])[..n - 1];
    } else {
      assert spans[..i] + spans[i + 1..] == spans[..n];
    }
  }

  lemma PermutationWithout(xs: seq<Span>, ys: seq<Span>) returns (i: nat)
    requires xs != [] && multiset(xs) == multiset(ys)
    ensures i < |ys| && ys[i] == xs[|xs| - 1]
    ensures multiset(ys[..i] + ys[i + 1..]) == multiset(xs[..|xs| - 1])
  {
    var front, last := xs[..|xs| - 1], xs[|xs| - 1];
    assert xs == front + [last];
    assert last in multiset(ys);
    i :| 0 <= i < |ys| && ys[i] == last;
    var rest := ys[..i] + ys[i + 1..];
    assert ys == ys[..i] + [last] + ys[i + 1..];
    assert multiset(ys) == multiset(rest) + multiset{last};
    assert multiset(xs) == multiset(front) + multiset{last};
    assert multiset(rest) == multiset(xs) - multiset{last} == multiset(front);
  }

  lemma {:induction false} TotalPermutes(f: Span -> nat, xs: seq<Span>, ys: seq<Span>)
    requires multiset(xs) == multiset(ys)
    ensures Total(f, xs) == Total(f, ys)
    decreases |xs|
  {
    if xs == [] {
      assert |multiset(ys)| == 0;
    } else {
      var i := PermutationWithout(xs, ys);
      TotalWithout(f, ys, i);
      TotalPermutes(f, xs[..|xs| - 1], ys[..i] + ys[i + 1..]);
    }
  }

  lemma {:induction false} CostPermutes(f: Span -> real, xs: seq<Span>, ys: seq<Span>)
    requires multiset(xs) == multiset(ys)
    ensures TotalCost(f, xs) == TotalCost(f, ys)
    decreases |xs|
  {
    if xs == [] {
      assert |multiset(ys)| == 0;
    } else {
      var i := PermutationWithout(xs, ys);
      CostWithout(f, ys, i);
      CostPermutes(f, xs[..|xs| - 1], ys[..i] + ys[i + 1..]);
    }
  }

  lemma Occurs(xs: seq<Span>, ys: seq<Span>, i: nat) returns (j: nat)
    requires multiset(xs) == multiset(ys) && i < |xs|
    ensures j < |ys| && ys[j] == xs[i]
  {
    assert xs[i] in multiset(xs) && xs[i] in multiset(ys);
    j :| 0 <= j < |ys| && ys[j] == xs[i];
  }

  lemma AnyPermutes(p: Span -> bool, xs: seq<Span>, ys: seq<Span>)
    requires multiset(xs) == multiset(ys) && Any(p, xs)
    ensures Any(p, ys)
  {
    var i :| 0 <= i < |xs| && p(xs[i]);
    var j := Occurs(xs, ys, i);
  }

  lemma MixedPermutes(xs: seq<Span>, ys: seq<Span>)
    requires multiset(xs) == multiset(ys) && Mixed(xs)
    ensures Mixed(ys)
  {
    if i :| 0 <= i < |xs| && Costed(xs[i]) && xs[i].currency.None? {
      var j := Occurs(xs, ys, i);
    } else {
      var i, j :| 0 <= i < |xs| && 0 <= j < |xs| && Costed(xs[i]) && Costed(xs[j]) && xs[i].currency != xs[j].currency;
      var k := Occurs(xs, ys, i);
      var l := Occurs(xs, ys, j);
      assert ys[k].currency != ys[l].currency;
    }
  }

  /** With one currency it does not matter which span names it first. */
  lemma CurrencyPermutes(xs: seq<Span>, ys: seq<Span>)
    requires multiset(xs) == multiset(ys) && !Mixed(xs)
    ensures FirstCurrency(xs) == FirstCurrency(ys)
  {
    if Mixed(ys) { MixedPermutes(ys, xs); }
    FirstCurrencyIsSomeones(xs);
    FirstCurrencyIsSomeones(ys);
    if FirstCurrency(xs).Some? {
      var i :| 0 <= i < |xs| && Costed(xs[i]) && xs[i].currency == FirstCurrency(xs);
      var j := Occurs(xs, ys, i);
      assert Costed(ys[j]) && ys[j].currency == FirstCurrency(xs);
      assert FirstCurrency(ys).Some?;
      var k :| 0 <= k < |ys| && Costed(ys[k]) && ys[k].currency == FirstCurrency(ys);
      assert ys[j].currency == ys[k].currency;
    } else if FirstCurrency(ys).Some? {
      var k :| 0 <= k < |ys| && Costed(ys[k]) && ys[k].currency == FirstCurrency(ys);
      var j := Occurs(ys, xs, k);
    }
  }

  /** Apart from which currency was met first among several, the totals know nothing of the order. */
  lemma TotalsPermute(xs: seq<Span>, ys: seq<Span>)
    requires multiset(xs) == multiset(ys)
    ensures Totals(xs) == Totals(ys).(cost := Totals(ys).cost.(currency := Totals(xs).cost.currency))
    ensures !Totals(xs).cost.mixed ==> Totals(xs) == Totals(ys)
  {
    hide Total, TotalCost, Any, FirstCurrency, Mixed;
    TotalPermutes(LlmOf, xs, ys);
    TotalPermutes(ToolsOf, xs, ys);
    TotalPermutes(ErrorsOf, xs, ys);
    TotalPermutes(InputOf, xs, ys);
    TotalPermutes(OutputOf, xs, ys);
    TotalPermutes(TokensOf, xs, ys);
    CostPermutes(CostOf, xs, ys);
    AnySame(LacksInput, xs, ys);
    AnySame(LacksOutput, xs, ys);
    AnySame(HasTotal, xs, ys);
    AnySame(LacksTotal, xs, ys);
    AnySame(s => BilledAs(s, EstimatedText), xs, ys);
    AnySame(s => BilledAs(s, IncompleteText), xs, ys);
    AnySame(BilledUnknown, xs, ys);
    if Mixed(xs) { MixedPermutes(xs, ys); } else { CurrencyPermutes(xs, ys); }
    if Mixed(ys) { MixedPermutes(ys, xs); }
  }

  lemma AnySame(p: Span -> bool, xs: seq<Span>, ys: seq<Span>)
    requires multiset(xs) == multiset(ys)
    ensures Any(p, xs) == Any(p, ys)
  {
    if Any(p, xs) { AnyPermutes(p, xs, ys); }
    if Any(p, ys) { AnyPermutes(p, ys, xs); }
  }

  /** Spans may come in any order: the accumulator accepts all orders or none, and finishes alike. */
  lemma OrderDoesNotMatter(xs: seq<Span>, ys: seq<Span>, sessions: nat, turns: nat)
    requires multiset(xs) == multiset(ys)
    ensures Fold(xs).Ok? <==> Fold(ys).Ok?
    ensures Fold(xs).Ok? ==> Finish(Fold(xs).value, sessions, turns) == Finish(Fold(ys).value, sessions, turns)
  {
    FoldIsTotals(xs);
    FoldIsTotals(ys);
    TotalsPermute(xs, ys);
    hide Totals, SpanFits, Fold;
    if AllFit(xs) {
      forall j | 0 <= j < |ys| ensures SpanFits(ys[j]) { var i := Occurs(ys, xs, j); }
    }
    if AllFit(ys) {
      forall i | 0 <= i < |xs| ensures SpanFits(xs[i]) { var j := Occurs(xs, ys, i); }
    }
  }
}
