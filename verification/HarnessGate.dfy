/** The automatic release gate (xtask/src/main.rs): what it accepts, the evidence rendered from it, and the checks
    that the published evidence must pass. */
module HarnessGate {
  import opened Common

  const RELEASE_EVENTS := 10000
  const RELEASE_RUNS := 5
  const RSS_MIN_RELEASE_SAMPLES := 100
  const RSS_MAX_OBSERVED_GAP_MS := 100
  const RECORDS_PER_SYNTHETIC_REQUEST := 2
  const NOTIFY_RECORDS_PER_RUN := 1
  const ALLOCATED_DISK_BYTES_MAX := 1073741824
  const IDLE_CPU_PERCENT_MAX := 0.5
  const ACTIVE_CPU_PERCENT_MAX := 100.0
  const RSS_P95_KIB_MAX := 96.0 * 1024.0

  // ----- floating-point figures

  /** A floating-point number: finite with its sign bit, or not finite. */
  datatype Float = Finite(negative: bool, magnitude: real) | NonFinite

  function ValueOf(f: Float): real
    requires f.Finite?
  {
    if f.negative then -f.magnitude else f.magnitude
  }

  predicate Sound(f: Float) { f.Finite? && !f.negative && f.magnitude >= 0.0 }

  /** The total order that puts -0 below +0, and what is not finite at the end. */
  predicate TotalLess(a: Float, b: Float) {
    a.Finite? && (b.NonFinite? || ValueOf(a) < ValueOf(b) || (ValueOf(a) == ValueOf(b) && a.negative && !b.negative))
  }

  function MaxFloat(xs: seq<Float>): Option<Float> {
    if xs == [] then None
    else
      var front, last := MaxFloat(xs[..|xs| - 1]), xs[|xs| - 1];
      if front.Some? && TotalLess(last, front.value) then front else Some(last)
  }

  function MaxNat(xs: seq<nat>): Option<nat> {
    if xs == [] then None
    else
      var front, last := MaxNat(xs[..|xs| - 1]), xs[|xs| - 1];
      if front.Some? && last < front.value then front else Some(last)
  }

  function MinNat(xs: seq<nat>): Option<nat> {
    if xs == [] then None
    else
      var front, last := MinNat(xs[..|xs| - 1]), xs[|xs| - 1];
      if front.Some? && front.value <= last then front else Some(last)
  }

  lemma {:induction false} MaxNatIs(xs: seq<nat>)
    ensures MaxNat(xs).None? <==> xs == []
    ensures MaxNat(xs).Some? ==> MaxNat(xs).value in xs && forall x :: x in xs ==> x <= MaxNat(xs).value
  {
    if xs != [] {
      MaxNatIs(xs[..|xs| - 1]);
      assert xs == xs[..|xs| - 1] + [xs[|xs| - 1]];
    }
  }

  lemma {:induction false} MinNatIs(xs: seq<nat>)
    ensures MinNat(xs).None? <==> xs == []
    ensures MinNat(xs).Some? ==> MinNat(xs).value in xs && forall x :: x in xs ==> MinNat(xs).value <= x
  {
    if xs != [] {
      MinNatIs(xs[..|xs| - 1]);
      assert xs == xs[..|xs| - 1] + [xs[|xs| - 1]];
    }
  }

  /** No figure of the list is above the maximum, as numbers; if all are numbers so is the maximum. */
  lemma {:induction false} MaxFloatIs(xs: seq<Float>)
    ensures MaxFloat(xs).None? <==> xs == []
    ensures MaxFloat(xs).Some? ==>
              && MaxFloat(xs).value in xs
              && (MaxFloat(xs).value.Finite? <==> forall x :: x in xs ==> x.Finite?)
              && (MaxFloat(xs).value.Finite? ==> forall x :: x in xs ==> ValueOf(x) <= ValueOf(MaxFloat(xs).value))
  {
    if xs != [] {
      MaxFloatIs(xs[..|xs| - 1]);
      assert xs == xs[..|xs| - 1] + [xs[|xs| - 1]];
    }
  }

  // ----- percentiles

  predicate Sorted(xs: seq<nat>) { forall i, j :: 0 <= i < j < |xs| ==> xs[i] <= xs[j] }

  function RankOf(last: nat, p: nat): nat { (last * p) / 100 }

  lemma RankIsAnIndex(last: nat, p: nat, q: nat)
    requires p <= q <= 100
    ensures RankOf(last, p) <= RankOf(last, q) <= last
  {
    assert last * p <= last * q by { assert last * (q - p) >= 0; }
    assert last * q <= last * 100 by { assert last * (100 - q) >= 0; }
  }

  /** The nearest-rank percentile of a sorted list. */
  function Percentile(values: seq<nat>, p: nat): nat
    requires values != [] && p <= 100
  {
    RankIsAnIndex(|values| - 1, p, p);
    values[RankOf(|values| - 1, p)]
  }

  /** A higher percentile is no smaller, and at least the share it names lies at or below it. */
  lemma PercentilesAreOrdered(values: seq<nat>, p: nat, q: nat)
    requires values != [] && Sorted(values) && p <= q <= 100
    ensures Percentile(values, p) <= Percentile(values, q)
    ensures forall i :: 0 <= i < |values| && i * 100 <= (|values| - 1) * p ==> values[i] <= Percentile(values, p)
    ensures forall i :: 0 <= i < |values| && i * 100 >= (|values| - 1) * p ==> values[i] >= Percentile(values, p)
    ensures exists i :: 0 <= i < |values| && i * 100 <= (|values| - 1) * p && Percentile(values, p) == values[i]
  {
    var n := |values| - 1;
    RankIsAnIndex(n, p, q);
    forall i | 0 <= i < |values|
      ensures i * 100 <= n * p ==> i <= RankOf(n, p)
      ensures i * 100 >= n * p ==> i >= RankOf(n, p)
    {
      RankSplits(n, p, i);
    }
    assert RankOf(n, p) * 100 <= n * p;
    hide RankOf;
  }

  lemma RankSplits(last: nat, p: nat, i: nat)
    ensures i * 100 <= last * p ==> i <= RankOf(last, p)
    ensures i * 100 >= last * p ==> i >= RankOf(last, p)
  {
    var product := last * p;
    assert RankOf(last, p) == product / 100;
  }

  function Insert(x: nat, xs: seq<nat>): seq<nat> {
    if xs == [] then [x] else if x <= xs[0] then [x] + xs else [xs[0]] + Insert(x, xs[1..])
  }

  function SortOf(xs: seq<nat>): seq<nat> { if xs == [] then [] else Insert(xs[0], SortOf(xs[1..])) }

  lemma {:induction false} InsertAdds(x: nat, xs: seq<nat>)
    ensures multiset(Insert(x, xs)) == multiset(xs) + multiset{x}
  {
    if xs != [] {
      assert xs == [xs[0]] + xs[1..];
      if x > xs[0] { InsertAdds(x, xs[1..]); }
    }
  }

  lemma {:induction false} InsertSorts(x: nat, xs: seq<nat>)
    requires Sorted(xs)
    ensures Sorted(Insert(x, xs))
    ensures xs != [] && x > xs[0] ==> Insert(x, xs)[0] == xs[0]
    ensures xs == [] || x <= xs[0] ==> Insert(x, xs)[0] == x
  {
    if xs != [] && x > xs[0] {
      var rest := Insert(x, xs[1..]);
      InsertSorts(x, xs[1..]);
      assert forall i :: 0 <= i < |rest| ==> rest[0] <= rest[i];
      assert xs[0] <= rest[0];
    }
  }

  lemma {:induction false} SortSorts(xs: seq<nat>)
    ensures Sorted(SortOf(xs)) && multiset(SortOf(xs)) == multiset(xs) && |SortOf(xs)| == |xs|
  {
    if xs == [] {
    } else {
      SortSorts(xs[1..]);
      InsertSorts(xs[0], SortOf(xs[1..]));
      InsertAdds(xs[0], SortOf(xs[1..]));
      assert xs == [xs[0]] + xs[1..];
      assert |multiset(SortOf(xs))| == |multiset(xs)|;
    }
  }

  // ----- the results of a workload and the gate on them

  datatype Profile = Release | Smoke

  datatype Config = Config(profile: Profile, events: nat, runs: nat)

  const RELEASE := Config(Release, RELEASE_EVENTS, RELEASE_RUNS)

  datatype RunResult = RunResult(
    run: nat, latenciesUs: seq<nat>, idleSamples: nat, idleCpu: Float, activeCpu: Float, rssP95Kib: Float,
    peakRssKib: Float, rssSamples: nat, rssGapMs: nat, peakDiskBytes: nat, networkBytes: nat, networkSamples: nat,
    accepted: nat, rejected: nat, notifyAccepted: bool, reportConverged: bool, reportGeneration: nat,
    reportRecords: nat)

  function ExpectedRecords(config: Config): nat {
    config.events * RECORDS_PER_SYNTHETIC_REQUEST + NOTIFY_RECORDS_PER_RUN
  }

  /** What is asked of every run under any profile. */
  predicate ResultComplete(config: Config, r: RunResult) {
    && r.accepted == config.events && |r.latenciesUs| == config.events && r.idleSamples > 0
    && r.rejected == 0 && r.notifyAccepted && r.reportConverged
    && r.rssSamples >= 2 && r.reportGeneration == ExpectedRecords(config) && r.reportRecords == ExpectedRecords(config)
    && (config.profile.Release? ==> r.rssSamples >= RSS_MIN_RELEASE_SAMPLES && r.rssGapMs <= RSS_MAX_OBSERVED_GAP_MS)
    && Sound(r.idleCpu) && Sound(r.activeCpu) && Sound(r.rssP95Kib) && Sound(r.peakRssKib)
    && ValueOf(r.peakRssKib) >= ValueOf(r.rssP95Kib)
    && r.networkSamples > 0
  }

  /** The release budgets. */
  predicate WithinBudget(r: RunResult)
    requires r.idleCpu.Finite? && r.activeCpu.Finite? && r.rssP95Kib.Finite?
  {
    && ValueOf(r.idleCpu) <= IDLE_CPU_PERCENT_MAX && ValueOf(r.activeCpu) <= ACTIVE_CPU_PERCENT_MAX
    && ValueOf(r.rssP95Kib) <= RSS_P95_KIB_MAX && r.peakDiskBytes <= ALLOCATED_DISK_BYTES_MAX
  }

  predicate GateAccepts(config: Config, results: seq<RunResult>, errors: seq<string>) {
    && errors == [] && |results| == config.runs
    && (forall i :: 0 <= i < |results| ==> ResultComplete(config, results[i]))
    && (config.profile.Release? ==> forall i :: 0 <= i < |results| ==> WithinBudget(results[i]))
  }

  /** Runs are numbered from 1 in order, and the first failure ends the workload: `outcomes(n)` is run `n`. */
  method CollectRunResults(config: Config, outcomes: nat -> Option<RunResult>)
    returns (results: seq<RunResult>, errors: seq<string>)
    requires forall n :: outcomes(n).Some? ==> outcomes(n).value.run == n
    ensures |results| <= config.runs && (errors == [] <==> |results| == config.runs)
    ensures forall i :: 0 <= i < |results| ==> outcomes(i + 1) == Some(results[i]) && results[i].run == i + 1
    ensures |results| < config.runs ==> outcomes(|results| + 1).None?
  {
    results, errors := [], [];
    for number := 1 to config.runs + 1
      invariant |results| == number - 1 && errors == []
      invariant forall i :: 0 <= i < |results| ==> outcomes(i + 1) == Some(results[i]) && results[i].run == i + 1
    {
      var outcome := outcomes(number);
      if outcome.None? {
        errors := ["run failed"];
        break;
      }
      results := results + [outcome.value];
    }
  }

  // ----- the published evidence

  datatype EvidenceRun = EvidenceRun(
    run: nat, accepted: nat, rejected: nat, notifyAccepted: bool, reportConverged: bool, reportGeneration: nat,
    reportRecords: nat, rssSamples: nat, rssGapMs: nat, sentinelsAbsent: bool, p95Us: nat, p99Us: nat, idleCpu: Float,
    activeCpu: Float, rssP95Kib: Float, peakRssKib: Float, diskBytes: nat, networkBytes: nat, networkSamples: nat,
    loopbackOnly: bool)

  datatype Metrics = Metrics(
    p95Us: Option<nat>, p99Us: Option<nat>, idleCpuMax: Option<Float>, activeCpuMax: Option<Float>,
    rssP95Max: Option<Float>, peakRssMax: Option<Float>, rssSamplesMin: Option<nat>, rssGapMax: Option<nat>,
    diskMax: Option<nat>, networkMax: Option<nat>, networkSamples: nat)

  datatype Evidence = Evidence(metrics: Metrics, runs: seq<EvidenceRun>)

  function Map<T, U>(f: T --> U, xs: seq<T>): (ys: seq<U>)
    requires forall i :: 0 <= i < |xs| ==> f.requires(xs[i])
    ensures |ys| == |xs| && forall i :: 0 <= i < |xs| ==> ys[i] == f(xs[i])
  {
    seq(|xs|, i requires 0 <= i < |xs| => f(xs[i]))
  }

  predicate HasLatencies(r: RunResult) { r.latenciesUs != [] }

  function QuantileOf(r: RunResult, p: nat): nat
    requires HasLatencies(r) && p <= 100
  {
    SortSorts(r.latenciesUs);
    Percentile(SortOf(r.latenciesUs), p)
  }

  predicate AllTimed(results: seq<RunResult>) { forall i :: 0 <= i < |results| ==> HasLatencies(results[i]) }

  function AggregatesOf(results: seq<RunResult>): Metrics
    requires AllTimed(results)
  {
    Metrics(
      MaxNat(Map(r requires HasLatencies(r) => QuantileOf(r, 95), results)),
      MaxNat(Map(r requires HasLatencies(r) => QuantileOf(r, 99), results)),
      MaxFloat(Map((r: RunResult) => r.idleCpu, results)), MaxFloat(Map((r: RunResult) => r.activeCpu, results)),
      MaxFloat(Map((r: RunResult) => r.rssP95Kib, results)), MaxFloat(Map((r: RunResult) => r.peakRssKib, results)),
      MinNat(Map((r: RunResult) => r.rssSamples, results)), MaxNat(Map((r: RunResult) => r.rssGapMs, results)),
      MaxNat(Map((r: RunResult) => r.peakDiskBytes, results)), MaxNat(Map((r: RunResult) => r.networkBytes, results)),
      Sum(Map((r: RunResult) => r.networkSamples, results)))
  }

  function EvidenceOf(r: RunResult): EvidenceRun
    requires HasLatencies(r)
  {
    EvidenceRun(
      r.run, r.accepted, r.rejected, r.notifyAccepted, r.reportConverged, r.reportGeneration, r.reportRecords,
      r.rssSamples, r.rssGapMs, true, QuantileOf(r, 95), QuantileOf(r, 99), r.idleCpu, r.activeCpu, r.rssP95Kib,
      r.peakRssKib, r.peakDiskBytes, r.networkBytes, r.networkSamples, true)
  }

  /** What the rendered manifest says, read back. A run without latencies has no quantiles: the loop over the runs
      stops at it with an index out of range, so nothing is rendered, although the aggregates before skip it. */
  function Rendered(results: seq<RunResult>): Option<Evidence> {
    if AllTimed(results) then Some(Evidence(AggregatesOf(results), Map(EvidenceOf, results))) else None
  }

  // ----- the checks on published evidence

  predicate EvidenceRunFits(run: EvidenceRun) {
    && run.accepted == 10000 && run.rejected == 0 && run.notifyAccepted && run.reportConverged
    && run.reportGeneration == 20001 && run.reportRecords == 20001
    && run.rssSamples >= RSS_MIN_RELEASE_SAMPLES && run.rssGapMs <= RSS_MAX_OBSERVED_GAP_MS
    && run.sentinelsAbsent && run.p95Us <= run.p99Us
    && Sound(run.idleCpu) && ValueOf(run.idleCpu) <= IDLE_CPU_PERCENT_MAX
    && Sound(run.activeCpu) && ValueOf(run.activeCpu) <= ACTIVE_CPU_PERCENT_MAX
    && Sound(run.rssP95Kib) && ValueOf(run.rssP95Kib) <= RSS_P95_KIB_MAX
    && Sound(run.peakRssKib) && ValueOf(run.peakRssKib) >= ValueOf(run.rssP95Kib)
    && run.diskBytes <= ALLOCATED_DISK_BYTES_MAX && run.networkSamples > 0 && run.loopbackOnly
  }

  /** Exactly five runs, numbered 1 to 5 without repetition, each within the release limits. */
  predicate RunsAreReleaseRuns(runs: seq<EvidenceRun>) {
    && |runs| == 5
    && (forall i :: 0 <= i < |runs| ==> 1 <= runs[i].run <= 5 && EvidenceRunFits(runs[i]))
    && (forall i, j :: 0 <= i < j < |runs| ==> runs[i].run != runs[j].run)
  }

  /** The loop of `validate_automatic_release_runs`, with its table of the numbers seen. */
  method ValidateReleaseRuns(runs: seq<EvidenceRun>) returns (ok: bool)
    ensures ok <==> RunsAreReleaseRuns(runs)
  {
    hide EvidenceRunFits;
    if |runs| != 5 { return false; }
    var seen := new bool[5](_ => false);
    for n := 0 to |runs|
      invariant forall i :: 0 <= i < n ==> 1 <= runs[i].run <= 5 && EvidenceRunFits(runs[i])
      invariant forall i, j :: 0 <= i < j < n ==> runs[i].run != runs[j].run
      invariant forall k :: 0 <= k < 5 ==> (seen[k] <==> exists i :: 0 <= i < n && runs[i].run == k + 1)
    {
      var run := runs[n];
      if run.run < 1 || run.run - 1 >= seen.Length { return false; }
      var index := run.run - 1;
      if seen[index] { return false; }
      seen[index] := true;
      if !EvidenceRunFits(run) { return false; }
    }
    return true;
  }

  /** Five distinct numbers from 1 to 5 are all of them. */
  lemma ReleaseRunsCoverOneToFive(runs: seq<EvidenceRun>, number: nat)
    requires RunsAreReleaseRuns(runs) && 1 <= number <= 5
    ensures exists i :: 0 <= i < |runs| && runs[i].run == number
  {
    hide EvidenceRunFits;
    assert runs[0].run == number || runs[1].run == number || runs[2].run == number || runs[3].run == number
           || runs[4].run == number;
  }

  predicate AggregatesAreConsistent(e: Evidence) {
    e.metrics == Metrics(
      MaxNat(Map((r: EvidenceRun) => r.p95Us, e.runs)), MaxNat(Map((r: EvidenceRun) => r.p99Us, e.runs)),
      MaxFloat(Map((r: EvidenceRun) => r.idleCpu, e.runs)), MaxFloat(Map((r: EvidenceRun) => r.activeCpu, e.runs)),
      MaxFloat(Map((r: EvidenceRun) => r.rssP95Kib, e.runs)), MaxFloat(Map((r: EvidenceRun) => r.peakRssKib, e.runs)),
      MinNat(Map((r: EvidenceRun) => r.rssSamples, e.runs)), MaxNat(Map((r: EvidenceRun) => r.rssGapMs, e.runs)),
      MaxNat(Map((r: EvidenceRun) => r.diskBytes, e.runs)), MaxNat(Map((r: EvidenceRun) => r.networkBytes, e.runs)),
      Sum(Map((r: EvidenceRun) => r.networkSamples, e.runs)))
  }

  /** The aggregates of a manifest are those of the runs it lists. */
  lemma RenderedIsConsistent(results: seq<RunResult>)
    requires Rendered(results).Some?
    ensures AggregatesAreConsistent(Rendered(results).value)
  {
    hide QuantileOf, MaxNat, MinNat, MaxFloat, HasLatencies;
    var runs := Map(EvidenceOf, results);
    assert Map((r: EvidenceRun) => r.p95Us, runs) == Map(r requires HasLatencies(r) => QuantileOf(r, 95), results);
    assert Map((r: EvidenceRun) => r.p99Us, runs) == Map(r requires HasLatencies(r) => QuantileOf(r, 99), results);
    assert Map((r: EvidenceRun) => r.idleCpu, runs) == Map((r: RunResult) => r.idleCpu, results);
    assert Map((r: EvidenceRun) => r.activeCpu, runs) == Map((r: RunResult) => r.activeCpu, results);
    assert Map((r: EvidenceRun) => r.rssP95Kib, runs) == Map((r: RunResult) => r.rssP95Kib, results);
    assert Map((r: EvidenceRun) => r.peakRssKib, runs) == Map((r: RunResult) => r.peakRssKib, results);
    assert Map((r: EvidenceRun) => r.rssSamples, runs) == Map((r: RunResult) => r.rssSamples, results);
    assert Map((r: EvidenceRun) => r.rssGapMs, runs) == Map((r: RunResult) => r.rssGapMs, results);
    assert Map((r: EvidenceRun) => r.diskBytes, runs) == Map((r: RunResult) => r.peakDiskBytes, results);
    assert Map((r: EvidenceRun) => r.networkBytes, runs) == Map((r: RunResult) => r.networkBytes, results);
    assert Map((r: EvidenceRun) => r.networkSamples, runs) == Map((r: RunResult) => r.networkSamples, results);
  }

  lemma QuantilesAreOrdered(r: RunResult)
    requires HasLatencies(r)
    ensures QuantileOf(r, 95) <= QuantileOf(r, 99)
  {
    SortSorts(r.latenciesUs);
    PercentilesAreOrdered(SortOf(r.latenciesUs), 95, 99);
  }

  lemma AcceptedResultFits(r: RunResult)
    requires ResultComplete(RELEASE, r) && WithinBudget(r)
    ensures HasLatencies(r) && EvidenceRunFits(EvidenceOf(r))
  {
    hide QuantileOf;
    QuantilesAreOrdered(r);
  }

  /** What the gate accepts for a release, the release check on the published evidence accepts: the runs one by one,
      their numbers, and every aggregate. */
  lemma GateImpliesReleaseCheck(results: seq<RunResult>, errors: seq<string>)
    requires GateAccepts(RELEASE, results, errors)
    requires forall i :: 0 <= i < |results| ==> results[i].run == i + 1
    ensures Rendered(results).Some?
    ensures RunsAreReleaseRuns(Rendered(results).value.runs)
    ensures AggregatesAreConsistent(Rendered(results).value)
  {
    hide EvidenceRunFits, ResultComplete, WithinBudget, AggregatesAreConsistent, AggregatesOf, HasLatencies, EvidenceOf;
    forall i | 0 <= i < |results| ensures HasLatencies(results[i]) && EvidenceRunFits(EvidenceOf(results[i])) {
      AcceptedResultFits(results[i]);
    }
    forall i | 0 <= i < |results| ensures EvidenceOf(results[i]).run == results[i].run { RunIsKept(results[i]); }
    RenderedIsConsistent(results);
  }

  lemma RunIsKept(r: RunResult)
    requires HasLatencies(r)
    ensures EvidenceOf(r).run == r.run
  {
  }

  /** And the other way round: evidence that passes was rendered from results that the gate accepts, as far as the
      manifest tells; what it leaves out are the latencies themselves and the idle samples. */
  lemma ReleaseCheckImpliesGate(results: seq<RunResult>)
    requires Rendered(results).Some? && RunsAreReleaseRuns(Rendered(results).value.runs)
    requires forall i :: 0 <= i < |results| ==> |results[i].latenciesUs| == RELEASE_EVENTS && results[i].idleSamples > 0
    ensures GateAccepts(RELEASE, results, [])
  {
    hide QuantileOf, AggregatesOf;
    forall i | 0 <= i < |results| ensures ResultComplete(RELEASE, results[i]) && WithinBudget(results[i]) {
      assert EvidenceRunFits(Rendered(results).value.runs[i]);
    }
  }

  /** The release gate on numbered results, both ways: the workload met no error, the evidence rendered passes the
      check of the runs, and every run has all its latencies and an idle sample. */
  lemma ReleaseGateIff(results: seq<RunResult>, errors: seq<string>)
    requires forall i :: 0 <= i < |results| ==> results[i].run == i + 1
    ensures GateAccepts(RELEASE, results, errors) <==>
              && errors == [] && Rendered(results).Some? && RunsAreReleaseRuns(Rendered(results).value.runs)
              && forall i :: 0 <= i < |results| ==> |results[i].latenciesUs| == 10000 && results[i].idleSamples > 0
  {
    hide Rendered, RunsAreReleaseRuns, AggregatesAreConsistent, WithinBudget;
    if GateAccepts(RELEASE, results, errors) {
      GateImpliesReleaseCheck(results, errors);
    } else if errors == [] && Rendered(results).Some? && RunsAreReleaseRuns(Rendered(results).value.runs)
              && forall i :: 0 <= i < |results| ==> |results[i].latenciesUs| == 10000 && results[i].idleSamples > 0 {
      ReleaseCheckImpliesGate(results);
      assert false;
    }
  }

  // ----- what the aggregates mean

  ghost predicate IsMaximum(m: Option<nat>, f: RunResult -> nat, results: seq<RunResult>) {
    && m.Some? && (exists i :: 0 <= i < |results| && f(results[i]) == m.value)
    && (forall i :: 0 <= i < |results| ==> f(results[i]) <= m.value)
  }

  ghost predicate IsMinimum(m: Option<nat>, f: RunResult -> nat, results: seq<RunResult>) {
    && m.Some? && (exists i :: 0 <= i < |results| && f(results[i]) == m.value)
    && (forall i :: 0 <= i < |results| ==> m.value <= f(results[i]))
  }

  ghost predicate IsHighest(m: Option<Float>, f: RunResult -> Float, results: seq<RunResult>) {
    && m.Some? && (exists i :: 0 <= i < |results| && f(results[i]) == m.value)
    && ((forall i :: 0 <= i < |results| ==> f(results[i]).Finite?) ==>
          m.value.Finite? && forall i :: 0 <= i < |results| ==> ValueOf(f(results[i])) <= ValueOf(m.value))
  }

  function LatencyAt(p: nat): RunResult -> nat
    requires p <= 100
  {
    r => if HasLatencies(r) then QuantileOf(r, p) else 0
  }

  lemma MaximumIs(f: RunResult -> nat, results: seq<RunResult>)
    requires results != []
    ensures IsMaximum(MaxNat(Map(f, results)), f, results) && IsMinimum(MinNat(Map(f, results)), f, results)
  {
    var xs := Map(f, results);
    MaxNatIs(xs);
    MinNatIs(xs);
    assert forall i :: 0 <= i < |results| ==> xs[i] in xs && xs[i] == f(results[i]);
  }

  lemma HighestIs(f: RunResult -> Float, results: seq<RunResult>)
    requires results != []
    ensures IsHighest(MaxFloat(Map(f, results)), f, results)
  {
    var xs := Map(f, results);
    MaxFloatIs(xs);
    assert forall i :: 0 <= i < |results| ==> xs[i] in xs && xs[i] == f(results[i]);
  }

  /** Every figure of the manifest but the count of samples is one that a run had, and none had a worse one. */
  lemma AggregatesAreExtremes(results: seq<RunResult>)
    requires results != [] && Rendered(results).Some?
    ensures var m := Rendered(results).value.metrics;
            && IsMaximum(m.p95Us, LatencyAt(95), results) && IsMaximum(m.p99Us, LatencyAt(99), results)
            && IsMinimum(m.rssSamplesMin, (r: RunResult) => r.rssSamples, results)
            && IsMaximum(m.rssGapMax, (r: RunResult) => r.rssGapMs, results)
            && IsMaximum(m.diskMax, (r: RunResult) => r.peakDiskBytes, results)
            && IsMaximum(m.networkMax, (r: RunResult) => r.networkBytes, results)
    ensures var m := Rendered(results).value.metrics;
            && IsHighest(m.idleCpuMax, (r: RunResult) => r.idleCpu, results)
            && IsHighest(m.activeCpuMax, (r: RunResult) => r.activeCpu, results)
            && IsHighest(m.rssP95Max, (r: RunResult) => r.rssP95Kib, results)
            && IsHighest(m.peakRssMax, (r: RunResult) => r.peakRssKib, results)
  {
    hide QuantileOf, MaxNat, MinNat, MaxFloat, HasLatencies, IsMaximum, IsMinimum, IsHighest;
    assert Map(r requires HasLatencies(r) => QuantileOf(r, 95), results) == Map(LatencyAt(95), results);
    assert Map(r requires HasLatencies(r) => QuantileOf(r, 99), results) == Map(LatencyAt(99), results);
    MaximumIs(LatencyAt(95), results);
    MaximumIs(LatencyAt(99), results);
    MaximumIs((r: RunResult) => r.rssSamples, results);
    MaximumIs((r: RunResult) => r.rssGapMs, results);
    MaximumIs((r: RunResult) => r.peakDiskBytes, results);
    MaximumIs((r: RunResult) => r.networkBytes, results);
    HighestIs((r: RunResult) => r.idleCpu, results);
    HighestIs((r: RunResult) => r.activeCpu, results);
    HighestIs((r: RunResult) => r.rssP95Kib, results);
    HighestIs((r: RunResult) => r.peakRssKib, results);
  }
}
