/** The worker and its drain as two threads (xtask/src/main.rs, `worker`, `drain_with_cpu_token`,
    `await_durable_count`; crates/local-runtime/src/ingress.rs): every interleaving of sends, batches, commits and
    durability barriers. */
module HarnessPipeline {
  import opened Common
  import opened HarnessBatching

  const CHANNEL_CAPACITY := 64
  const MAX_MESSAGE_BYTES := 64 * 1024

  /** What the drain thread is doing: waiting for a first message, collecting, about to commit, or gone. */
  datatype DrainPhase = Waiting | Collecting | Committing | Stopped

  /** What the worker thread is doing: taking commands, or in a barrier for that many messages, or gone. */
  datatype WorkerPhase = Serving | AwaitingBarrier(target: nat) | Failed

  datatype Pipeline = Pipeline(
    sent: seq<Message>,
    received: nat,
    drain: DrainPhase,
    batch: seq<Message>,
    pending: Option<Message>,
    batches: seq<seq<Message>>,
    progress: seq<nat>,
    worker: WorkerPhase,
    durable: nat)

  datatype Move =
    | Send(message: Message)
    | DrainBegins
    | DrainReceives
    | DrainTimesOut
    | DrainCommits
    | DrainFails
    | BarrierBegins
    | BarrierReceives
    | BarrierEnds

  const INITIAL := Pipeline([], 0, Waiting, [], None, [], [], Serving, 0)

  /** An oversized message, a full channel and a stopped drain are refused; only accepted messages are counted. */
  function SendMessage(p: Pipeline, message: Message): Pipeline {
    if !p.worker.Serving? || |message| > MAX_MESSAGE_BYTES || p.drain.Stopped? || |p.sent| - p.received >= CHANNEL_CAPACITY
    then p
    else p.(sent := p.sent + [message])
  }

  function BeginBatch(p: Pipeline): Pipeline {
    if !p.drain.Waiting? then p
    else if p.pending.Some? then OpenBatch(p.(pending := None), p.pending.value)
    else if p.received >= |p.sent| then p
    else OpenBatch(p.(received := p.received + 1), p.sent[p.received])
  }

  function OpenBatch(p: Pipeline, first: Message): Pipeline {
    if |first| > DURABLE_BATCH_BYTES then p.(drain := Stopped) else p.(drain := Collecting, batch := [first])
  }

  function ReceiveNext(p: Pipeline): Pipeline {
    if !p.drain.Collecting? || |p.batch| >= DURABLE_BATCH_RECORDS || p.received >= |p.sent| then p
    else
      var message := p.sent[p.received];
      var taken := p.(received := p.received + 1);
      if Bytes(p.batch) + |message| > DURABLE_BATCH_BYTES then taken.(pending := Some(message), drain := Committing)
      else taken.(batch := p.batch + [message])
  }

  function Commit(p: Pipeline): Pipeline {
    if !p.drain.Committing? then p
    else if !Decodable(p.batch) then p.(drain := Stopped)
    else p.(batches := p.batches + [p.batch], progress := p.progress + [|p.batch|], batch := [], drain := Waiting)
  }

  /** `await_durable_count` adds up the progress reports until the target is reached; it fails if the drain is gone
      and has nothing more to report. */
  function ReceiveProgress(p: Pipeline): Pipeline {
    if !p.worker.AwaitingBarrier? || p.durable >= p.worker.target then p
    else if p.progress != [] then p.(durable := p.durable + p.progress[0], progress := p.progress[1..])
    else if p.drain.Stopped? then p.(worker := Failed)
    else p
  }

  predicate BarrierCompletes(p: Pipeline, m: Move) {
    m.BarrierEnds? && p.worker.AwaitingBarrier? && p.durable >= p.worker.target
  }

  function Step(p: Pipeline, m: Move): Pipeline {
    match m
    case Send(message) => SendMessage(p, message)
    case DrainBegins => BeginBatch(p)
    case DrainReceives => ReceiveNext(p)
    case DrainTimesOut => if p.drain.Collecting? then p.(drain := Committing) else p
    case DrainCommits => Commit(p)
    case DrainFails => p.(drain := Stopped)
    case BarrierBegins => if p.worker.Serving? then p.(worker := AwaitingBarrier(|p.sent|)) else p
    case BarrierReceives => ReceiveProgress(p)
    case BarrierEnds => if BarrierCompletes(p, m) then p.(worker := Serving) else p
  }

  function Run(p: Pipeline, moves: seq<Move>): Pipeline {
    if moves == [] then p else Step(Run(p, moves[..|moves| - 1]), moves[|moves| - 1])
  }

  // ----- what holds throughout

  /** Nothing received is lost, repeated or reordered: it is committed, or in the batch, or set aside, unless the
      drain has stopped on it. What is committed is always whole batches within bounds, in the order sent. */
  ghost predicate Conserved(p: Pipeline) {
    && p.received <= |p.sent|
    && Flatten(p.batches) <= p.sent[..p.received]
    && (!p.drain.Stopped? ==> Flatten(p.batches) + (p.batch + AsSeq(p.pending)) == p.sent[..p.received])
    && (p.drain.Waiting? ==> p.batch == [])
    && (p.drain.Collecting? || p.drain.Committing? ==> BatchFits(p.batch, DURABLE_BATCH_RECORDS, DURABLE_BATCH_BYTES))
    && (p.drain.Collecting? ==> p.pending.None?)
  }

  ghost predicate CommittedWell(p: Pipeline) {
    && BatchesFit(p.batches, DURABLE_BATCH_RECORDS, DURABLE_BATCH_BYTES)
    && (forall i :: 0 <= i < |p.batches| ==> Decodable(p.batches[i]))
  }

  /** Every committed message is counted once: already added up by the worker, or in a report on its way. */
  predicate Counted(p: Pipeline) { p.durable + Sum(p.progress) == |Flatten(p.batches)| }

  ghost predicate TargetIsSent(p: Pipeline) { p.worker.AwaitingBarrier? ==> p.worker.target == |p.sent| }

  ghost predicate Inv(p: Pipeline) { Conserved(p) && CommittedWell(p) && Counted(p) && TargetIsSent(p) }

  lemma SendKeeps(p: Pipeline, message: Message)
    requires Inv(p)
    ensures Inv(SendMessage(p, message))
  {
    assert (p.sent + [message])[..p.received] == p.sent[..p.received];
  }

  lemma BeginKeeps(p: Pipeline)
    requires Inv(p)
    ensures Inv(BeginBatch(p))
  {
    if p.drain.Waiting? && (p.pending.Some? || p.received < |p.sent|) {
      var first := if p.pending.Some? then p.pending.value else p.sent[p.received];
      BytesOfOne(first);
      hide Bytes, CommittedWell, BatchesFit;
      if p.pending.None? { assert p.sent[..p.received + 1] == p.sent[..p.received] + [first]; }
      assert [first] + AsSeq<Message>(None) == [first];
      assert [] + AsSeq(p.pending) == AsSeq(p.pending);
    }
  }

  lemma ReceiveKeeps(p: Pipeline)
    requires Inv(p)
    ensures Inv(ReceiveNext(p))
  {
    if p.drain.Collecting? && |p.batch| < DURABLE_BATCH_RECORDS && p.received < |p.sent| {
      var message := p.sent[p.received];
      OneMoreFits(p.batch, message);
      hide Bytes, CommittedWell;
      var done, taken := Flatten(p.batches), p.sent[..p.received];
      assert p.sent[..p.received + 1] == taken + [message];
      assert p.batch + AsSeq<Message>(None) == p.batch;
      Regroup(done, p.batch, [message]);
      assert (p.batch + [message]) + AsSeq<Message>(None) == p.batch + [message];
      assert done <= taken + [message];
    }
  }

  lemma CommitKeeps(p: Pipeline)
    requires Inv(p)
    ensures Inv(Commit(p))
  {
    if p.drain.Committing? && Decodable(p.batch) {
      assert Sum([|p.batch|]) == |p.batch|;
      FlattenOneMore(p.batches, p.batch);
      SumConcat(p.progress, [|p.batch|]);
      hide BatchFits, Decodable, Flatten, Sum;
      assert Flatten(p.batches) + (p.batch + AsSeq(p.pending)) == Flatten(p.batches) + p.batch + AsSeq(p.pending);
      assert [] + AsSeq(p.pending) == AsSeq(p.pending);
    }
  }

  lemma ProgressKeeps(p: Pipeline)
    requires Inv(p)
    ensures Inv(ReceiveProgress(p))
  {
    if p.progress != [] {
      SumConcat([p.progress[0]], p.progress[1..]);
      assert [p.progress[0]] + p.progress[1..] == p.progress;
      assert Sum([p.progress[0]]) == p.progress[0];
    }
  }

  lemma StepKeepsInv(p: Pipeline, m: Move)
    requires Inv(p)
    ensures Inv(Step(p, m))
  {
    match m
    case Send(message) => SendKeeps(p, message);
    case DrainBegins => BeginKeeps(p);
    case DrainReceives => ReceiveKeeps(p);
    case DrainCommits => CommitKeeps(p);
    case BarrierReceives => ProgressKeeps(p);
    case _ =>
  }

  lemma {:induction false} EveryRunKeepsInv(moves: seq<Move>)
    ensures Inv(Run(INITIAL, moves))
  {
    if moves == [] {
    } else {
      hide Step, Inv;
      EveryRunKeepsInv(moves[..|moves| - 1]);
      StepKeepsInv(Run(INITIAL, moves[..|moves| - 1]), moves[|moves| - 1]);
    }
  }

  // ----- the barrier

  /** What the store holds. */
  function Committed(p: Pipeline): Option<seq<Observation>> {
    var observed := Observe(map[], Flatten(p.batches));
    if observed.None? then None else Some(observed.value.0)
  }

  lemma {:induction false} DecodableFlatten(batches: seq<seq<Message>>)
    requires forall i :: 0 <= i < |batches| ==> Decodable(batches[i])
    ensures Decodable(Flatten(batches))
  {
    hide Decode;
    if batches != [] {
      DecodableFlatten(batches[..|batches| - 1]);
      assert Decodable(batches[|batches| - 1]);
    }
  }

  /** When a barrier completes, every message accepted before it is in the store, each as its own observation behind
      the cursor its source had before, however sends, timeouts, commits and reports interleaved. */
  lemma CompletedBarrierIsDurable(moves: seq<Move>)
    requires moves != [] && BarrierCompletes(Run(INITIAL, moves[..|moves| - 1]), moves[|moves| - 1])
    ensures var p := Run(INITIAL, moves);
            && Flatten(p.batches) == p.sent
            && Committed(p).Some? && Observe(map[], p.sent).Some? && Committed(p).value == Observe(map[], p.sent).value.0
            && |Committed(p).value| == |p.sent|
  {
    hide BatchFits, Decodable, Observe, Inv;
    EveryRunKeepsInv(moves[..|moves| - 1]);
    BarrierReached(Run(INITIAL, moves[..|moves| - 1]), moves[|moves| - 1]);
  }

  lemma BarrierReached(p: Pipeline, m: Move)
    requires Inv(p) && BarrierCompletes(p, m)
    ensures var t := Step(p, m);
            && Flatten(t.batches) == t.sent
            && Committed(t).Some? && Observe(map[], t.sent).Some? && Committed(t).value == Observe(map[], t.sent).value.0
            && |Committed(t).value| == |t.sent|
  {
    hide BatchFits, Decodable, Observe;
    assert |Flatten(p.batches)| >= |p.sent|;
    assert Flatten(p.batches) == p.sent;
    DecodableFlatten(p.batches);
    ObserveSucceedsIff(map[], p.sent);
  }

  // ----- sends

  /** A message is accepted exactly if it is at most 65536 bytes long while the worker takes commands, the drain is there
      and the channel has room; what is refused leaves no trace. */
  lemma SendIsAcceptedIff(p: Pipeline, message: Message)
    ensures var t := Step(p, Send(message));
            if p.worker.Serving? && |message| <= 65536 && !p.drain.Stopped? && |p.sent| - p.received < 64
            then t == p.(sent := p.sent + [message]) else t == p
  {
  }

  /** While a batch is open and has fewer than 32 messages the next one is taken: into the batch if it fits, otherwise
      aside, which closes the batch. */
  lemma NextIsTakenIff(p: Pipeline)
    ensures var t := Step(p, DrainReceives);
            if p.drain.Collecting? && |p.batch| < 32 && p.received < |p.sent| then
              var next := p.sent[p.received];
              if Bytes(p.batch) + |next| <= 524288
              then t == p.(received := p.received + 1, batch := p.batch + [next])
              else t == p.(received := p.received + 1, pending := Some(next), drain := Committing)
            else t == p
  {
  }

  /** The channel never holds more than it has room for. */
  lemma {:induction false} BacklogIsBounded(moves: seq<Move>)
    ensures |Run(INITIAL, moves).sent| - Run(INITIAL, moves).received <= 64
  {
    if moves == [] {
    } else {
      BacklogIsBounded(moves[..|moves| - 1]);
      BacklogAfter(Run(INITIAL, moves[..|moves| - 1]), moves[|moves| - 1]);
    }
  }

  lemma BacklogAfter(p: Pipeline, m: Move)
    requires |p.sent| - p.received <= 64
    ensures |Step(p, m).sent| - Step(p, m).received <= 64
  {
  }

  // ----- every barrier can complete

  /** Nothing sent makes the drain stop. */
  predicate AllGood(messages: seq<Message>) { Decodable(messages) && AllFit(messages, DURABLE_BATCH_BYTES) }

  function PhaseRank(phase: DrainPhase): nat {
    match phase
    case Waiting => 2
    case Collecting => 1
    case _ => 0
  }

  /** What the two threads do next, left to themselves: reports are read first, a batch is committed as soon as it is
      begun. */
  function NextMove(p: Pipeline): Move {
    if p.progress != [] then BarrierReceives
    else match p.drain
      case Waiting => DrainBegins
      case Collecting => DrainTimesOut
      case _ => DrainCommits
  }

  predicate Underway(p: Pipeline) {
    p.worker.AwaitingBarrier? && !p.drain.Stopped? && AllGood(p.sent)
  }

  /** How far the messages sent are from being stored. */
  function Uncommitted(p: Pipeline): int { |p.sent| - |Flatten(p.batches)| }

  lemma ReportIsRead(p: Pipeline)
    requires Underway(p) && p.durable < p.worker.target && p.progress != []
    ensures var t := Step(p, BarrierReceives);
            Underway(t) && t == p.(durable := t.durable, progress := p.progress[1..])
  {
    hide AllGood;
  }

  lemma BatchIsBegun(p: Pipeline)
    requires Inv(p) && Underway(p) && p.drain.Waiting? && |Flatten(p.batches)| < |p.sent|
    ensures var t := Step(p, DrainBegins); Underway(t) && t.drain.Collecting? && t.batches == p.batches && t.sent == p.sent
  {
    hide Decodable, BatchFits;
    if p.pending.Some? {
      assert [] + AsSeq(p.pending) == [p.pending.value];
      assert p.sent[|Flatten(p.batches)|] == p.pending.value;
    } else {
      assert p.batch + AsSeq(p.pending) == [];
      assert Flatten(p.batches) + [] == Flatten(p.batches);
    }
  }

  lemma BatchIsStored(p: Pipeline)
    requires Inv(p) && Underway(p) && p.drain.Committing?
    ensures var t := Step(p, DrainCommits); Underway(t) && t.sent == p.sent && |Flatten(t.batches)| > |Flatten(p.batches)|
  {
    var done := Flatten(p.batches);
    FlattenOneMore(p.batches, p.batch);
    assert forall i :: 0 <= i < |p.batch| ==> p.batch[i] == p.sent[|done| + i] by {
      assert forall i :: 0 <= i < |p.batch| ==> (done + (p.batch + AsSeq(p.pending)))[|done| + i] == p.batch[i];
    }
    BatchHasMessages(p.batch, DURABLE_BATCH_RECORDS, DURABLE_BATCH_BYTES);
    hide Decode;
  }

  lemma NothingReported(p: Pipeline)
    requires Inv(p) && p.worker.AwaitingBarrier? && p.durable < p.worker.target && p.progress == []
    ensures |Flatten(p.batches)| < |p.sent|
  {
    hide Flatten;
  }

  lemma RunFirst(p: Pipeline, m: Move, rest: seq<Move>)
    ensures Run(p, [m] + rest) == Run(Step(p, m), rest)
  {
    hide Step;
    if rest == [] {
      assert [m] + rest == [m] && [m][..0] == [];
      assert Run(p, [m]) == Step(Run(p, []), m);
    } else {
      assert ([m] + rest)[..|rest|] == [m] + rest[..|rest| - 1];
      RunFirst(p, m, rest[..|rest| - 1]);
    }
  }

  lemma CommittedIsSent(p: Pipeline)
    requires Inv(p)
    ensures |Flatten(p.batches)| <= |p.sent|
  {
    hide Flatten, BatchFits;
  }

  /** From any state with a barrier under way, and nothing sent that would stop the drain, the two threads alone can
      bring the barrier to its end. */
  lemma {:induction false} BarrierCanEnd(p: Pipeline) returns (moves: seq<Move>)
    requires Inv(p) && Underway(p)
    ensures BarrierCompletes(Run(p, moves), BarrierEnds)
    ensures forall m :: m in moves ==> m.DrainBegins? || m.DrainTimesOut? || m.DrainCommits? || m.BarrierReceives?
    decreases |p.sent| - |Flatten(p.batches)|, PhaseRank(p.drain), |p.progress|
  {
    if p.durable >= p.worker.target {
      moves := [];
    } else {
      var m := NextMove(p);
      CommittedIsSent(p);
      StepKeepsInv(p, m);
      CommittedIsSent(Step(p, m));
      if p.progress != [] {
        ReportIsRead(p);
      } else {
        NothingReported(p);
        match p.drain
        case Waiting => BatchIsBegun(p);
        case Committing => BatchIsStored(p);
        case _ =>
      }
      hide Inv, Flatten, AllGood, Run;
      var rest := BarrierCanEnd(Step(p, m));
      RunFirst(p, m, rest);
      moves := [m] + rest;
    }
  }

  /** No message is too long for a batch, so none stops the drain by its length. */
  lemma {:induction false} SentMessagesFit(moves: seq<Move>)
    ensures AllFit(Run(INITIAL, moves).sent, DURABLE_BATCH_BYTES)
  {
    if moves != [] {
      SentMessagesFit(moves[..|moves| - 1]);
      SentAfter(Run(INITIAL, moves[..|moves| - 1]), moves[|moves| - 1]);
    }
  }

  lemma SentAfter(p: Pipeline, m: Move)
    requires AllFit(p.sent, DURABLE_BATCH_BYTES)
    ensures AllFit(Step(p, m).sent, DURABLE_BATCH_BYTES)
  {
  }

  /** So in every reachable state: no interleaving leaves a barrier without a way to its end, as long as every message
      sent is a command and the store has not failed. */
  lemma EveryBarrierCanEnd(moves: seq<Move>)
    requires var p := Run(INITIAL, moves); p.worker.AwaitingBarrier? && !p.drain.Stopped? && Decodable(p.sent)
    ensures exists more :: BarrierCompletes(Run(INITIAL, moves + more), BarrierEnds)
  {
    EveryRunKeepsInv(moves);
    SentMessagesFit(moves);
    var more := BarrierCanEnd(Run(INITIAL, moves));
    RunConcat(INITIAL, moves, more);
  }

  lemma {:induction false} RunConcat(p: Pipeline, xs: seq<Move>, ys: seq<Move>)
    ensures Run(p, xs + ys) == Run(Run(p, xs), ys)
  {
    hide Step;
    if ys == [] {
      assert xs + ys == xs;
    } else {
      assert (xs + ys)[..|xs + ys| - 1] == xs + ys[..|ys| - 1];
      RunConcat(p, xs, ys[..|ys| - 1]);
    }
  }

  /** The progress counter by itself: the loop of `await_durable_count`. It stops with the first report that
      reaches the target, or fails when there are no more. */
  method AwaitDurableCount(reports: seq<nat>, durable: nat, target: nat) returns (total: nat, used: nat, ok: bool)
    ensures used <= |reports| && total == durable + Sum(reports[..used])
    ensures ok <==> durable + Sum(reports) >= target
    ensures ok ==> total >= target && (used > 0 ==> durable + Sum(reports[..used - 1]) < target)
    ensures !ok ==> used == |reports|
  {
    total, used := durable, 0;
    assert reports[..0] == [];
    while total < target
      invariant used <= |reports| && total == durable + Sum(reports[..used])
      invariant used > 0 ==> durable + Sum(reports[..used - 1]) < target
      decreases |reports| - used
    {
      if used == |reports| {
        assert reports[..used] == reports;
        return total, used, false;
      }
      assert reports[..used + 1][..used] == reports[..used];
      total := total + reports[used];
      used := used + 1;
    }
    SumConcat(reports[..used], reports[used..]);
    assert reports[..used] + reports[used..] == reports;
    return total, used, true;
  }
}
