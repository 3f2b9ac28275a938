/** What the settings editor promises over whole runs. */
module SettingsTheorems {
  import opened Common
  import opened SettingsModel
  import opened SettingsInvariants

  // ----- what each kind of step leaves alone

  ghost predicate NoNewMutation(s: Editor, t: Editor) {
    forall id :: id in t.pending && t.pending[id].Mutation? ==> id in s.pending && s.pending[id] == t.pending[id]
  }

  ghost predicate NoNewRebase(s: Editor, t: Editor) {
    forall id :: id in t.pending && t.pending[id].Rebase? ==> id in s.pending && s.pending[id] == t.pending[id]
  }

  ghost predicate IntegrationAlone(s: Editor, t: Editor) {
    && t.integrationGeneration >= s.integrationGeneration
    && t.integration == s.integration && t.integrationUnavailable == s.integrationUnavailable
    && NoNewMutation(s, t)
    && (Live(t) ==> Live(s))
  }

  ghost predicate ConfigAlone(s: Editor, t: Editor) { t.persisted == s.persisted && t.revision == s.revision }

  ghost predicate DraftAlone(s: Editor, t: Editor) { t.draft == s.draft && NoNewRebase(s, t) }

  lemma ConfigStepFrame(s: Editor, id: nat, answer: Result<Envelope, Code>)
    ensures var t := ConfigStep(s, id, answer);
            && IntegrationAlone(s, t)
            && (ConfigAlone(s, t)
                || (answer.Ok? && t.persisted == Some(answer.value.config) && t.revision == answer.value.revision))
  {
    if id in s.pending {
      match s.pending[id]
      case BootConfig(_) => BootFrame(s, Resumed(s, id), s.pending[id], answer);
      case Save(_, _, _) => SaveFrame(s, Resumed(s, id), s.pending[id], answer);
      case Rebase(_, _, _) => RebaseFrame(s, Resumed(s, id), s.pending[id], answer);
      case _ =>
    }
  }

  /** `r` is `s` with one call fewer. */
  ghost predicate Without(s: Editor, r: Editor) {
    r == s.(pending := r.pending) && forall id :: id in r.pending ==> id in s.pending && s.pending[id] == r.pending[id]
  }

  lemma BootFrame(s: Editor, r: Editor, call: Call, answer: Result<Envelope, Code>)
    requires Without(s, r) && call.BootConfig?
    ensures var t := BootAnswered(r, call, answer);
            && IntegrationAlone(s, t) && NoNewRebase(s, t)
            && (ConfigAlone(s, t)
                || (answer.Ok? && t.persisted == Some(answer.value.config) && t.revision == answer.value.revision))
            && (answer.Err? ==> ConfigAlone(s, t) && DraftAlone(s, t))
  {
  }

  lemma SaveFrame(s: Editor, r: Editor, call: Call, answer: Result<Envelope, Code>)
    requires Without(s, r) && call.Save?
    ensures var t := SaveAnswered(r, call, answer);
            && IntegrationAlone(s, t)
            && (ConfigAlone(s, t)
                || (answer.Ok? && t.persisted == Some(answer.value.config) && t.revision == answer.value.revision))
            && (answer.Err? ==> ConfigAlone(s, t) && t.draft == s.draft)
  {
  }

  lemma SaveCapturesDraft(s: Editor, r: Editor, call: Call, answer: Result<Envelope, Code>)
    requires Without(s, r) && call.Save? && answer.Err? && s.persisted.Some? && RebaseIsCurrent(s)
    ensures RebaseIsCurrent(SaveAnswered(r, call, answer))
  {
  }

  lemma RebaseFrame(s: Editor, r: Editor, call: Call, answer: Result<Envelope, Code>)
    requires Without(s, r) && call.Rebase?
    ensures var t := RebaseAnswered(r, call, answer);
            && IntegrationAlone(s, t)
            && (ConfigAlone(s, t)
                || (answer.Ok? && t.persisted == Some(answer.value.config) && t.revision == answer.value.revision))
            && (answer.Err? || !SessionIsCurrent(s, call.session) ==> ConfigAlone(s, t) && DraftAlone(s, t))
  {
  }

  lemma StatusStepFrame(s: Editor, id: nat, answer: Result<Status, Code>)
    ensures var t := StatusStep(s, id, answer);
            && t.integrationGeneration >= s.integrationGeneration
            && (ActsOn(s, StatusAnswered(id, answer)).None? || answer.Err? ==>
                  s.integrationUnavailable ==> t.integrationUnavailable)
            && (ActsOn(s, StatusAnswered(id, answer)).None? ==>
                  t.integration == s.integration && t.integrationUnavailable == s.integrationUnavailable)
            && NoNewMutation(s, t)
            && (Live(t) ==> Live(s))
            && ConfigAlone(s, t) && DraftAlone(s, t)
  {
    if AwaitsStatus(s, id) {
      StatusCalls(s, Resumed(s, id), s.pending[id], answer);
      hide NoNewMutation, NoNewRebase;
    }
  }

  lemma StatusCalls(s: Editor, r: Editor, call: Call, answer: Result<Status, Code>)
    requires Without(s, r) && IsIntegrationCall(call)
    ensures NoNewMutation(s, StatusFor(r, call, answer)) && NoNewRebase(s, StatusFor(r, call, answer))
  {
  }

  lemma PlainStepFrame(s: Editor, id: nat, answer: Result<(), Code>)
    ensures var t := PlainStep(s, id, answer);
            && IntegrationAlone(s, t) && ConfigAlone(s, t)
            && (LeavesDraft(s, PlainAnswered(id, answer)) ==> DraftAlone(s, t))
  {
    if id in s.pending {
      var r, call := Resumed(s, id), s.pending[id];
      if call.Close? { CloseFrame(s, r, call, answer); }
      else if call.Beat? { BeatFrame(s, r, call, answer); }
    }
  }

  lemma CloseFrame(s: Editor, r: Editor, call: Call, answer: Result<(), Code>)
    requires Without(s, r) && call.Close?
    ensures IntegrationAlone(s, CloseAnswered(r, call, answer)) && ConfigAlone(s, CloseAnswered(r, call, answer))
  {
  }

  lemma BeatFrame(s: Editor, r: Editor, call: Call, answer: Result<(), Code>)
    requires Without(s, r) && call.Beat?
    ensures var t := BeatAnswered(r, call, answer); IntegrationAlone(s, t) && ConfigAlone(s, t) && DraftAlone(s, t)
  {
  }

  predicate IsAnswer(e: Event) { e.ConfigAnswered? || e.StatusAnswered? || e.PlainAnswered? }

  lemma OtherStepFrame(s: Editor, e: Event)
    requires !IsAnswer(e) && !IsEdit(e)
    ensures var t := Step(s, e);
            && t.integrationGeneration >= s.integrationGeneration
            && (e.ToggleClicked? || IntegrationAlone(s, t))
            && t.integration == s.integration && t.integrationUnavailable == s.integrationUnavailable
            && ConfigAlone(s, t)
            && DraftAlone(s, t)
  {
    OtherStepCalls(s, e);
    hide NoNewMutation, NoNewRebase, ConfigStep, StatusStep, PlainStep;
  }

  lemma OtherStepCalls(s: Editor, e: Event)
    requires !IsAnswer(e) && !IsEdit(e)
    ensures (e.ToggleClicked? || NoNewMutation(s, Step(s, e))) && NoNewRebase(s, Step(s, e))
  {
    hide ConfigStep, StatusStep, PlainStep;
  }

  lemma EditStepFrame(s: Editor, e: Event)
    requires IsEdit(e)
    ensures IntegrationAlone(s, Step(s, e)) && ConfigAlone(s, Step(s, e))
  {
  }

  // ----- any number of editors, one stored configuration

  /** A PUT as the server receives it, with the configuration the editor had loaded when it sent it. */
  datatype Put = Put(body: Config, revision: Revision, base: Config)

  datatype World = World(stored: Config, editors: seq<Editor>, puts: seq<Put>)

  /** `OthersWrite` is any writer that is not an editor. A PUT may be handled at any time after it was sent, be it
      never, twice, or after the editor has given up on it. */
  datatype Move =
    | EditorMoves(editor: nat, event: Event)
    | ServerHandles(put: nat)
    | OthersWrite(config: Config)

  /** `name` is the server's revision of a configuration (a digest of its text); `valid` its validation. */
  datatype Server = Server(name: Config -> Revision, valid: Config -> bool)

  /** The two configurations are not a collision of the server's digest. */
  predicate ToldApart(server: Server, c: Config, d: Config) { server.name(c) == server.name(d) ==> c == d }

  function SentBy(s: Editor, e: Event): seq<Put> {
    if e.SaveClicked? && e.valid && CanSave(s) && s.persisted.Some?
    then [Put(s.draft.value, s.revision, s.persisted.value)] else []
  }

  /** The server replaces what it stores only if that is what the PUT names. */
  predicate Accepts(server: Server, stored: Config, put: Put) {
    server.valid(put.body) && server.name(stored) == put.revision
  }

  function Handled(server: Server, stored: Config, put: Put): Config {
    if Accepts(server, stored, put) then put.body else stored
  }

  /** An envelope carries the name of the configuration in it. */
  predicate Honest(server: Server, e: Event) {
    e.ConfigAnswered? && e.config.Ok? ==> e.config.value.revision == server.name(e.config.value.config)
  }

  predicate Possible(server: Server, w: World, m: Move) {
    match m
    case EditorMoves(i, e) => i < |w.editors| && Offered(w.editors[i], e) && Honest(server, e)
    case ServerHandles(k) => k < |w.puts|
    case OthersWrite(_) => true
  }

  function WorldStep(server: Server, w: World, m: Move): World
    requires Possible(server, w, m)
  {
    match m
    case EditorMoves(i, e) =>
      w.(editors := w.editors[i := Step(w.editors[i], e)], puts := w.puts + SentBy(w.editors[i], e))
    case ServerHandles(k) => w.(stored := Handled(server, w.stored, w.puts[k]))
    case OthersWrite(config) => w.(stored := config)
  }

  /** The worlds that a run of moves passes through. */
  ghost predicate WorldRun(server: Server, worlds: seq<World>, moves: seq<Move>) {
    && |worlds| == |moves| + 1
    && (forall i :: 0 <= i < |worlds[0].editors| ==> exists token :: worlds[0].editors[i] == Initial(token))
    && worlds[0].puts == []
    && (forall n :: 0 <= n < |moves| ==>
          Possible(server, worlds[n], moves[n]) && worlds[n + 1] == WorldStep(server, worlds[n], moves[n]))
  }

  predicate Named(server: Server, s: Editor) {
    s.persisted.Some? ==> server.name(s.persisted.value) == s.revision
  }

  predicate PutNamed(server: Server, put: Put) {
    server.name(put.base) == put.revision && put.body.storageBudget == put.base.storageBudget
  }

  ghost predicate WorldInv(server: Server, w: World) {
    && (forall i :: 0 <= i < |w.editors| ==> Inv(w.editors[i]) && Named(server, w.editors[i]))
    && (forall k :: 0 <= k < |w.puts| ==> PutNamed(server, w.puts[k]))
  }

  lemma StepKeepsNamed(server: Server, s: Editor, e: Event)
    requires Named(server, s) && Honest(server, e)
    ensures Named(server, Step(s, e))
  {
    hide ConfigStep, StatusStep, PlainStep;
    match e
    case ConfigAnswered(id, answer) => ConfigStepFrame(s, id, answer);
    case StatusAnswered(id, answer) => StatusStepFrame(s, id, answer);
    case PlainAnswered(id, answer) => PlainStepFrame(s, id, answer);
    case _ =>
      hide Step;
      if IsEdit(e) { EditStepFrame(s, e); } else { OtherStepFrame(s, e); }
  }

  lemma SentIsNamed(server: Server, s: Editor, e: Event)
    requires Inv(s) && Named(server, s)
    ensures forall put :: put in SentBy(s, e) ==> PutNamed(server, put)
  {
  }

  lemma MoveKeepsWorldInv(server: Server, w: World, m: Move)
    requires WorldInv(server, w) && Possible(server, w, m)
    ensures WorldInv(server, WorldStep(server, w, m))
  {
    hide Inv, Named, PutNamed, Step, SentBy, Handled, Honest, Offered;
    if m.EditorMoves? {
      var s := w.editors[m.editor];
      StepKeepsInv(s, m.event);
      StepKeepsNamed(server, s, m.event);
      SentIsNamed(server, s, m.event);
      var t := WorldStep(server, w, m);
      forall k | 0 <= k < |t.puts| ensures PutNamed(server, t.puts[k]) {
        if k >= |w.puts| { assert t.puts[k] in SentBy(s, m.event); }
      }
    }
  }

  lemma {:induction false} EveryWorldKeepsInv(server: Server, worlds: seq<World>, moves: seq<Move>, n: nat)
    requires WorldRun(server, worlds, moves) && n <= |moves|
    ensures WorldInv(server, worlds[n])
  {
    if n == 0 {
      forall i | 0 <= i < |worlds[0].editors| ensures Inv(worlds[0].editors[i]) && Named(server, worlds[0].editors[i]) {
        var token :| worlds[0].editors[i] == Initial(token);
        InitialHolds(token);
      }
    } else {
      EveryWorldKeepsInv(server, worlds, moves, n - 1);
      MoveKeepsWorldInv(server, worlds[n - 1], moves[n - 1]);
    }
  }

  /** The PUT that the server handles in move `n`. */
  function PutOf(server: Server, worlds: seq<World>, moves: seq<Move>, n: nat): Put
    requires n < |worlds| && n < |moves| && moves[n].ServerHandles? && moves[n].put < |worlds[n].puts|
  {
    worlds[n].puts[moves[n].put]
  }

  /** No PUT is handled while the server stores something else of the same name as what its editor had loaded. */
  ghost predicate NoCollision(server: Server, worlds: seq<World>, moves: seq<Move>)
    requires WorldRun(server, worlds, moves)
  {
    forall n :: 0 <= n < |moves| && moves[n].ServerHandles? ==>
      Possible(server, worlds[n], moves[n]) && ToldApart(server, worlds[n].stored, PutOf(server, worlds, moves, n).base)
  }

  /** No editor overwrites what it has not seen. However many editors there are and whatever else writes, a PUT
      takes effect exactly when the stored configuration is still the one its editor had loaded; so it changes
      just the settings that were edited there, keeps everybody else's value of every other setting, and never
      touches the storage budget. */
  lemma NoLostUpdate(server: Server, worlds: seq<World>, moves: seq<Move>, n: nat)
    requires WorldRun(server, worlds, moves) && NoCollision(server, worlds, moves)
    requires n < |moves| && moves[n].ServerHandles?
    ensures Possible(server, worlds[n], moves[n])
    ensures var put, before, after := PutOf(server, worlds, moves, n), worlds[n].stored, worlds[n + 1].stored;
            && (Accepts(server, before, put) <==> server.valid(put.body) && before == put.base)
            && (if Accepts(server, before, put)
                then forall setting :: ValueOf(after, setting) == Merged(put.body, put.base, before, setting)
                else after == before)
            && after.storageBudget == before.storageBudget
  {
    EveryWorldKeepsInv(server, worlds, moves, n);
    assert Possible(server, worlds[n], moves[n]);
    assert PutNamed(server, PutOf(server, worlds, moves, n));
    assert worlds[n + 1] == WorldStep(server, worlds[n], moves[n]);
  }

  /** Editors alone can never change the storage budget. */
  lemma {:induction false} EditorsKeepStorageBudget(server: Server, worlds: seq<World>, moves: seq<Move>, n: nat)
    requires WorldRun(server, worlds, moves) && NoCollision(server, worlds, moves) && n <= |moves|
    requires forall k :: 0 <= k < n ==> !moves[k].OthersWrite?
    ensures worlds[n].stored.storageBudget == worlds[0].stored.storageBudget
  {
    if n == 0 {
    } else {
      EditorsKeepStorageBudget(server, worlds, moves, n - 1);
      if moves[n - 1].ServerHandles? {
        NoLostUpdate(server, worlds, moves, n - 1);
      } else {
        assert worlds[n - 1 + 1] == WorldStep(server, worlds[n - 1], moves[n - 1]);
      }
    }
  }

  // ----- edits and conflicts

  /** The configuration that this step rebases the draft on, if it does. */
  function RebasesOn(s: Editor, e: Event): seq<Config> {
    if e.ConfigAnswered? && e.config.Ok? && e.call in s.pending && s.pending[e.call].Rebase?
       && SessionIsCurrent(s, s.pending[e.call].session)
    then [e.config.value.config] else []
  }

  function Latests(s: Editor, es: seq<Event>): seq<Config> {
    if es == [] then [] else Latests(s, es[..|es| - 1]) + RebasesOn(Run(s, es[..|es| - 1]), es[|es| - 1])
  }

  /** Neither an edit, nor a load, nor a save that goes through, nor the end of a close. */
  predicate LeavesDraft(s: Editor, e: Event) {
    && !IsEdit(e)
    && (e.ConfigAnswered? && e.config.Ok? && e.call in s.pending ==>
          !s.pending[e.call].Save? && !s.pending[e.call].BootConfig?)
    && (e.PlainAnswered? && e.call in s.pending ==> !s.pending[e.call].Close?)
  }

  predicate AllLeaveDraft(s: Editor, es: seq<Event>) {
    es == [] || (AllLeaveDraft(s, es[..|es| - 1]) && LeavesDraft(Run(s, es[..|es| - 1]), es[|es| - 1]))
  }

  /** The draft and its base after a conflict with each of `latests` in turn. */
  function Rounds(draft: Config, base: Config, latests: seq<Config>): (Config, Config) {
    if latests == [] then (draft, base)
    else
      var (d, b) := Rounds(draft, base, latests[..|latests| - 1]);
      (Rebased(d, b, latests[|latests| - 1]), latests[|latests| - 1])
  }

  /** A rebase under way was started from the draft as it still is. */
  ghost predicate RebaseIsCurrent(s: Editor) {
    forall id :: id in s.pending && s.pending[id].Rebase? ==>
      s.draft == Some(s.pending[id].local) && s.persisted == Some(s.pending[id].base)
  }

  lemma StepRebases(s: Editor, e: Event)
    requires Inv(s) && s.persisted.Some? && RebaseIsCurrent(s) && LeavesDraft(s, e)
    ensures var t, latest := Step(s, e), RebasesOn(s, e);
            && t.persisted.Some? && t.draft.Some?
            && (t.draft.value, t.persisted.value) == Rounds(s.draft.value, s.persisted.value, latest)
            && RebaseIsCurrent(t)
  {
    var t, latest := Step(s, e), RebasesOn(s, e);
    if latest == [] {
      StepLeavesDraft(s, e);
    } else {
      var call := s.pending[e.call];
      assert Rounds(s.draft.value, s.persisted.value, []) == (s.draft.value, s.persisted.value);
      assert latest[..0] == [];
      RebaseIsAlone(s, e.call);
    }
  }

  lemma RebaseIsAlone(s: Editor, id: nat)
    requires Inv(s) && Live(s) && id in s.pending && s.pending[id].Rebase?
    ensures forall other :: other in s.pending && s.pending[other].Rebase? ==> other == id
  {
    forall other | other in s.pending && s.pending[other].Rebase? ensures other == id {
      assert other in Holders(s.pending) && id in Holders(s.pending);
    }
  }

  lemma StepLeavesDraft(s: Editor, e: Event)
    requires Inv(s) && s.persisted.Some? && RebaseIsCurrent(s) && LeavesDraft(s, e) && RebasesOn(s, e) == []
    ensures Step(s, e).draft == s.draft && Step(s, e).persisted == s.persisted && RebaseIsCurrent(Step(s, e))
  {
    hide Inv, ConfigStep, StatusStep, PlainStep;
    match e
    case ConfigAnswered(id, answer) => ConflictStartsRebase(s, id, answer);
    case StatusAnswered(id, answer) => StatusStepFrame(s, id, answer);
    case PlainAnswered(id, answer) => PlainStepFrame(s, id, answer);
    case _ =>
      hide Step;
      if IsEdit(e) { EditStepFrame(s, e); } else { OtherStepFrame(s, e); }
  }

  lemma ConflictStartsRebase(s: Editor, id: nat, answer: Result<Envelope, Code>)
    requires s.persisted.Some? && RebaseIsCurrent(s)
    requires LeavesDraft(s, ConfigAnswered(id, answer)) && RebasesOn(s, ConfigAnswered(id, answer)) == []
    ensures var t := ConfigStep(s, id, answer);
            t.draft == s.draft && t.persisted == s.persisted && RebaseIsCurrent(t)
  {
    if id in s.pending {
      match s.pending[id]
      case BootConfig(_) => BootFrame(s, Resumed(s, id), s.pending[id], answer);
      case Save(_, _, _) =>
        SaveFrame(s, Resumed(s, id), s.pending[id], answer);
        SaveCapturesDraft(s, Resumed(s, id), s.pending[id], answer);
      case Rebase(_, _, _) => RebaseFrame(s, Resumed(s, id), s.pending[id], answer);
      case _ =>
    }
  }

  lemma {:induction false} RunRebases(s: Editor, es: seq<Event>)
    requires Inv(s) && s.persisted.Some? && RebaseIsCurrent(s)
    requires AllOffered(s, es) && AllLeaveDraft(s, es)
    ensures var t := Run(s, es);
            && t.persisted.Some? && t.draft.Some?
            && (t.draft.value, t.persisted.value) == Rounds(s.draft.value, s.persisted.value, Latests(s, es))
            && RebaseIsCurrent(t)
  {
    if es == [] {
    } else {
      var front, last := es[..|es| - 1], es[|es| - 1];
      RunRebases(s, front);
      EveryRunKeepsInv(s, front);
      var m := Run(s, front);
      StepRebases(m, last);
      var latest := RebasesOn(m, last);
      if latest == [] {
        assert Latests(s, es) == Latests(s, front);
      } else {
        assert Latests(s, es)[..|Latests(s, es)| - 1] == Latests(s, front);
        assert latest[..0] == [];
      }
    }
  }

  /** What is left of one setting after a conflict with each of `latests`. */
  lemma {:induction false} RoundsOfOneSetting(draft: Config, base: Config, latests: seq<Config>, setting: Setting)
    requires latests != []
    ensures var (d, b) := Rounds(draft, base, latests);
            && b == latests[|latests| - 1]
            && ValueOf(d, setting) ==
                 if ValueOf(draft, setting) != ValueOf(base, setting)
                    && (forall i :: 0 <= i < |latests| - 1 ==> ValueOf(latests[i], setting) != ValueOf(draft, setting))
                 then ValueOf(draft, setting) else ValueOf(b, setting)
  {
    hide ValueOf, Rebased;
    var front, last := latests[..|latests| - 1], latests[|latests| - 1];
    if front == [] {
      assert Rounds(draft, base, front) == (draft, base);
    } else {
      RoundsOfOneSetting(draft, base, front, setting);
      var (d, b) := Rounds(draft, base, front);
      assert b == latests[|front| - 1];
      if forall i :: 0 <= i < |front| ==> ValueOf(latests[i], setting) != ValueOf(draft, setting) {
        assert forall i :: 0 <= i < |front| - 1 ==> front[i] == latests[i];
      } else {
        var i :| 0 <= i < |front| && ValueOf(latests[i], setting) == ValueOf(draft, setting);
        if i < |front| - 1 { assert front[i] == latests[i]; }
      }
    }
  }

  /** An edit survives any number of conflicts, however they interleave with everything else the page does,
      exactly when no version it was rebased on before the last one already held its value (or the last one
      holds it anyway). Settings that were not edited follow the server. */
  lemma EditSurvivesConflictsIff(s: Editor, es: seq<Event>, setting: Setting)
    requires Inv(s) && s.persisted.Some? && RebaseIsCurrent(s)
    requires AllOffered(s, es) && AllLeaveDraft(s, es)
    ensures var edit, t, latests := ValueOf(s.draft.value, setting), Run(s, es), Latests(s, es);
            t.draft.Some? &&
            if ValueOf(s.draft.value, setting) == ValueOf(s.persisted.value, setting) then
              ValueOf(t.draft.value, setting) == (if latests == [] then edit else ValueOf(latests[|latests| - 1], setting))
            else
              ValueOf(t.draft.value, setting) == edit <==>
                (|latests| > 0 && ValueOf(latests[|latests| - 1], setting) == edit)
                || (forall i :: 0 <= i < |latests| - 1 ==> ValueOf(latests[i], setting) != edit)
  {
    RunRebases(s, es);
    if Latests(s, es) != [] {
      RoundsOfOneSetting(s.draft.value, s.persisted.value, Latests(s, es), setting);
    }
  }

  // ----- late responses about the integration

  /** The number of the request whose answer this step acts on, if it acts on one. */
  function ActsOn(s: Editor, e: Event): Option<nat> {
    if e.StatusAnswered? && AwaitsStatus(s, e.call) && IntegrationIsCurrent(s, s.pending[e.call])
    then Some(s.pending[e.call].generation) else None
  }

  lemma GenerationGrows(s: Editor, e: Event)
    ensures Step(s, e).integrationGeneration >= s.integrationGeneration
  {
    hide ConfigStep, StatusStep, PlainStep;
    match e
    case ConfigAnswered(id, answer) => ConfigStepFrame(s, id, answer);
    case StatusAnswered(id, answer) => StatusStepFrame(s, id, answer);
    case PlainAnswered(id, answer) => PlainStepFrame(s, id, answer);
    case _ =>
      hide Step;
      if IsEdit(e) { EditStepFrame(s, e); } else { OtherStepFrame(s, e); }
  }

  lemma RunOneMore(s: Editor, es: seq<Event>, n: nat)
    requires n < |es|
    ensures Run(s, es[..n + 1]) == Step(Run(s, es[..n]), es[n])
  {
    hide Step;
    assert es[..n + 1][..n] == es[..n];
  }

  lemma {:induction false} GenerationGrowsOverRuns(s: Editor, es: seq<Event>, i: nat, j: nat)
    requires i <= j <= |es|
    ensures Run(s, es[..i]).integrationGeneration <= Run(s, es[..j]).integrationGeneration
  {
    if i < j {
      hide Run, Step;
      GenerationGrowsOverRuns(s, es, i, j - 1);
      RunOneMore(s, es, j - 1);
      GenerationGrows(Run(s, es[..j - 1]), es[j - 1]);
    }
  }

  /** Answers are acted on in the order the requests were made, whatever order they arrive in. */
  lemma AnswersActInRequestOrder(s: Editor, es: seq<Event>, i: nat, j: nat)
    requires i < j < |es|
    requires ActsOn(Run(s, es[..i]), es[i]).Some? && ActsOn(Run(s, es[..j]), es[j]).Some?
    ensures ActsOn(Run(s, es[..i]), es[i]).value <= ActsOn(Run(s, es[..j]), es[j]).value
  {
    GenerationGrowsOverRuns(s, es, i, j);
  }

  /** Nothing but such an answer changes what the page says about the integration. */
  lemma OnlyAnswersChangeIntegration(s: Editor, e: Event)
    requires Step(s, e).integration != s.integration || Step(s, e).integrationUnavailable != s.integrationUnavailable
    ensures ActsOn(s, e) == Some(s.integrationGeneration)
  {
    hide ConfigStep, StatusStep, PlainStep;
    match e
    case ConfigAnswered(id, answer) => ConfigStepFrame(s, id, answer);
    case StatusAnswered(id, answer) => StatusStepFrame(s, id, answer);
    case PlainAnswered(id, answer) => PlainStepFrame(s, id, answer);
    case _ =>
      hide Step;
      if IsEdit(e) { EditStepFrame(s, e); } else { OtherStepFrame(s, e); }
  }

  // ----- a failed change keeps the integration locked

  predicate ChangeFailed(s: Editor, e: Event) {
    ActsOn(s, e).Some? && s.pending[e.call].Mutation? && e.status.Err?
  }

  predicate StatusRead(s: Editor, e: Event) {
    ActsOn(s, e).Some? && !s.pending[e.call].Mutation? && e.status.Ok?
  }

  predicate SendsChange(s: Editor, e: Event) { e.ToggleClicked? && StartToggle(s) != s }

  ghost predicate Locked(s: Editor) {
    s.integrationUnavailable && (Live(s) ==> forall id :: id in s.pending ==> !s.pending[id].Mutation?)
  }

  lemma StaysLocked(s: Editor, e: Event)
    requires Inv(s) && Locked(s) && !StatusRead(s, e)
    ensures Locked(Step(s, e)) && !SendsChange(s, e)
  {
    hide Inv, ConfigStep, StatusStep, PlainStep;
    match e
    case ConfigAnswered(id, answer) => ConfigStepFrame(s, id, answer);
    case StatusAnswered(id, answer) => StatusStepFrame(s, id, answer);
    case PlainAnswered(id, answer) => PlainStepFrame(s, id, answer);
    case ToggleClicked =>
    case _ =>
      hide Step;
      if IsEdit(e) { EditStepFrame(s, e); } else { OtherStepFrame(s, e); }
  }

  lemma FailureLocks(s: Editor, e: Event)
    requires Inv(s) && ChangeFailed(s, e)
    ensures Locked(Step(s, e))
  {
    forall id | id in s.pending && s.pending[id].Mutation? ensures id == e.call {
      assert id in Holders(s.pending) && e.call in Holders(s.pending);
    }
  }

  /** Once a connect or disconnect has failed, whose effect is then unknown, no other is sent until the status
      has been read successfully. */
  lemma {:induction false} NoChangeUntilStatusRead(s: Editor, es: seq<Event>, i: nat, j: nat)
    requires Inv(s) && AllOffered(s, es)
    requires i < j < |es| && ChangeFailed(Run(s, es[..i]), es[i])
    requires forall k :: i < k <= j ==> !StatusRead(Run(s, es[..k]), es[k])
    ensures Locked(Run(s, es[..j])) && !SendsChange(Run(s, es[..j]), es[j])
  {
    OfferedPrefix(s, es, j);
    EveryRunKeepsInv(s, es[..j]);
    assert es[..j][..j - 1] == es[..j - 1];
    OfferedPrefix(s, es, j - 1);
    EveryRunKeepsInv(s, es[..j - 1]);
    if i == j - 1 {
      FailureLocks(Run(s, es[..i]), es[i]);
    } else {
      NoChangeUntilStatusRead(s, es, i, j - 1);
      StaysLocked(Run(s, es[..j - 1]), es[j - 1]);
    }
    StaysLocked(Run(s, es[..j]), es[j]);
  }

  lemma {:induction false} OfferedPrefix(s: Editor, es: seq<Event>, n: nat)
    requires AllOffered(s, es) && n <= |es|
    ensures AllOffered(s, es[..n])
    decreases |es|
  {
    if n < |es| {
      assert es[..|es| - 1][..n] == es[..n];
      OfferedPrefix(s, es[..|es| - 1], n);
    } else {
      assert es[..n] == es;
    }
  }

  // ----- the end of the session

  datatype Shown = Shown(
    draft: Option<Config>, persisted: Option<Config>, defaults: Option<Config>, revision: Revision,
    integration: Option<Status>, integrationUnavailable: bool)

  function ShownBy(s: Editor): Shown {
    Shown(s.draft, s.persisted, s.defaults, s.revision, s.integration, s.integrationUnavailable)
  }

  lemma ExpiredStepShowsNothingNew(s: Editor, e: Event)
    requires !Live(s) && !IsEdit(e)
    ensures !Live(Step(s, e)) && ShownBy(Step(s, e)) == ShownBy(s)
    ensures SentBy(s, e) == [] && !SendsChange(s, e)
  {
  }

  /** Once the session is over no response, no timer and no button changes the configuration or the integration
      state, and nothing more is saved or connected, for ever. */
  lemma {:induction false} NothingFollowsExpiry(s: Editor, es: seq<Event>, n: nat)
    requires !Live(s) && (forall e :: e in es ==> !IsEdit(e)) && n <= |es|
    ensures var t := Run(s, es[..n]);
            && !Live(t) && ShownBy(t) == ShownBy(s)
            && (n < |es| ==> SentBy(t, es[n]) == [] && !SendsChange(t, es[n]))
  {
    if n > 0 {
      NothingFollowsExpiry(s, es, n - 1);
      assert es[..n][..n - 1] == es[..n - 1];
      ExpiredStepShowsNothingNew(Run(s, es[..n - 1]), es[n - 1]);
    }
    if n < |es| { ExpiredStepShowsNothingNew(Run(s, es[..n]), es[n]); }
  }
}
