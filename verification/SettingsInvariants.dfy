/** What every step of the settings editor keeps. */
module SettingsInvariants {
  import opened Common
  import opened SettingsModel

  /** The calls that hold the form: the buttons stay disabled until one of these is over. */
  predicate HoldsForm(call: Call) {
    call.Save? || call.Rebase? || call.Mutation? || call.MutationCheck? || call.ManualStatus?
  }

  predicate Live(s: Editor) { s.token != "" }

  /** Either nothing has been loaded or everything has, and no edit has touched the storage budget. */
  predicate ConfigCoherent(s: Editor) {
    && s.draft.Some? == s.persisted.Some? == s.defaults.Some?
    && (s.draft.Some? ==> s.draft.value.storageBudget == s.persisted.value.storageBudget)
    && (s.persisted.None? ==> s.integration.None?)
    && !s.conflicted
  }

  /** In a live session every call still belongs to it, and one that holds the form and is about the
      integration is the latest such request. Until the first configuration has come nothing but the session's
      own calls is under way. */
  predicate Fits(s: Editor, id: nat)
    requires id in s.pending
  {
    var call := s.pending[id];
    && id < s.nextCall
    && (IsIntegrationCall(call) ==> call.generation <= s.integrationGeneration)
    && (call.BootConfig? ==> id == 0)
    && (Live(s) ==>
          && call.session == CurrentSession(s)
          && (HoldsForm(call) && IsIntegrationCall(call) ==> call.generation == s.integrationGeneration)
          && (if s.persisted.None? then call.BootConfig? || call.Close? || call.Beat? else !call.BootConfig?))
  }

  ghost predicate CallsFit(s: Editor) { forall id :: id in s.pending ==> Fits(s, id) }

  function Holders(pending: map<nat, Call>): set<nat> { set id | id in pending && HoldsForm(pending[id]) }

  function Closers(pending: map<nat, Call>): set<nat> { set id | id in pending && pending[id].Close? }

  ghost predicate AtMostOne(ids: set<nat>) { forall a, b :: a in ids && b in ids ==> a == b }

  /** A flag is up exactly while one call, and only one, holds it up. */
  ghost predicate Raised(flag: bool, ids: set<nat>) {
    if flag then ids != {} && AtMostOne(ids) else ids == {}
  }

  ghost predicate Inv(s: Editor) {
    && ConfigCoherent(s)
    && CallsFit(s)
    && (Live(s) ==> Raised(s.busy, Holders(s.pending)))
    && Raised(s.closing, Closers(s.pending))
  }

  lemma InitialHolds(token: string)
    ensures Inv(Initial(token))
  {
  }

  // ----- calls come and go

  lemma NewCall(s: Editor, call: Call)
    requires CallsFit(s)
    requires Fits(Await(s, call), s.nextCall)
    ensures CallsFit(Await(s, call))
    ensures var ids := Holders(Await(s, call).pending);
            if HoldsForm(call) then Holders(s.pending) == {} ==> Raised(true, ids) else ids == Holders(s.pending)
    ensures var ids := Closers(Await(s, call).pending);
            if call.Close? then Closers(s.pending) == {} ==> Raised(true, ids) else ids == Closers(s.pending)
  {
    var t := Await(s, call);
    forall id | id in t.pending ensures Fits(t, id) {
      if id != s.nextCall { assert Fits(s, id); }
    }
    assert s.nextCall in s.pending ==> Fits(s, s.nextCall);
    assert Holders(t.pending) == Holders(s.pending) + (if HoldsForm(call) then {s.nextCall} else {});
    assert Closers(t.pending) == Closers(s.pending) + (if call.Close? then {s.nextCall} else {});
  }

  lemma CallOver(s: Editor, id: nat)
    requires CallsFit(s) && id in s.pending
    ensures CallsFit(Resumed(s, id)) && Fits(s, id)
    ensures var ids := Holders(Resumed(s, id).pending);
            if HoldsForm(s.pending[id]) then AtMostOne(Holders(s.pending)) ==> ids == {} else ids == Holders(s.pending)
    ensures var ids := Closers(Resumed(s, id).pending);
            if s.pending[id].Close? then AtMostOne(Closers(s.pending)) ==> ids == {} else ids == Closers(s.pending)
    ensures HoldsForm(s.pending[id]) ==> Holders(s.pending) != {}
    ensures s.pending[id].Close? ==> Closers(s.pending) != {}
  {
    forall other | other in Resumed(s, id).pending ensures Fits(Resumed(s, id), other) {
      assert Fits(s, other);
    }
    if HoldsForm(s.pending[id]) { assert id in Holders(s.pending); }
    if s.pending[id].Close? { assert id in Closers(s.pending); }
    assert Holders(Resumed(s, id).pending) == Holders(s.pending) - {id};
    assert Closers(Resumed(s, id).pending) == Closers(s.pending) - {id};
  }

  /** What no call looks at may change; so may the session's end, and the latest request's number as long as no
      call about the integration holds the form. */
  lemma StillFits(s: Editor, t: Editor)
    requires CallsFit(s) && t.pending == s.pending && t.nextCall == s.nextCall
    requires t.integrationGeneration >= s.integrationGeneration
    requires Live(t) ==>
               && CurrentSession(t) == CurrentSession(s)
               && t.persisted.Some? == s.persisted.Some?
               && (t.integrationGeneration > s.integrationGeneration ==> Holders(s.pending) == {})
    ensures CallsFit(t)
  {
    forall id | id in t.pending ensures Fits(t, id) {
      assert Fits(s, id);
      assert HoldsForm(s.pending[id]) ==> id in Holders(s.pending);
    }
  }

  // ----- the user's steps

  lemma SaveClickKeeps(s: Editor, valid: bool)
    requires Inv(s)
    ensures Inv(StartSave(s, valid))
  {
    hide Holders, Closers, CallsFit, AtMostOne;
    if CanSave(s) && valid {
      StillFits(s, s.(busy := true));
      NewCall(s.(busy := true), Save(CurrentSession(s), s.draft.value, s.revision));
    }
  }

  lemma ToggleKeeps(s: Editor)
    requires Inv(s)
    ensures Inv(StartToggle(s))
  {
    hide Holders, Closers, CallsFit, AtMostOne;
    if StartToggle(s) != s {
      var numbered := s.(integrationGeneration := s.integrationGeneration + 1, busy := true);
      StillFits(s, numbered);
      NewCall(numbered, Mutation(CurrentSession(s), numbered.integrationGeneration, !s.integration.value.connected));
    }
  }

  lemma RefreshKeeps(s: Editor)
    requires Inv(s) && s.persisted.Some?
    ensures Inv(StartManualStatus(s))
  {
    hide Holders, Closers, CallsFit, AtMostOne;
    if StartManualStatus(s) != s {
      var numbered := s.(integrationGeneration := s.integrationGeneration + 1, busy := true);
      StillFits(s, numbered);
      NewCall(numbered, ManualStatus(CurrentSession(s), numbered.integrationGeneration));
    }
  }

  lemma QuietKeeps(s: Editor)
    requires Inv(s)
    ensures Inv(StartQuietStatus(s))
  {
    hide Holders, Closers, CallsFit, AtMostOne;
    if StartQuietStatus(s) != s {
      var numbered := s.(integrationGeneration := s.integrationGeneration + 1);
      StillFits(s, numbered);
      NewCall(numbered, QuietStatus(CurrentSession(s), numbered.integrationGeneration));
    }
  }

  lemma CloseClickKeeps(s: Editor)
    requires Inv(s)
    ensures Inv(StartClose(s))
  {
    hide Holders, Closers, CallsFit, AtMostOne;
    if StartClose(s) != s {
      StillFits(s, s.(closing := true));
      NewCall(s.(closing := true), Close(CurrentSession(s)));
    }
  }

  lemma BeatDueKeeps(s: Editor, recentlyActive: bool)
    requires Inv(s)
    ensures Inv(Step(s, HeartbeatDue(recentlyActive)))
  {
    hide Holders, Closers, CallsFit, AtMostOne;
    if Step(s, HeartbeatDue(recentlyActive)) != s { NewCall(s, Beat(CurrentSession(s))); }
  }

  lemma EditKeeps(s: Editor, draft: Option<Config>)
    requires Inv(s)
    requires draft.Some? == s.draft.Some?
    requires draft.Some? ==> draft.value.storageBudget == s.draft.value.storageBudget
    ensures Inv(s.(draft := draft))
  {
    hide Holders, Closers, CallsFit, AtMostOne;
    StillFits(s, s.(draft := draft));
  }

  // ----- the answers

  lemma DelayKeeps(s: Editor, id: nat)
    requires Inv(s)
    ensures Inv(DelayStep(s, id))
  {
    hide Holders, Closers, CallsFit, AtMostOne;
    if id in s.pending && s.pending[id].InitialRetryDelay? {
      CallOver(s, id);
      if IntegrationIsCurrent(s, s.pending[id]) {
        NewCall(Resumed(s, id), InitialRetry(s.pending[id].session, s.pending[id].generation));
      }
    }
  }

  lemma BootKeeps(s: Editor, id: nat, answer: Result<Envelope, Code>)
    requires Inv(s) && id in s.pending && s.pending[id].BootConfig?
    ensures Inv(ConfigStep(s, id, answer))
  {
    hide Holders, Closers, CallsFit, AtMostOne;
    CallOver(s, id);
    var r := Resumed(s, id);
    if Live(s) {
      match answer
      case Ok(envelope) =>
        var numbered := ApplyEnvelope(r, envelope).(integrationGeneration := s.integrationGeneration + 1);
        BootEndsLoading(s, id, numbered);
        NewCall(numbered, InitialStatus(s.pending[id].session, numbered.integrationGeneration));
      case Err(code) =>
        StillFits(r, ExpireSession(r));
    }
  }

  lemma BootEndsLoading(s: Editor, id: nat, t: Editor)
    requires Inv(s) && Live(s) && id in s.pending && s.pending[id].BootConfig?
    requires t.persisted.Some? && t.pending == s.pending - {id} && t.nextCall == s.nextCall
    requires CurrentSession(t) == CurrentSession(s) && t.integrationGeneration >= s.integrationGeneration
    ensures CallsFit(t) && Holders(t.pending) == {} && !s.busy
  {
    assert Fits(s, id);
    forall other | other in t.pending ensures Fits(t, other) { assert Fits(s, other); }
    forall other | other in s.pending ensures !HoldsForm(s.pending[other]) { assert Fits(s, other); }
  }

  lemma SaveKeeps(s: Editor, id: nat, answer: Result<Envelope, Code>)
    requires Inv(s) && id in s.pending && s.pending[id].Save?
    ensures Inv(ConfigStep(s, id, answer))
  {
    hide Holders, Closers, CallsFit, AtMostOne;
    CallOver(s, id);
    var r := Resumed(s, id);
    if Live(s) && answer.Err? && answer.error == ConfigConflict {
      NewCall(r, Rebase(s.pending[id].session, s.draft.value, s.persisted.value));
    } else {
      StillFits(r, ConfigStep(s, id, answer));
    }
  }

  lemma RebaseKeeps(s: Editor, id: nat, answer: Result<Envelope, Code>)
    requires Inv(s) && id in s.pending && s.pending[id].Rebase?
    ensures Inv(ConfigStep(s, id, answer))
  {
    hide Holders, Closers, CallsFit, AtMostOne;
    CallOver(s, id);
    StillFits(Resumed(s, id), ConfigStep(s, id, answer));
  }

  lemma StatusKeeps(s: Editor, id: nat, answer: Result<Status, Code>)
    requires Inv(s) && AwaitsStatus(s, id)
    ensures Inv(StatusStep(s, id, answer))
  {
    hide Holders, Closers, CallsFit, AtMostOne;
    CallOver(s, id);
    var r, call := Resumed(s, id), s.pending[id];
    if call.InitialStatus? && answer.Ok? && answer.value.connected && answer.value.collectorUnavailable {
      NewCall(r, InitialRetryDelay(call.session, call.generation));
    } else if call.Mutation? && answer.Err? && IntegrationIsCurrent(r, call) {
      StillFits(r, LockIntegration(r));
      NewCall(LockIntegration(r), MutationCheck(call.session, call.generation));
    } else {
      StillFits(r, StatusStep(s, id, answer));
    }
  }

  lemma CloseKeeps(s: Editor, id: nat, answer: Result<(), Code>)
    requires Inv(s) && id in s.pending && s.pending[id].Close?
    ensures Inv(PlainStep(s, id, answer))
  {
    hide Holders, Closers, CallsFit, AtMostOne;
    CallOver(s, id);
    StillFits(Resumed(s, id), PlainStep(s, id, answer));
  }

  lemma BeatKeeps(s: Editor, id: nat, answer: Result<(), Code>)
    requires Inv(s) && id in s.pending && s.pending[id].Beat?
    ensures Inv(PlainStep(s, id, answer))
  {
    hide Holders, Closers, CallsFit, AtMostOne;
    CallOver(s, id);
    var r := Resumed(s, id);
    if answer.Ok? { QuietKeeps(r); } else { StillFits(r, ExpireSession(r)); }
  }

  // ----- every step, every run

  lemma StepKeepsInv(s: Editor, e: Event)
    requires Inv(s) && Offered(s, e)
    ensures Inv(Step(s, e))
  {
    hide Inv;
    match e
    case EditNumber(_, _) => EditStepKeeps(s, e);
    case EditEnabled(_) => EditStepKeeps(s, e);
    case EditCapture(_) => EditStepKeeps(s, e);
    case EditLifecycle(_) => EditStepKeeps(s, e);
    case DiscardClicked => EditStepKeeps(s, e);
    case ResetClicked => EditStepKeeps(s, e);
    case SaveClicked(valid) => SaveClickKeeps(s, valid);
    case ToggleClicked => ToggleKeeps(s);
    case RefreshClicked => RefreshKeeps(s);
    case WindowFocused => QuietKeeps(s);
    case CloseClicked => CloseClickKeeps(s);
    case HeartbeatDue(recentlyActive) => BeatDueKeeps(s, recentlyActive);
    case RetryDelayOver(call) => DelayKeeps(s, call);
    case ConfigAnswered(call, answer) => ConfigAnswerKeeps(s, call, answer);
    case StatusAnswered(call, answer) => if AwaitsStatus(s, call) { StatusKeeps(s, call, answer); }
    case PlainAnswered(call, answer) => PlainAnswerKeeps(s, call, answer);
  }

  /** The steps that only change the draft. */
  predicate IsEdit(e: Event) {
    e.EditNumber? || e.EditEnabled? || e.EditCapture? || e.EditLifecycle? || e.DiscardClicked? || e.ResetClicked?
  }

  lemma EditStepKeeps(s: Editor, e: Event)
    requires Inv(s) && IsEdit(e)
    ensures Inv(Step(s, e)) && Step(s, e) == s.(draft := Step(s, e).draft)
  {
    hide Holders, Closers, CallsFit, Raised;
    EditKeeps(s, Step(s, e).draft);
  }

  lemma ConfigAnswerKeeps(s: Editor, id: nat, answer: Result<Envelope, Code>)
    requires Inv(s)
    ensures Inv(ConfigStep(s, id, answer))
  {
    hide Inv;
    if id in s.pending {
      match s.pending[id]
      case BootConfig(_) => BootKeeps(s, id, answer);
      case Save(_, _, _) => SaveKeeps(s, id, answer);
      case Rebase(_, _, _) => RebaseKeeps(s, id, answer);
      case _ =>
    }
  }

  lemma PlainAnswerKeeps(s: Editor, id: nat, answer: Result<(), Code>)
    requires Inv(s)
    ensures Inv(PlainStep(s, id, answer))
  {
    hide Inv;
    if id in s.pending {
      match s.pending[id]
      case Close(_) => CloseKeeps(s, id, answer);
      case Beat(_) => BeatKeeps(s, id, answer);
      case _ =>
    }
  }

  /** Every editor the page can reach, whatever the user does and however the network answers. */
  lemma {:induction false} EveryRunKeepsInv(s: Editor, es: seq<Event>)
    requires Inv(s) && AllOffered(s, es)
    ensures Inv(Run(s, es))
  {
    if es == [] {
    } else {
      EveryRunKeepsInv(s, es[..|es| - 1]);
      StepKeepsInv(Run(s, es[..|es| - 1]), es[|es| - 1]);
    }
  }

  /** While the form is locked exactly one call holds it; the answer to that call either frees it, or hands it to
      one follow-up call, and whatever that is answered frees it. */
  lemma BusyIsReleased(s: Editor, id: nat)
    requires Inv(s) && Live(s) && s.busy && id in Holders(s.pending)
    ensures Holders(s.pending) == {id}
    ensures s.pending[id].Save? || s.pending[id].Rebase? || AwaitsStatus(s, id)
    ensures s.pending[id].Rebase? ==> forall answer :: !ConfigStep(s, id, answer).busy
    ensures s.pending[id].Save? ==> forall answer :: var t := ConfigStep(s, id, answer);
              if answer.Ok? || answer.error != ConfigConflict then !t.busy
              else t.busy && Holders(t.pending) == {s.nextCall} && t.pending[s.nextCall].Rebase?
    ensures s.pending[id].MutationCheck? || s.pending[id].ManualStatus? ==> forall answer :: !StatusStep(s, id, answer).busy
    ensures s.pending[id].Mutation? ==> forall answer :: var t := StatusStep(s, id, answer);
              if answer.Ok? then !t.busy
              else t.busy && Holders(t.pending) == {s.nextCall} && t.pending[s.nextCall].MutationCheck?
  {
    CallOver(s, id);
    if s.pending[id].Save? {
      var call := Rebase(s.pending[id].session, s.draft.value, s.persisted.value);
      FollowUp(Resumed(s, id), call);
    } else if s.pending[id].Mutation? {
      FollowUp(Resumed(s, id), MutationCheck(s.pending[id].session, s.pending[id].generation));
    }
  }

  lemma FollowUp(s: Editor, call: Call)
    requires HoldsForm(call) && Holders(s.pending) == {}
    ensures Holders(Await(s, call).pending) == {s.nextCall}
  {
    forall id | id in s.pending ensures HoldsForm(s.pending[id]) ==> id in Holders(s.pending) {
    }
  }
}
