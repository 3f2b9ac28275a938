/** What becomes of edits made while a request of the settings editor is under way, and of the form meanwhile. */
module SettingsInFlight {
  import opened Common
  import opened SettingsModel
  import opened SettingsInvariants

  // ----- a call waits until it is answered

  /** The event resumes the call `id`, if that call waits for such an event. */
  predicate Resumes(e: Event, id: nat) {
    match e
    case RetryDelayOver(call) => call == id
    case ConfigAnswered(call, _) => call == id
    case StatusAnswered(call, _) => call == id
    case PlainAnswered(call, _) => call == id
    case _ => false
  }

  predicate Unanswered(es: seq<Event>, id: nat) { forall i :: 0 <= i < |es| ==> !Resumes(es[i], id) }

  predicate SameCall(s: Editor, t: Editor, id: nat)
    requires id in s.pending
  {
    id in t.pending && t.pending[id] == s.pending[id]
  }

  lemma OtherConfigLeavesCall(s: Editor, other: nat, answer: Result<Envelope, Code>, id: nat)
    requires id in s.pending && id < s.nextCall && other != id
    ensures SameCall(s, ConfigStep(s, other, answer), id)
  {
    hide SessionIsCurrent;
  }

  lemma OtherPlainLeavesCall(s: Editor, other: nat, answer: Result<(), Code>, id: nat)
    requires id in s.pending && id < s.nextCall && other != id
    ensures SameCall(s, PlainStep(s, other, answer), id)
  {
    hide SessionIsCurrent;
  }

  lemma OtherDelayLeavesCall(s: Editor, other: nat, id: nat)
    requires id in s.pending && id < s.nextCall && other != id
    ensures SameCall(s, DelayStep(s, other), id)
  {
    hide SessionIsCurrent;
  }

  lemma OtherStatusLeavesCall(s: Editor, other: nat, answer: Result<Status, Code>, id: nat)
    requires id in s.pending && id < s.nextCall && other != id
    ensures SameCall(s, StatusStep(s, other, answer), id)
  {
    hide SessionIsCurrent;
  }

  lemma CallStays(s: Editor, e: Event, id: nat)
    requires CallsFit(s) && id in s.pending && !Resumes(e, id)
    ensures SameCall(s, Step(s, e), id)
  {
    assert Fits(s, id);
    hide CallsFit, Fits, SessionIsCurrent, IntegrationIsCurrent, CanSave, ConfigStep, StatusStep, PlainStep, DelayStep;
    match e
    case RetryDelayOver(call) => OtherDelayLeavesCall(s, call, id);
    case ConfigAnswered(call, answer) => OtherConfigLeavesCall(s, call, answer, id);
    case StatusAnswered(call, answer) => OtherStatusLeavesCall(s, call, answer, id);
    case PlainAnswered(call, answer) => OtherPlainLeavesCall(s, call, answer, id);
    case _ =>
  }

  lemma {:induction false} CallStaysOverRun(s: Editor, es: seq<Event>, id: nat)
    requires Inv(s) && id in s.pending && AllOffered(s, es) && Unanswered(es, id)
    ensures Inv(Run(s, es)) && id in Run(s, es).pending && Run(s, es).pending[id] == s.pending[id]
  {
    if es == [] {
    } else {
      hide Step;
      CallStaysOverRun(s, es[..|es| - 1], id);
      CallStays(Run(s, es[..|es| - 1]), es[|es| - 1], id);
      StepKeepsInv(Run(s, es[..|es| - 1]), es[|es| - 1]);
    }
  }

  // ----- edits made while a save is under way

  lemma SavePutsTheDraft(s: Editor)
    requires Inv(s) && CanSave(s)
    ensures var t := Step(s, SaveClicked(true));
            Inv(t) && s.nextCall in t.pending && t.pending[s.nextCall] == Save(CurrentSession(s), s.draft.value, s.revision)
  {
    SaveClickKeeps(s, true);
  }

  lemma SaveIsAnswered(s: Editor, id: nat, answer: Result<Envelope, Code>)
    requires Inv(s) && id in s.pending && s.pending[id].Save?
    ensures var t := Step(s, ConfigAnswered(id, answer));
            && (answer.Err? || !Live(s) ==> t.draft == s.draft)
            && (answer.Ok? && Live(s) ==> s.draft.Some? && t.draft == Some(answer.value.config))
  {
    assert Fits(s, id);
  }

  /** The form stays open while a save is under way. From the click to the answer, whatever happens in between:
      if the save fails, or the session has ended, what was typed is kept. If it succeeds, against a server that
      answers with the configuration it was sent, a setting keeps its value exactly when that value is the one
      that was sent: an edit made meanwhile survives only by undoing itself. */
  lemma EditDuringSaveIsKeptIff(s: Editor, es: seq<Event>, answer: Result<Envelope, Code>, setting: Setting)
    requires Inv(s) && CanSave(s)
    requires AllOffered(Step(s, SaveClicked(true)), es) && Unanswered(es, s.nextCall)
    requires answer.Ok? ==> answer.value.config == s.draft.value
    ensures var t := Run(Step(s, SaveClicked(true)), es);
            var u := Step(t, ConfigAnswered(s.nextCall, answer));
            if answer.Ok? && Live(t) then
              && t.draft.Some? && u.draft.Some?
              && (ValueOf(u.draft.value, setting) == ValueOf(t.draft.value, setting) <==>
                    ValueOf(t.draft.value, setting) == ValueOf(s.draft.value, setting))
            else u.draft == t.draft
  {
    hide Run, Step, Inv;
    SavePutsTheDraft(s);
    CallStaysOverRun(Step(s, SaveClicked(true)), es, s.nextCall);
    SaveIsAnswered(Run(Step(s, SaveClicked(true)), es), s.nextCall, answer);
  }

  // ----- edits made while a rebase is under way

  lemma ConflictStartsRebase(s: Editor, id: nat)
    requires Inv(s) && Live(s) && id in s.pending && s.pending[id].Save?
    ensures var t := Step(s, ConfigAnswered(id, Err(ConfigConflict)));
            && Inv(t) && s.draft.Some? && s.persisted.Some? && s.nextCall in t.pending
            && t.pending[s.nextCall] == Rebase(s.pending[id].session, s.draft.value, s.persisted.value)
  {
    assert Fits(s, id);
    SaveKeeps(s, id, Err(ConfigConflict));
  }

  lemma RebaseIsAnswered(s: Editor, id: nat, answer: Result<Envelope, Code>)
    requires Inv(s) && id in s.pending && s.pending[id].Rebase?
    ensures var t, call := Step(s, ConfigAnswered(id, answer)), s.pending[id];
            && (answer.Err? || !Live(s) ==> t.draft == s.draft)
            && (answer.Ok? && Live(s) ==>
                  s.draft.Some? && t.draft == Some(Rebased(call.local, call.base, answer.value.config)))
  {
    assert Fits(s, id);
  }

  /** A configuration that gives the setting another value. */
  function Changed(c: Config, setting: Setting): (r: Config)
    ensures ValueOf(r, setting) != ValueOf(c, setting)
  {
    match setting
    case Number(path) => WithNumber(c, path, c.numbers[path] + 1.0)
    case Enabled => c.(enabled := !c.enabled)
    case CapturePrivateDetails => c.(capturePrivateDetails := Some(!Captures(c)))
    case LifecycleEnabled => c.(lifecycleEnabled := !c.lifecycleEnabled)
  }

  /** The setting has the same value after the rebase `id` is answered with `latest`. */
  predicate KeptBy(s: Editor, id: nat, latest: Envelope, setting: Setting)
    requires s.draft.Some?
  {
    var t := Step(s, ConfigAnswered(id, Ok(latest)));
    t.draft.Some? && ValueOf(t.draft.value, setting) == ValueOf(s.draft.value, setting)
  }

  /** The same for a save that is refused as a conflict, from the refusal to the answer with the latest
      configuration. If that cannot be had, or the session has ended, what was typed is kept. Otherwise a setting
      that differed from its base at the refusal keeps its value exactly when that is still the value it had
      then, whatever the answer. Any other follows the answer, so that what was typed meanwhile is kept only by
      chance. Hence an edit is safe from every answer exactly under a condition that can be checked before the
      answer comes. */
  lemma EditDuringRebaseIsKeptIff(s: Editor, id: nat, es: seq<Event>, setting: Setting)
    requires Inv(s) && Live(s) && id in s.pending && s.pending[id].Save?
    requires AllOffered(Step(s, ConfigAnswered(id, Err(ConfigConflict))), es) && Unanswered(es, s.nextCall)
    ensures s.draft.Some? && s.persisted.Some?
    ensures var t := Run(Step(s, ConfigAnswered(id, Err(ConfigConflict))), es);
            var local, base := ValueOf(s.draft.value, setting), ValueOf(s.persisted.value, setting);
            && (forall answer: Result<Envelope, Code> :: answer.Err? || !Live(t) ==>
                  Step(t, ConfigAnswered(s.nextCall, answer)).draft == t.draft)
            && (Live(t) ==>
                  && t.draft.Some?
                  && (local != base ==>
                        forall latest :: KeptBy(t, s.nextCall, latest, setting) <==> ValueOf(t.draft.value, setting) == local)
                  && (local == base ==>
                        forall latest :: KeptBy(t, s.nextCall, latest, setting) <==>
                                         ValueOf(t.draft.value, setting) == ValueOf(latest.config, setting))
                  && ((forall latest :: KeptBy(t, s.nextCall, latest, setting)) <==>
                        local != base && ValueOf(t.draft.value, setting) == local))
  {
    hide Run, Step, Inv, ValueOf, Rebased;
    ConflictStartsRebase(s, id);
    var first := Step(s, ConfigAnswered(id, Err(ConfigConflict)));
    CallStaysOverRun(first, es, s.nextCall);
    var t := Run(first, es);
    var local, base := s.draft.value, s.persisted.value;
    forall answer: Result<Envelope, Code> | answer.Err? || !Live(t)
      ensures Step(t, ConfigAnswered(s.nextCall, answer)).draft == t.draft
    {
      RebaseIsAnswered(t, s.nextCall, answer);
    }
    if Live(t) {
      forall latest: Envelope
        ensures t.draft.Some?
        ensures KeptBy(t, s.nextCall, latest, setting) <==> ValueOf(t.draft.value, setting) == Merged(local, base, latest.config, setting)
      {
        RebaseIsAnswered(t, s.nextCall, Ok(latest));
      }
      RebaseIsAnswered(t, s.nextCall, Ok(Envelope(local, local, [])));
      var other := Envelope(Changed(t.draft.value, setting), local, []);
      assert local == base ==> !KeptBy(t, s.nextCall, other, setting);
    }
  }

  // ----- such edits do get lost

  lemma RunSnoc(s: Editor, es: seq<Event>, e: Event)
    ensures Run(s, es + [e]) == Step(Run(s, es), e)
  {
    hide Step;
    assert (es + [e])[..|es + [e]| - 1] == es;
  }

  /** Loaded and ready to save. */
  predicate Ready(s: Editor, draft: Config, persisted: Config) {
    && Live(s) && !s.busy && !s.closing && !s.conflicted
    && s.draft == Some(draft) && s.persisted == Some(persisted)
  }

  lemma LoadIsReady(s0: Editor, e: Envelope)
    requires s0 == Initial("t")
    ensures Ready(Run(s0, [ConfigAnswered(0, Ok(e))]), e.config, e.config)
  {
    RunSnoc(s0, [], ConfigAnswered(0, Ok(e)));
    assert [] + [ConfigAnswered(0, Ok(e))] == [ConfigAnswered(0, Ok(e))];
  }

  lemma TypingIsReady(s: Editor, draft: Config, persisted: Config, path: FieldPath, typed: real)
    requires Ready(s, draft, persisted)
    ensures Ready(Step(s, EditNumber(path, typed)), WithNumber(draft, path, typed), persisted)
  {
  }

  /** Saving, typing, and the save goes through: the typed value is gone. */
  lemma SaveLosesTyping(s: Editor, draft: Config, persisted: Config, path: FieldPath, typed: real, defaults: Config)
    requires Ready(s, draft, persisted)
    ensures var t := Step(Step(s, SaveClicked(true)), EditNumber(path, typed));
            && t.draft == Some(WithNumber(draft, path, typed))
            && Step(t, ConfigAnswered(s.nextCall, Ok(Envelope(draft, defaults, [])))).draft == Some(draft)
  {
  }

  /** From a fresh page: load, save, type, and the save goes through. */
  lemma EditDuringSaveCanBeLost(config: Config, path: FieldPath, typed: real)
    requires config.numbers[path] != typed
    ensures exists es, answer :: var before := Run(Initial("t"), es);
              && before.draft.Some? && before.draft.value.numbers[path] == typed
              && Step(before, answer).draft == Some(config)
  {
    var s0, envelope := Initial("t"), Envelope(config, config, []);
    LoadIsReady(s0, envelope);
    hide Step, Run;
    var loaded := [ConfigAnswered(0, Ok(envelope))];
    var s := Run(s0, loaded);
    RunSnoc(s0, loaded, SaveClicked(true));
    RunSnoc(s0, loaded + [SaveClicked(true)], EditNumber(path, typed));
    SaveLosesTyping(s, config, config, path, typed, config);
    assert Step(Run(s0, loaded + [SaveClicked(true)] + [EditNumber(path, typed)]),
                ConfigAnswered(s.nextCall, Ok(Envelope(config, config, [])))).draft == Some(config);
  }

  /** A save refused as a conflict, and the rebase that follows it. */
  function ConflictOn(s: Editor, latest: Envelope): seq<Event> {
    [SaveClicked(true)] + [ConfigAnswered(s.nextCall, Err(ConfigConflict))] + [ConfigAnswered(s.nextCall + 1, Ok(latest))]
  }

  lemma ConflictRebases(s: Editor, draft: Config, persisted: Config, latest: Envelope)
    requires Ready(s, draft, persisted)
    ensures var t := Step(Step(Step(s, SaveClicked(true)), ConfigAnswered(s.nextCall, Err(ConfigConflict))),
                          ConfigAnswered(s.nextCall + 1, Ok(latest)));
            Ready(t, Rebased(draft, persisted, latest.config), latest.config)
  {
  }

  lemma ConflictRoundIsReady(s0: Editor, es: seq<Event>, draft: Config, persisted: Config, latest: Envelope)
    requires Ready(Run(s0, es), draft, persisted)
    ensures Ready(Run(s0, es + ConflictOn(Run(s0, es), latest)), Rebased(draft, persisted, latest.config), latest.config)
  {
    hide Step, Run, Ready, Rebased;
    var s := Run(s0, es);
    var c := ConfigAnswered(s.nextCall, Err(ConfigConflict));
    var l := ConfigAnswered(s.nextCall + 1, Ok(latest));
    RunSnoc(s0, es, SaveClicked(true));
    RunSnoc(s0, es + [SaveClicked(true)], c);
    RunSnoc(s0, es + [SaveClicked(true)] + [c], l);
    assert es + ConflictOn(s, latest) == es + [SaveClicked(true)] + [c] + [l];
    ConflictRebases(s, draft, persisted, latest);
  }

  /** From a fresh page, an edit lost through two conflicts: the first version it is rebased on holds its value,
      so that it counts as no edit any more when the second version does not. */
  lemma EditCanBeLostInConflicts(config: Config, path: FieldPath, typed: real)
    requires config.numbers[path] != typed
    ensures exists es :: var t := Run(Initial("t"), [ConfigAnswered(0, Ok(Envelope(config, config, [])))] + es);
              && EditNumber(path, typed) in es && (forall e :: e in es && IsEdit(e) ==> e == EditNumber(path, typed))
              && t.draft == Some(config)
  {
    var s0, envelope := Initial("t"), Envelope(config, config, []);
    var theirs := WithNumber(config, path, typed);
    LoadIsReady(s0, envelope);
    var load, typing := ConfigAnswered(0, Ok(envelope)), EditNumber(path, typed);
    RunSnoc(s0, [load], typing);
    TypingIsReady(Run(s0, [load]), config, config, path, typed);
    hide Step, Run, Ready;
    RebasedOnEqual(config, path, typed);
    hide Rebased, WithNumber, ConflictOn;
    var edited := [load] + [typing];
    var first := ConflictOn(Run(s0, edited), Envelope(theirs, config, []));
    ConflictRoundIsReady(s0, edited, theirs, config, Envelope(theirs, config, []));
    var second := ConflictOn(Run(s0, edited + first), envelope);
    ConflictRoundIsReady(s0, edited + first, theirs, theirs, envelope);
    var es := [typing] + (first + second);
    assert edited + first + second == [load] + es;
    ReadyDraft(Run(s0, edited + first + second), config, config);
    ConflictsAreNoEdits(Run(s0, edited), Envelope(theirs, config, []));
    ConflictsAreNoEdits(Run(s0, edited + first), envelope);
  }

  lemma RebasedOnEqual(config: Config, path: FieldPath, typed: real)
    ensures var theirs := WithNumber(config, path, typed);
            Rebased(theirs, config, theirs) == theirs && Rebased(theirs, theirs, config) == config
  {
  }

  lemma ReadyDraft(s: Editor, draft: Config, persisted: Config)
    requires Ready(s, draft, persisted)
    ensures s.draft == Some(draft)
  {
  }

  lemma ConflictsAreNoEdits(s: Editor, latest: Envelope)
    ensures forall e :: e in ConflictOn(s, latest) ==> !IsEdit(e)
  {
  }

  // ----- the form is released

  /** An answer of the kind the call waits for. */
  predicate IsAnswerTo(call: Call, id: nat, e: Event) {
    if call.Save? || call.Rebase? then e.ConfigAnswered? && e.call == id else e.StatusAnswered? && e.call == id
  }

  lemma HolderHolds(s: Editor, id: nat)
    requires Inv(s) && Live(s) && id in s.pending && HoldsForm(s.pending[id])
    ensures s.busy && Holders(s.pending) == {id}
  {
    assert id in Holders(s.pending);
  }

  lemma HeldUntilAnswered(s: Editor, id: nat, es: seq<Event>)
    requires Inv(s) && id in s.pending && HoldsForm(s.pending[id]) && AllOffered(s, es) && Unanswered(es, id)
    ensures var t := Run(s, es);
            Inv(t) && id in t.pending && t.pending[id] == s.pending[id] && (Live(t) ==> t.busy && Holders(t.pending) == {id})
  {
    hide Inv, Run;
    CallStaysOverRun(s, es, id);
    if Live(Run(s, es)) { HolderHolds(Run(s, es), id); }
  }

  lemma AnswerReleases(s: Editor, id: nat, answer: Event)
    requires Inv(s) && Live(s) && id in s.pending && HoldsForm(s.pending[id]) && IsAnswerTo(s.pending[id], id, answer)
    ensures var t := Step(s, answer);
            !t.busy || (s.nextCall in t.pending && (t.pending[s.nextCall].Rebase? || t.pending[s.nextCall].MutationCheck?))
    ensures s.pending[id].Rebase? || s.pending[id].MutationCheck? ==> !Step(s, answer).busy
  {
    HolderHolds(s, id);
    hide Inv, ConfigStep, StatusStep;
    BusyIsReleased(s, id);
    var t := Step(s, answer);
    if t.busy { assert s.nextCall in Holders(t.pending); }
  }

  /** The form never stays locked, over whole runs. While the session lives, the call that holds the form holds it
      alone until it is answered. Its answer frees the form or hands it to one other call, which again holds it
      alone, and whose answer frees it. */
  lemma FormIsReleased(s: Editor, id: nat, es: seq<Event>, answer: Event, more: seq<Event>, last: Event)
    requires Inv(s) && id in s.pending && HoldsForm(s.pending[id]) && AllOffered(s, es) && Unanswered(es, id)
    requires IsAnswerTo(s.pending[id], id, answer)
    ensures var t := Run(s, es); Live(t) ==> t.busy && Holders(t.pending) == {id}
    ensures var t := Run(s, es);
            var u, next := Step(t, answer), t.nextCall;
            Live(t) && u.busy ==>
              && next in u.pending
              && (AllOffered(u, more) && Unanswered(more, next) ==>
                    var v := Run(u, more);
                    && (Live(v) ==> v.busy && Holders(v.pending) == {next})
                    && (Live(v) && IsAnswerTo(u.pending[next], next, last) ==> !Step(v, last).busy))
  {
    hide Inv, Run, Step;
    HeldUntilAnswered(s, id, es);
    var t := Run(s, es);
    var u, next := Step(t, answer), t.nextCall;
    if Live(t) && u.busy {
      AnswerReleases(t, id, answer);
      StepKeepsInv(t, answer);
      if AllOffered(u, more) && Unanswered(more, next) {
        HeldUntilAnswered(u, next, more);
        if Live(Run(u, more)) && IsAnswerTo(u.pending[next], next, last) { AnswerReleases(Run(u, more), next, last); }
      }
    }
  }
}
