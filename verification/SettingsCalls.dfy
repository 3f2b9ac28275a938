/** What every event makes the settings editor send, load and show. */
module SettingsCalls {
  import opened Common
  import opened SettingsModel
  import opened SettingsInvariants
  import T = SettingsTheorems

  // ----- the request an event sends

  /** The form is free and the session open: the page's buttons act. */
  predicate Free(s: Editor) { !s.busy && !s.closing && s.token != "" }

  predicate Current(s: Editor, session: Session) {
    s.token != "" && session == Session(s.sessionGeneration, s.token)
  }

  /** A status request of its own number. */
  function NextNumber(s: Editor): nat { s.integrationGeneration + 1 }

  /** What a click, a timer or a focus sends. */
  function SentByUser(s: Editor, e: Event): Option<Call> {
    var session := Session(s.sessionGeneration, s.token);
    match e
    case SaveClicked(valid) =>
      if Free(s) && valid && s.draft.Some? && !s.conflicted then Some(Save(session, s.draft.value, s.revision)) else None
    case ToggleClicked =>
      if Free(s) && s.integration.Some? && !s.integrationUnavailable
      then Some(Mutation(session, NextNumber(s), !s.integration.value.connected)) else None
    case RefreshClicked => if Free(s) then Some(ManualStatus(session, NextNumber(s))) else None
    case WindowFocused => if Free(s) && s.persisted.Some? then Some(QuietStatus(session, NextNumber(s))) else None
    case CloseClicked => if s.token != "" && !s.closing then Some(Close(session)) else None
    case HeartbeatDue(recentlyActive) =>
      if s.token != "" && !s.closing && recentlyActive then Some(Beat(session)) else None
    case _ => None
  }

  /** What the answer to `call` makes the editor send next. */
  function SentOnAnswer(s: Editor, call: Call, e: Event): Option<Call> {
    match call
    case BootConfig(session) =>
      if e.ConfigAnswered? && e.config.Ok? && Current(s, session) then Some(InitialStatus(session, NextNumber(s))) else None
    case Save(session, _, _) =>
      if e.ConfigAnswered? && e.config == Err(ConfigConflict) && Current(s, session) && s.draft.Some? && s.persisted.Some?
      then Some(Rebase(session, s.draft.value, s.persisted.value)) else None
    case InitialStatus(session, generation) =>
      if e.StatusAnswered? && e.status.Ok? && e.status.value.connected && e.status.value.collectorUnavailable
      then Some(InitialRetryDelay(session, generation)) else None
    case InitialRetryDelay(session, generation) =>
      if e.RetryDelayOver? && Current(s, session) && generation == s.integrationGeneration
      then Some(InitialRetry(session, generation)) else None
    case Mutation(session, generation, _) =>
      if e.StatusAnswered? && e.status.Err? && Current(s, session) && generation == s.integrationGeneration
      then Some(MutationCheck(session, generation)) else None
    case Beat(session) =>
      if e.PlainAnswered? && e.plain.Ok? && Current(s, session) && Free(s) && s.persisted.Some?
      then Some(QuietStatus(session, NextNumber(s))) else None
    case _ => None
  }

  /** The call that the event answers, if that call waits for an event of its kind. */
  function Answers(s: Editor, e: Event): Option<nat> {
    match e
    case ConfigAnswered(id, _) =>
      if id in s.pending && (s.pending[id].BootConfig? || s.pending[id].Save? || s.pending[id].Rebase?) then Some(id) else None
    case StatusAnswered(id, _) =>
      if id in s.pending && (s.pending[id].InitialStatus? || s.pending[id].InitialRetry? || s.pending[id].Mutation?
                             || s.pending[id].MutationCheck? || s.pending[id].ManualStatus? || s.pending[id].QuietStatus?)
      then Some(id) else None
    case PlainAnswered(id, _) => if id in s.pending && (s.pending[id].Close? || s.pending[id].Beat?) then Some(id) else None
    case RetryDelayOver(id) => if id in s.pending && s.pending[id].InitialRetryDelay? then Some(id) else None
    case _ => None
  }

  function Sent(s: Editor, e: Event): Option<Call> {
    if Answers(s, e).Some? then SentOnAnswer(s, s.pending[Answers(s, e).value], e) else SentByUser(s, e)
  }

  /** From `s` to `t` the answered call is gone and the sent one is waiting, under the next number. */
  predicate Exchanges(s: Editor, t: Editor, over: Option<nat>, sent: Option<Call>) {
    var rest := if over.Some? then s.pending - {over.value} else s.pending;
    if sent.Some? then t.pending == rest[s.nextCall := sent.value] && t.nextCall == s.nextCall + 1
    else t.pending == rest && t.nextCall == s.nextCall
  }

  lemma UserStepSends(s: Editor, e: Event)
    requires !T.IsAnswer(e) && !e.RetryDelayOver?
    ensures Exchanges(s, Step(s, e), None, SentByUser(s, e))
  {
    hide ConfigStep, StatusStep, PlainStep, DelayStep;
  }

  lemma ConfigStepSends(s: Editor, id: nat, answer: Result<Envelope, Code>)
    ensures var e := ConfigAnswered(id, answer); Exchanges(s, ConfigStep(s, id, answer), Answers(s, e), Sent(s, e))
  {
    if id in s.pending {
      match s.pending[id]
      case BootConfig(_) => BootSends(s, id, answer);
      case Save(_, _, _) => SaveSends(s, id, answer);
      case Rebase(_, _, _) => RebaseSends(s, id, answer);
      case _ =>
    }
  }

  lemma BootSends(s: Editor, id: nat, answer: Result<Envelope, Code>)
    requires id in s.pending && s.pending[id].BootConfig?
    ensures Exchanges(s, BootAnswered(Resumed(s, id), s.pending[id], answer), Some(id), SentOnAnswer(s, s.pending[id], ConfigAnswered(id, answer)))
  {
  }

  lemma SaveSends(s: Editor, id: nat, answer: Result<Envelope, Code>)
    requires id in s.pending && s.pending[id].Save?
    ensures Exchanges(s, SaveAnswered(Resumed(s, id), s.pending[id], answer), Some(id), SentOnAnswer(s, s.pending[id], ConfigAnswered(id, answer)))
  {
  }

  lemma RebaseSends(s: Editor, id: nat, answer: Result<Envelope, Code>)
    requires id in s.pending && s.pending[id].Rebase?
    ensures Exchanges(s, RebaseAnswered(Resumed(s, id), s.pending[id], answer), Some(id), None)
  {
    hide Rebased;
  }

  lemma StatusStepSends(s: Editor, id: nat, answer: Result<Status, Code>)
    ensures var e := StatusAnswered(id, answer); Exchanges(s, StatusStep(s, id, answer), Answers(s, e), Sent(s, e))
  {
  }

  lemma PlainStepSends(s: Editor, id: nat, answer: Result<(), Code>)
    ensures var e := PlainAnswered(id, answer); Exchanges(s, PlainStep(s, id, answer), Answers(s, e), Sent(s, e))
  {
  }

  lemma DelayStepSends(s: Editor, id: nat)
    ensures var e := RetryDelayOver(id); Exchanges(s, DelayStep(s, id), Answers(s, e), Sent(s, e))
  {
  }

  /** Every step takes off exactly the call it answers and sends at most one, with the contents listed above. */
  lemma StepSends(s: Editor, e: Event)
    ensures Exchanges(s, Step(s, e), Answers(s, e), Sent(s, e))
  {
    hide ConfigStep, StatusStep, PlainStep, DelayStep, Exchanges, SentOnAnswer, SentByUser;
    match e
    case ConfigAnswered(id, answer) => ConfigStepSends(s, id, answer); hide Answers;
    case StatusAnswered(id, answer) => StatusStepSends(s, id, answer); hide Answers;
    case PlainAnswered(id, answer) => PlainStepSends(s, id, answer); hide Answers;
    case RetryDelayOver(id) => DelayStepSends(s, id); hide Answers;
    case _ => hide Step; UserStepSends(s, e);
  }

  // ----- connecting and disconnecting

  /** The page shows a status that a click can change. */
  predicate MayToggle(s: Editor) { Free(s) && s.integration.Some? && !s.integrationUnavailable }

  predicate NewChange(s: Editor, t: Editor, id: nat) { id in t.pending && id !in s.pending && t.pending[id].Mutation? }

  lemma NextIsFree(s: Editor)
    requires CallsFit(s)
    ensures s.nextCall !in s.pending
  {
    assert s.nextCall in s.pending ==> Fits(s, s.nextCall);
  }

  /** A change is sent exactly on a click that the page serves, and it asks for the opposite of what is shown. */
  lemma ToggleAsksForOpposite(s: Editor, e: Event)
    requires Inv(s)
    ensures (exists id :: NewChange(s, Step(s, e), id)) <==> e.ToggleClicked? && MayToggle(s)
    ensures forall id :: NewChange(s, Step(s, e), id) ==>
              Step(s, e).pending[id] == Mutation(CurrentSession(s), s.integrationGeneration + 1, !s.integration.value.connected)
  {
    StepSends(s, e);
    NextIsFree(s);
    hide Step;
    if e.ToggleClicked? && MayToggle(s) { assert NewChange(s, Step(s, e), s.nextCall); }
  }

  /** While a change is on its way it is the opposite of what the page shows, and the latest request. */
  ghost predicate ChangesAreOpposite(s: Editor) {
    Live(s) ==> forall id :: id in s.pending && s.pending[id].Mutation? ==> OppositeAndLatest(s, id)
  }

  ghost predicate OppositeAndLatest(s: Editor, id: nat)
    requires id in s.pending && s.pending[id].Mutation?
  {
    && s.integration.Some? && !s.integrationUnavailable && s.pending[id].connect != s.integration.value.connected
    && forall other :: other in s.pending && other != id && IsIntegrationCall(s.pending[other]) ==>
         s.pending[other].generation < s.integrationGeneration
  }

  lemma NewChangeIsOpposite(s: Editor, e: Event, id: nat)
    requires Inv(s) && NewChange(s, Step(s, e), id)
    ensures OppositeAndLatest(Step(s, e), id)
  {
    ToggleAsksForOpposite(s, e);
    StepSends(s, e);
    var t := Step(s, e);
    assert t.integration == s.integration && t.integrationUnavailable == s.integrationUnavailable
           && t.integrationGeneration == s.integrationGeneration + 1;
    hide Step;
    forall other | other in t.pending && other != id && IsIntegrationCall(t.pending[other])
      ensures t.pending[other].generation < t.integrationGeneration
    {
      assert Fits(s, other);
    }
  }

  lemma OldChangeStaysOpposite(s: Editor, e: Event, id: nat)
    requires Inv(s) && ChangesAreOpposite(s) && Live(Step(s, e)) && id in s.pending
    requires id in Step(s, e).pending && Step(s, e).pending[id].Mutation?
    ensures OppositeAndLatest(Step(s, e), id)
  {
    StepSends(s, e);
    NoStepRevives(s, e);
    T.GenerationGrows(s, e);
    assert Fits(s, id);
    HoldsAlone(s, id);
    var t := Step(s, e);
    NextIsFree(s);
    assert s.pending[id] == t.pending[id] && (Answers(s, e).Some? ==> Answers(s, e).value != id);
    if t.integration != s.integration || t.integrationUnavailable != s.integrationUnavailable {
      T.OnlyAnswersChangeIntegration(s, e);
      assert false;
    }
    hide Step;
    SentKeepsLatest(s, e, id);
    forall other | other in t.pending && other != id && IsIntegrationCall(t.pending[other])
      ensures t.pending[other].generation < t.integrationGeneration
    {
      if other in s.pending && s.pending[other] == t.pending[other] {
        assert s.pending[other].generation < s.integrationGeneration;
      }
    }
  }

  lemma NoStepRevives(s: Editor, e: Event)
    ensures Live(Step(s, e)) ==> Live(s)
  {
  }

  lemma HoldsAlone(s: Editor, id: nat)
    requires Inv(s) && Live(s) && id in s.pending && s.pending[id].Mutation?
    ensures s.busy && s.persisted.Some?
  {
    assert id in Holders(s.pending) && Fits(s, id);
  }

  /** With the form held, nothing sent has the latest number. */
  lemma SentKeepsLatest(s: Editor, e: Event, id: nat)
    requires Inv(s) && Live(s) && id in s.pending && s.pending[id].Mutation? && OppositeAndLatest(s, id)
    requires Answers(s, e).Some? ==> Answers(s, e).value != id
    ensures Sent(s, e).Some? && IsIntegrationCall(Sent(s, e).value) ==> Sent(s, e).value.generation < s.integrationGeneration
  {
    HoldsAlone(s, id);
    if Answers(s, e).Some? { assert Fits(s, Answers(s, e).value); }
  }

  lemma StepKeepsOpposite(s: Editor, e: Event)
    requires Inv(s) && ChangesAreOpposite(s)
    ensures ChangesAreOpposite(Step(s, e))
  {
    var t := Step(s, e);
    hide Step, Inv, OppositeAndLatest;
    if Live(t) {
      forall id | id in t.pending && t.pending[id].Mutation? ensures OppositeAndLatest(t, id) {
        if id in s.pending { OldChangeStaysOpposite(s, e, id); } else { NewChangeIsOpposite(s, e, id); }
      }
    }
  }

  /** In every state of every run the change on its way would turn over what the page shows. */
  lemma {:induction false} EveryRunTogglesTheOpposite(token: string, es: seq<Event>)
    requires AllOffered(Initial(token), es)
    ensures ChangesAreOpposite(Run(Initial(token), es))
  {
    hide Step, Inv;
    if es == [] {
    } else {
      var front := es[..|es| - 1];
      EveryRunTogglesTheOpposite(token, front);
      InitialHolds(token);
      EveryRunKeepsInv(Initial(token), front);
      StepKeepsOpposite(Run(Initial(token), front), es[|es| - 1]);
    }
  }

  // ----- what an answer shows

  /** The current answers by what they do to the integration shown. */
  lemma AnswerIsShown(s: Editor, e: Event)
    requires T.ActsOn(s, e).Some?
    ensures var t, call := Step(s, e), s.pending[e.call];
            match e.status
            case Ok(status) =>
              if call.InitialStatus? && status.connected && status.collectorUnavailable
              then t.integration == s.integration && t.integrationUnavailable == s.integrationUnavailable
              else t.integration == Some(status) && !t.integrationUnavailable
            case Err(code) =>
              if call.Mutation? then t.integration.None? && t.integrationUnavailable && Live(t)
              else if code == InvalidSession then
                !Live(t) && t.integration == s.integration && t.integrationUnavailable == s.integrationUnavailable
              else if call.MutationCheck? then t.integration == s.integration && t.integrationUnavailable == s.integrationUnavailable
              else t.integration.None? && t.integrationUnavailable && Live(t)
  {
  }

  // ----- what an event does to the configuration

  /** The configuration that an answer loads. */
  function Loads(s: Editor, e: Event): Option<Envelope> {
    if e.ConfigAnswered? && e.config.Ok? && Answers(s, e).Some? && Current(s, s.pending[e.call].session)
    then Some(e.config.value) else None
  }

  /** The session is over because it was closed. */
  predicate EndsByClosing(s: Editor, e: Event) {
    && e.PlainAnswered? && Answers(s, e).Some? && s.pending[e.call].Close? && Current(s, s.pending[e.call].session)
    && (e.plain.Ok? || e.plain.error == InvalidSession)
  }

  /** An edit gives one setting one value. */
  function Edits(e: Event): Option<(Setting, Value)> {
    match e
    case EditNumber(path, value) => Some((Number(path), Amount(value)))
    case EditEnabled(on) => Some((Enabled, Flag(on)))
    case EditCapture(on) => Some((CapturePrivateDetails, Flag(on)))
    case EditLifecycle(on) => Some((LifecycleEnabled, Flag(on)))
    case _ => None
  }

  /** What an editor has loaded. */
  predicate SameLoaded(s: Editor, t: Editor) {
    t.persisted == s.persisted && t.defaults == s.defaults && t.revision == s.revision
  }

  predicate HasLoaded(t: Editor, envelope: Envelope) {
    t.persisted == Some(envelope.config) && t.defaults == Some(envelope.defaults) && t.revision == envelope.revision
  }

  /** What the answer to a call about the configuration leaves behind. */
  predicate LoadedBy(s: Editor, t: Editor, call: Call, answer: Result<Envelope, Code>) {
    if answer.Ok? && (call.BootConfig? || call.Save? || call.Rebase?) && Current(s, call.session) then
      && HasLoaded(t, answer.value)
      && t.draft == Some(if call.Rebase? then Rebased(call.local, call.base, answer.value.config) else answer.value.config)
    else SameLoaded(s, t) && t.draft == s.draft
  }

  lemma BootLoads(s: Editor, r: Editor, call: Call, answer: Result<Envelope, Code>)
    requires r == s.(pending := r.pending) && call.BootConfig?
    ensures LoadedBy(s, BootAnswered(r, call, answer), call, answer)
  {
  }

  lemma SaveLoads(s: Editor, r: Editor, call: Call, answer: Result<Envelope, Code>)
    requires r == s.(pending := r.pending) && call.Save?
    ensures LoadedBy(s, SaveAnswered(r, call, answer), call, answer)
  {
  }

  lemma RebaseLoads(s: Editor, r: Editor, call: Call, answer: Result<Envelope, Code>)
    requires r == s.(pending := r.pending) && call.Rebase?
    ensures LoadedBy(s, RebaseAnswered(r, call, answer), call, answer)
  {
    hide Rebased;
  }

  lemma ConfigLoads(s: Editor, id: nat, answer: Result<Envelope, Code>)
    ensures if id in s.pending then LoadedBy(s, ConfigStep(s, id, answer), s.pending[id], answer)
            else ConfigStep(s, id, answer) == s
  {
    hide BootAnswered, SaveAnswered, RebaseAnswered, Rebased;
    if id in s.pending {
      match s.pending[id]
      case BootConfig(_) => BootLoads(s, Resumed(s, id), s.pending[id], answer);
      case Save(_, _, _) => SaveLoads(s, Resumed(s, id), s.pending[id], answer);
      case Rebase(_, _, _) => RebaseLoads(s, Resumed(s, id), s.pending[id], answer);
      case _ =>
    }
  }

  lemma StatusLoadsNothing(s: Editor, id: nat, answer: Result<Status, Code>)
    ensures SameLoaded(s, StatusStep(s, id, answer)) && StatusStep(s, id, answer).draft == s.draft
  {
  }

  lemma PlainLoadsNothing(s: Editor, id: nat, answer: Result<(), Code>)
    ensures var t, e := PlainStep(s, id, answer), PlainAnswered(id, answer);
            SameLoaded(s, t) && t.draft == if EndsByClosing(s, e) && s.persisted.Some? then s.persisted else s.draft
  {
    hide StartQuietStatus;
    if id in s.pending && s.pending[id].Beat? { QuietLoadsNothing(Resumed(s, id)); }
  }

  lemma QuietLoadsNothing(s: Editor)
    ensures SameLoaded(s, StartQuietStatus(s)) && StartQuietStatus(s).draft == s.draft
  {
  }

  lemma UserLoadsNothing(s: Editor, e: Event)
    requires !T.IsAnswer(e)
    ensures SameLoaded(s, Step(s, e)) && (!IsEdit(e) || s.closing ==> Step(s, e).draft == s.draft)
  {
    hide ConfigStep, StatusStep, PlainStep;
  }

  /** What is persisted, its revision and the defaults change only when an answer loads a configuration, and are then
      what it holds. */
  lemma LoadsAreExact(s: Editor, e: Event)
    ensures var t := Step(s, e); if Loads(s, e).Some? then HasLoaded(t, Loads(s, e).value) else SameLoaded(s, t)
  {
    hide ConfigStep, StatusStep, PlainStep;
    match e
    case ConfigAnswered(id, answer) => ConfigLoads(s, id, answer);
    case StatusAnswered(id, answer) => StatusLoadsNothing(s, id, answer);
    case PlainAnswered(id, answer) => PlainLoadsNothing(s, id, answer);
    case _ => hide Step; UserLoadsNothing(s, e);
  }

  lemma EditsAreExact(s: Editor, e: Event)
    requires s.draft.Some? && !s.closing && Edits(e).Some?
    ensures var t, d := Step(s, e), s.draft.value;
            && t.draft.Some?
            && ValueOf(t.draft.value, Edits(e).value.0) == Edits(e).value.1
            && (forall setting :: setting != Edits(e).value.0 ==> ValueOf(t.draft.value, setting) == ValueOf(d, setting))
            && t.draft.value.storageBudget == d.storageBudget
  {
  }

  lemma ResetIsExact(s: Editor)
    requires s.draft.Some? && s.defaults.Some? && !s.closing
    ensures var t, d := Step(s, ResetClicked), s.draft.value;
            && t.draft.Some?
            && (forall setting :: ValueOf(t.draft.value, setting) == ValueOf(s.defaults.value, setting))
            && t.draft.value.storageBudget == d.storageBudget
  {
  }

  /** The draft after any event: an edit changes one setting and nothing else, "discard" and the end of a closed
      session go back to what is persisted, "reset" takes the defaults but for the storage budget, a load replaces
      it, a rebase merges it, and nothing else touches it. */
  lemma DraftIsExact(s: Editor, e: Event)
    requires Inv(s) && s.draft.Some?
    ensures var t, d := Step(s, e), s.draft.value;
            && t.draft.Some?
            && (Edits(e).Some? && !s.closing ==>
                  && ValueOf(t.draft.value, Edits(e).value.0) == Edits(e).value.1
                  && (forall setting :: setting != Edits(e).value.0 ==> ValueOf(t.draft.value, setting) == ValueOf(d, setting))
                  && t.draft.value.storageBudget == d.storageBudget)
            && (e.DiscardClicked? && !s.closing ==> t.draft == s.persisted)
            && (e.ResetClicked? && !s.closing ==>
                  && (forall setting :: ValueOf(t.draft.value, setting) == ValueOf(s.defaults.value, setting))
                  && t.draft.value.storageBudget == d.storageBudget)
            && (EndsByClosing(s, e) ==> t.draft == s.persisted)
            && (Loads(s, e).Some? ==>
                  if s.pending[e.call].Rebase? then
                    forall setting :: ValueOf(t.draft.value, setting) ==
                                      Merged(s.pending[e.call].local, s.pending[e.call].base, Loads(s, e).value.config, setting)
                  else t.draft == Some(Loads(s, e).value.config))
            && (Loads(s, e).None? && !EndsByClosing(s, e) && (!IsEdit(e) || s.closing) ==> t.draft == s.draft)
  {
    hide ConfigStep, StatusStep, PlainStep, Rebased, ValueOf, CallsFit, Raised;
    match e
    case ConfigAnswered(id, answer) => ConfigLoads(s, id, answer);
    case StatusAnswered(id, answer) => StatusLoadsNothing(s, id, answer);
    case PlainAnswered(id, answer) => PlainLoadsNothing(s, id, answer);
    case DiscardClicked =>
    case ResetClicked => if !s.closing { ResetIsExact(s); }
    case _ =>
      hide Step;
      UserLoadsNothing(s, e);
      if Edits(e).Some? && !s.closing { EditsAreExact(s, e); }
  }

  /** The session ends exactly on the answers that say so, each given to a current call. */
  predicate EndsSessionBy(s: Editor, e: Event) {
    Answers(s, e).Some? &&
    var call := s.pending[Answers(s, e).value];
    Current(s, call.session) &&
    match e
    case ConfigAnswered(_, answer) => answer.Err? && (answer.error == InvalidSession || answer.error == NetworkFailure)
    case StatusAnswered(_, answer) =>
      answer == Err(InvalidSession) && !call.Mutation? && call.generation == s.integrationGeneration
    case PlainAnswered(_, answer) => if call.Close? then answer.Ok? || answer.error == InvalidSession else answer.Err?
    case _ => false
  }

  /** The session goes on as it was, or is over for all that was asked in it. */
  predicate SessionGoesOn(s: Editor, t: Editor, ends: bool) {
    if ends then
      !Live(t) && t.sessionGeneration > s.sessionGeneration && t.integrationGeneration > s.integrationGeneration
    else Live(t) && CurrentSession(t) == CurrentSession(s)
  }

  lemma SaveEndsSession(s: Editor, id: nat, answer: Result<Envelope, Code>)
    requires Live(s) && id in s.pending && s.pending[id].Save?
    ensures SessionGoesOn(s, ConfigStep(s, id, answer), EndsSessionBy(s, ConfigAnswered(id, answer)))
  {
    hide BootAnswered, RebaseAnswered;
  }

  lemma RebaseEndsSession(s: Editor, id: nat, answer: Result<Envelope, Code>)
    requires Live(s) && id in s.pending && s.pending[id].Rebase?
    ensures SessionGoesOn(s, ConfigStep(s, id, answer), EndsSessionBy(s, ConfigAnswered(id, answer)))
  {
    hide BootAnswered, SaveAnswered, Rebased;
  }

  lemma BootEndsSession(s: Editor, id: nat, answer: Result<Envelope, Code>)
    requires Live(s) && (id in s.pending ==> !s.pending[id].Save? && !s.pending[id].Rebase?)
    ensures SessionGoesOn(s, ConfigStep(s, id, answer), EndsSessionBy(s, ConfigAnswered(id, answer)))
  {
    hide SaveAnswered, RebaseAnswered;
  }

  lemma ConfigEndsSession(s: Editor, id: nat, answer: Result<Envelope, Code>)
    requires Live(s)
    ensures SessionGoesOn(s, ConfigStep(s, id, answer), EndsSessionBy(s, ConfigAnswered(id, answer)))
  {
    hide ConfigStep;
    if id in s.pending && s.pending[id].Save? {
      SaveEndsSession(s, id, answer);
    } else if id in s.pending && s.pending[id].Rebase? {
      RebaseEndsSession(s, id, answer);
    } else {
      BootEndsSession(s, id, answer);
    }
  }

  lemma StatusEndsSession(s: Editor, id: nat, answer: Result<Status, Code>)
    requires Live(s)
    ensures SessionGoesOn(s, StatusStep(s, id, answer), EndsSessionBy(s, StatusAnswered(id, answer)))
  {
  }

  lemma PlainEndsSession(s: Editor, id: nat, answer: Result<(), Code>)
    requires Live(s)
    ensures SessionGoesOn(s, PlainStep(s, id, answer), EndsSessionBy(s, PlainAnswered(id, answer)))
  {
  }

  lemma UserEndsNoSession(s: Editor, e: Event)
    requires Live(s) && !T.IsAnswer(e)
    ensures SessionGoesOn(s, Step(s, e), false)
  {
    hide ConfigStep, StatusStep, PlainStep;
  }

  lemma SessionEndsIff(s: Editor, e: Event)
    requires Live(s)
    ensures SessionGoesOn(s, Step(s, e), EndsSessionBy(s, e))
  {
    hide ConfigStep, StatusStep, PlainStep, SessionGoesOn;
    match e
    case ConfigAnswered(id, answer) => hide EndsSessionBy; ConfigEndsSession(s, id, answer);
    case StatusAnswered(id, answer) => hide EndsSessionBy; StatusEndsSession(s, id, answer);
    case PlainAnswered(id, answer) => hide EndsSessionBy; PlainEndsSession(s, id, answer);
    case _ => hide Step; UserEndsNoSession(s, e);
  }
}
