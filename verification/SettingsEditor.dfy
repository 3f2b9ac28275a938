/** The settings page's module-level variables as one object (ui/settings/main.ts). Every method is one
    synchronous stretch of an asynchronous function and is proved to take exactly the step of the state machine
    that the theorems are about. */
module SettingsEditor {
  import opened Common
  import opened M = SettingsModel

  const ALL_PATHS: seq<FieldPath> :=
    [FileReconcileIntervalMs, FlushIntervalMs, MaxBatchRecords, MaxBatchBytes, ActiveHeartbeatIntervalMs,
     IdleHeartbeatIntervalMs, LocalStorageBudgetBytes, MaxRecordAgeDays, MaxArchiveRecords, MaxArchiveBytes,
     HotDays, WarmDays, DeleteAfterDays, PrivateRawDays, MaintenanceIntervalSeconds, MaxTracesPerPass]

  lemma EveryPathIsListed(path: FieldPath)
    ensures path in ALL_PATHS
  {
    assert ALL_PATHS[0].FileReconcileIntervalMs? && ALL_PATHS[1].FlushIntervalMs? && ALL_PATHS[2].MaxBatchRecords?
           && ALL_PATHS[3].MaxBatchBytes? && ALL_PATHS[4].ActiveHeartbeatIntervalMs?
           && ALL_PATHS[5].IdleHeartbeatIntervalMs? && ALL_PATHS[6].LocalStorageBudgetBytes?
           && ALL_PATHS[7].MaxRecordAgeDays? && ALL_PATHS[8].MaxArchiveRecords? && ALL_PATHS[9].MaxArchiveBytes?
           && ALL_PATHS[10].HotDays? && ALL_PATHS[11].WarmDays? && ALL_PATHS[12].DeleteAfterDays?
           && ALL_PATHS[13].PrivateRawDays? && ALL_PATHS[14].MaintenanceIntervalSeconds?
           && ALL_PATHS[15].MaxTracesPerPass?;
  }

  /** The fields that differ. */
  method ChangedPaths(left: Config, right: Config) returns (changed: seq<FieldPath>)
    ensures forall path :: path in changed <==> left.numbers[path] != right.numbers[path]
  {
    changed := [];
    for i := 0 to |ALL_PATHS|
      invariant forall path :: path in changed <==> path in ALL_PATHS[..i] && left.numbers[path] != right.numbers[path]
    {
      if left.numbers[ALL_PATHS[i]] != right.numbers[ALL_PATHS[i]] { changed := changed + [ALL_PATHS[i]]; }
    }
    forall path ensures path in ALL_PATHS[..|ALL_PATHS|] { EveryPathIsListed(path); }
  }

  /** Re-applies the edited fields on `latest`, one by one. */
  method ReapplyFields(local: Numbers, base: Numbers, latest: Numbers, changed: seq<FieldPath>)
    returns (numbers: Numbers)
    requires forall path :: path in changed <==> local[path] != base[path]
    ensures numbers == MergedNumbers(local, base, latest)
  {
    numbers := latest;
    for i := 0 to |changed|
      invariant forall path: FieldPath ::
        numbers[path] == if path in changed[..i] then local[path] else latest[path]
    {
      numbers := numbers[changed[i] := local[changed[i]]];
    }
    assert changed[..|changed|] == changed;
  }

  method ReapplyEdits(local: Config, base: Config, latest: Config, changed: seq<FieldPath>) returns (draft: Config)
    requires forall path :: path in changed <==> local.numbers[path] != base.numbers[path]
    ensures draft == Rebased(local, base, latest)
  {
    hide MergedNumbers;
    var numbers := ReapplyFields(local.numbers, base.numbers, latest.numbers, changed);
    draft := latest.(numbers := numbers);
    if local.enabled != base.enabled { draft := draft.(enabled := local.enabled); }
    if Captures(local) != Captures(base) { draft := draft.(capturePrivateDetails := Some(Captures(local))); }
    if local.lifecycleEnabled != base.lifecycleEnabled {
      draft := draft.(lifecycleEnabled := local.lifecycleEnabled);
    }
  }

  class SettingsEditor {
    var draft: Option<Config>
    var persisted: Option<Config>
    var defaults: Option<Config>
    var revision: Revision
    var integration: Option<Status>
    var integrationUnavailable: bool
    var integrationRequestGeneration: nat
    var sessionGeneration: nat
    var token: string
    var busy: bool
    var closeInFlight: bool
    var conflicted: bool
    var pending: map<nat, Call>
    var nextCall: nat

    ghost function State(): Editor
      reads this
    {
      Editor(draft, persisted, defaults, revision, integration, integrationUnavailable, integrationRequestGeneration,
             sessionGeneration, token, busy, closeInFlight, conflicted, pending, nextCall)
    }

    constructor (token: string)
      ensures State() == Initial(token)
    {
      draft, persisted, defaults, revision := None, None, None, "";
      integration, integrationUnavailable, integrationRequestGeneration := None, false, 0;
      sessionGeneration, this.token := 0, token;
      busy, closeInFlight, conflicted := false, false, false;
      pending, nextCall := map[], 0;
      new;
      if token != "" { Await(BootConfig(Session(0, token))); }
    }

    method Await(call: Call)
      modifies this
      ensures State() == M.Await(old(State()), call)
    {
      pending := pending[nextCall := call];
      nextCall := nextCall + 1;
    }

    method Resume(id: nat) returns (call: Call)
      requires id in pending
      modifies this
      ensures State() == Resumed(old(State()), id) && call == old(pending[id])
    {
      call := pending[id];
      pending := pending - {id};
    }

    method IsCurrent(session: Session) returns (current: bool)
      ensures current == SessionIsCurrent(State(), session)
    {
      current := token != "" && token == session.token && sessionGeneration == session.generation;
    }

    method ApplyEnvelope(envelope: Envelope)
      modifies this
      ensures State() == M.ApplyEnvelope(old(State()), envelope)
    {
      persisted := Some(envelope.config);
      draft := Some(envelope.config);
      defaults := Some(envelope.defaults);
      revision := envelope.revision;
      conflicted := false;
    }

    method ExpireSession()
      modifies this
      ensures State() == M.ExpireSession(old(State()))
    {
      integrationRequestGeneration := integrationRequestGeneration + 1;
      sessionGeneration := sessionGeneration + 1;
      token := "";
    }

    // ----- editing

    method HandleInput(path: FieldPath, value: real)
      modifies this
      ensures State() == Step(old(State()), EditNumber(path, value))
    {
      if closeInFlight || draft.None? { return; }
      draft := Some(draft.value.(numbers := draft.value.numbers[path := value]));
    }

    method HandleEnabled(checked: bool)
      modifies this
      ensures State() == Step(old(State()), EditEnabled(checked))
    {
      if closeInFlight || draft.None? { return; }
      draft := Some(draft.value.(enabled := checked));
    }

    method HandlePrivateDetails(checked: bool)
      modifies this
      ensures State() == Step(old(State()), EditCapture(checked))
    {
      if closeInFlight || draft.None? { return; }
      draft := Some(draft.value.(capturePrivateDetails := Some(checked)));
    }

    method HandleLifecycleEnabled(checked: bool)
      modifies this
      ensures State() == Step(old(State()), EditLifecycle(checked))
    {
      if closeInFlight || draft.None? { return; }
      draft := Some(draft.value.(lifecycleEnabled := checked));
    }

    method DiscardChanges()
      modifies this
      ensures State() == Step(old(State()), DiscardClicked)
    {
      if closeInFlight || persisted.None? { return; }
      draft := persisted;
      conflicted := false;
    }

    method ResetDefaults()
      modifies this
      ensures State() == Step(old(State()), ResetClicked)
    {
      if closeInFlight || defaults.None? || draft.None? { return; }
      draft := Some(defaults.value.(storageBudget := draft.value.storageBudget));
    }

    // ----- saving

    method SaveDraft(valid: bool)
      modifies this
      ensures State() == Step(old(State()), SaveClicked(valid))
    {
      if draft.None? || busy || closeInFlight || token == "" || conflicted { return; }
      if !valid { return; }
      var session := Session(sessionGeneration, token);
      busy := true;
      Await(Save(session, draft.value, revision));
    }

    method SaveSettles(id: nat, answer: Result<Envelope, Code>)
      requires id in pending && pending[id].Save?
      modifies this
      ensures State() == Step(old(State()), ConfigAnswered(id, answer))
    {
      hide PlainStep, StatusStep, DelayStep, Rebased;
      var call := Resume(id);
      var current := IsCurrent(call.session);
      if current {
        match answer {
          case Ok(envelope) =>
            ApplyEnvelope(envelope);
          case Err(code) =>
            if code == ConfigConflict {
              if draft.Some? && persisted.Some? {
                Await(Rebase(call.session, draft.value, persisted.value));
                return;
              }
            } else if code == InvalidSession || code == NetworkFailure {
              ExpireSession();
            }
        }
      }
      busy := false;
    }

    method RebaseSettles(id: nat, answer: Result<Envelope, Code>)
      requires id in pending && pending[id].Rebase?
      modifies this
      ensures State() == Step(old(State()), ConfigAnswered(id, answer))
    {
      hide PlainStep, StatusStep, DelayStep, Rebased;
      var call := Resume(id);
      var changed := ChangedPaths(call.local, call.base);
      var current := IsCurrent(call.session);
      if current {
        match answer {
          case Ok(latest) =>
            ApplyEnvelope(latest);
            var rebased := ReapplyEdits(call.local, call.base, draft.value, changed);
            draft := Some(rebased);
            conflicted := false;
          case Err(code) =>
            if code == InvalidSession || code == NetworkFailure { ExpireSession(); }
        }
      }
      busy := false;
    }

    // ----- loading

    method BootstrapConfig(id: nat, answer: Result<Envelope, Code>)
      requires id in pending && pending[id].BootConfig?
      modifies this
      ensures State() == Step(old(State()), ConfigAnswered(id, answer))
    {
      hide PlainStep, StatusStep, DelayStep, Rebased;
      var call := Resume(id);
      var current := IsCurrent(call.session);
      if !current { return; }
      match answer {
        case Ok(envelope) =>
          ApplyEnvelope(envelope);
          integrationRequestGeneration := integrationRequestGeneration + 1;
          Await(InitialStatus(call.session, integrationRequestGeneration));
        case Err(code) =>
          if code == InvalidSession || code == NetworkFailure { ExpireSession(); }
      }
    }

    /** The two answers that `loadInitialIntegrationStatus` waits for, and what `bootstrap` makes of a failure. */
    method InitialStatusSettles(id: nat, answer: Result<Status, Code>)
      requires id in pending && (pending[id].InitialStatus? || pending[id].InitialRetry?)
      modifies this
      ensures State() == Step(old(State()), StatusAnswered(id, answer))
    {
      var call := Resume(id);
      if call.InitialStatus? && answer.Ok? && answer.value.connected && answer.value.collectorUnavailable {
        Await(InitialRetryDelay(call.session, call.generation));
        return;
      }
      var current := IsCurrent(call.session);
      if call.generation != integrationRequestGeneration || !current { return; }
      match answer {
        case Ok(next) =>
          integration := Some(next);
          integrationUnavailable := false;
        case Err(code) =>
          if code == InvalidSession {
            ExpireSession();
          } else {
            integration := None;
            integrationUnavailable := true;
          }
      }
    }

    method InitialRetryDelayOver(id: nat)
      requires id in pending && pending[id].InitialRetryDelay?
      modifies this
      ensures State() == Step(old(State()), RetryDelayOver(id))
    {
      var call := Resume(id);
      var current := IsCurrent(call.session);
      if !current || call.generation != integrationRequestGeneration { return; }
      Await(InitialRetry(call.session, call.generation));
    }

    // ----- the integration

    method ToggleIntegration()
      modifies this
      ensures State() == Step(old(State()), ToggleClicked)
    {
      if busy || closeInFlight || token == "" || integration.None? || integrationUnavailable { return; }
      var session := Session(sessionGeneration, token);
      integrationRequestGeneration := integrationRequestGeneration + 1;
      busy := true;
      Await(Mutation(session, integrationRequestGeneration, !integration.value.connected));
    }

    method ToggleSettles(id: nat, answer: Result<Status, Code>)
      requires id in pending && pending[id].Mutation?
      modifies this
      ensures State() == Step(old(State()), StatusAnswered(id, answer))
    {
      var call := Resume(id);
      var current := IsCurrent(call.session);
      if !current || call.generation != integrationRequestGeneration { return; }
      match answer {
        case Ok(next) =>
          integration := Some(next);
          integrationUnavailable := false;
          busy := false;
        case Err(_) =>
          integration := None;
          integrationUnavailable := true;
          Await(MutationCheck(call.session, call.generation));
      }
    }

    method ToggleCheckSettles(id: nat, answer: Result<Status, Code>)
      requires id in pending && pending[id].MutationCheck?
      modifies this
      ensures State() == Step(old(State()), StatusAnswered(id, answer))
    {
      var call := Resume(id);
      var current := IsCurrent(call.session);
      if !current || call.generation != integrationRequestGeneration { return; }
      match answer {
        case Ok(next) =>
          integration := Some(next);
          integrationUnavailable := false;
        case Err(code) =>
          if code == InvalidSession {
            busy := false;
            ExpireSession();
            return;
          }
      }
      busy := false;
    }

    method RefreshIntegration()
      modifies this
      ensures State() == Step(old(State()), RefreshClicked)
    {
      if busy || closeInFlight || token == "" { return; }
      var session := Session(sessionGeneration, token);
      integrationRequestGeneration := integrationRequestGeneration + 1;
      busy := true;
      Await(ManualStatus(session, integrationRequestGeneration));
    }

    method RefreshIntegrationStatus()
      modifies this
      ensures State() == Step(old(State()), WindowFocused)
    {
      if busy || closeInFlight || persisted.None? || token == "" { return; }
      var session := Session(sessionGeneration, token);
      integrationRequestGeneration := integrationRequestGeneration + 1;
      Await(QuietStatus(session, integrationRequestGeneration));
    }

    /** The answer to either refresh; only the one the user asked for holds the form. */
    method RefreshSettles(id: nat, answer: Result<Status, Code>)
      requires id in pending && (pending[id].ManualStatus? || pending[id].QuietStatus?)
      modifies this
      ensures State() == Step(old(State()), StatusAnswered(id, answer))
    {
      var call := Resume(id);
      var current := IsCurrent(call.session);
      if call.generation != integrationRequestGeneration || !current { return; }
      if call.ManualStatus? { busy := false; }
      match answer {
        case Ok(next) =>
          integration := Some(next);
          integrationUnavailable := false;
        case Err(code) =>
          if code == InvalidSession {
            ExpireSession();
            return;
          }
          integration := None;
          integrationUnavailable := true;
      }
    }

    // ----- the session

    method CloseSession()
      modifies this
      ensures State() == Step(old(State()), CloseClicked)
    {
      if closeInFlight || token == "" { return; }
      var session := Session(sessionGeneration, token);
      closeInFlight := true;
      Await(Close(session));
    }

    method CloseSettles(id: nat, answer: Result<(), Code>)
      requires id in pending && pending[id].Close?
      modifies this
      ensures State() == Step(old(State()), PlainAnswered(id, answer))
    {
      var call := Resume(id);
      assert Step(old(State()), PlainAnswered(id, answer)) == CloseAnswered(State(), call, answer);
      hide Step, PlainStep;
      var current := IsCurrent(call.session);
      if current && (answer.Ok? || answer.error == InvalidSession) {
        if persisted.Some? { draft := persisted; }
        conflicted := false;
        ExpireSession();
      }
      closeInFlight := false;
    }

    method Heartbeat(recentlyActive: bool)
      modifies this
      ensures State() == Step(old(State()), HeartbeatDue(recentlyActive))
    {
      if token == "" || closeInFlight || !recentlyActive { return; }
      Await(Beat(Session(sessionGeneration, token)));
    }

    method HeartbeatSettles(id: nat, answer: Result<(), Code>)
      requires id in pending && pending[id].Beat?
      modifies this
      ensures State() == Step(old(State()), PlainAnswered(id, answer))
    {
      hide ConfigStep, StatusStep, DelayStep, Rebased;
      var call := Resume(id);
      var current := IsCurrent(call.session);
      if !current { return; }
      if answer.Ok? { RefreshIntegrationStatus(); } else { ExpireSession(); }
    }
  }
}
