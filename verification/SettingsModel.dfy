/** The settings editor (ui/settings/main.ts) as a state machine: its module-level variables, and one step
    for every synchronous stretch of code. An asynchronous function that waits for a response is a call in
    `pending`, carrying what its closure captured; the response resumes it. */
module SettingsModel {
  import opened Common

  // ----- a configuration

  datatype FieldPath =
    | FileReconcileIntervalMs | FlushIntervalMs | MaxBatchRecords | MaxBatchBytes | ActiveHeartbeatIntervalMs
    | IdleHeartbeatIntervalMs | LocalStorageBudgetBytes | MaxRecordAgeDays | MaxArchiveRecords | MaxArchiveBytes
    | HotDays | WarmDays | DeleteAfterDays | PrivateRawDays | MaintenanceIntervalSeconds | MaxTracesPerPass

  /** A finite JavaScript number for every field the form shows. */
  type Numbers = numbers: map<FieldPath, real> | forall path: FieldPath :: path in numbers
    witness map path: FieldPath | true :: 0.0

  datatype BudgetMode = Legacy | Separated

  /** The storage budget is part of the configuration but no control of the form shows it. */
  datatype StorageBudget = StorageBudget(mode: BudgetMode, retainedTarget: nat, workspace: nat, minimumFree: nat)

  datatype Config = Config(
    numbers: Numbers,
    enabled: bool,
    capturePrivateDetails: Option<bool>,
    lifecycleEnabled: bool,
    storageBudget: StorageBudget)

  function Captures(c: Config): bool { c.capturePrivateDetails == Some(true) }

  /** Everything the form can edit, and the value a configuration gives it. */
  datatype Setting = Number(path: FieldPath) | Enabled | CapturePrivateDetails | LifecycleEnabled
  datatype Value = Amount(amount: real) | Flag(on: bool)

  function ValueOf(c: Config, setting: Setting): Value {
    match setting
    case Number(path) => Amount(c.numbers[path])
    case Enabled => Flag(c.enabled)
    case CapturePrivateDetails => Flag(Captures(c))
    case LifecycleEnabled => Flag(c.lifecycleEnabled)
  }

  /** What a three-way merge owes one setting. */
  function Merged(local: Config, base: Config, latest: Config, setting: Setting): Value {
    if ValueOf(local, setting) != ValueOf(base, setting) then ValueOf(local, setting) else ValueOf(latest, setting)
  }

  function MergedNumbers(local: Numbers, base: Numbers, latest: Numbers): Numbers {
    map path: FieldPath | true :: if local[path] != base[path] then local[path] else latest[path]
  }

  /** The local edits, re-applied on top of the latest configuration. */
  function Rebased(local: Config, base: Config, latest: Config): (r: Config)
    ensures forall setting :: ValueOf(r, setting) == Merged(local, base, latest, setting)
    ensures r.storageBudget == latest.storageBudget
  {
    Config(
      MergedNumbers(local.numbers, base.numbers, latest.numbers),
      if local.enabled != base.enabled then local.enabled else latest.enabled,
      if Captures(local) != Captures(base) then Some(Captures(local)) else latest.capturePrivateDetails,
      if local.lifecycleEnabled != base.lifecycleEnabled then local.lifecycleEnabled else latest.lifecycleEnabled,
      latest.storageBudget)
  }

  // ----- the wire

  type Revision = string

  datatype Envelope = Envelope(config: Config, defaults: Config, revision: Revision)

  datatype Status = Status(connected: bool, collectorUnavailable: bool, detail: string)

  datatype Code = InvalidSession | NetworkFailure | ConfigConflict | OtherCode

  // ----- the editor

  datatype Session = Session(generation: nat, token: string)

  datatype Call =
    | BootConfig(session: Session)
    | InitialStatus(session: Session, generation: nat)
    | InitialRetryDelay(session: Session, generation: nat)
    | InitialRetry(session: Session, generation: nat)
    | Mutation(session: Session, generation: nat, connect: bool)
    | MutationCheck(session: Session, generation: nat)
    | ManualStatus(session: Session, generation: nat)
    | QuietStatus(session: Session, generation: nat)
    | Save(session: Session, body: Config, revision: Revision)
    | Rebase(session: Session, local: Config, base: Config)
    | Close(session: Session)
    | Beat(session: Session)

  datatype Editor = Editor(
    draft: Option<Config>,
    persisted: Option<Config>,
    defaults: Option<Config>,
    revision: Revision,
    integration: Option<Status>,
    integrationUnavailable: bool,
    integrationGeneration: nat,
    sessionGeneration: nat,
    token: string,
    busy: bool,
    closing: bool,
    conflicted: bool,
    pending: map<nat, Call>,
    nextCall: nat)

  datatype Event =
    | EditNumber(path: FieldPath, value: real)
    | EditEnabled(on: bool)
    | EditCapture(on: bool)
    | EditLifecycle(on: bool)
    | SaveClicked(valid: bool)
    | DiscardClicked
    | ResetClicked
    | ToggleClicked
    | RefreshClicked
    | WindowFocused
    | CloseClicked
    | HeartbeatDue(recentlyActive: bool)
    | RetryDelayOver(call: nat)
    | ConfigAnswered(call: nat, config: Result<Envelope, Code>)
    | StatusAnswered(call: nat, status: Result<Status, Code>)
    | PlainAnswered(call: nat, plain: Result<(), Code>)

  function CurrentSession(s: Editor): Session { Session(s.sessionGeneration, s.token) }

  predicate SessionIsCurrent(s: Editor, session: Session) {
    s.token != "" && s.token == session.token && s.sessionGeneration == session.generation
  }

  function Await(s: Editor, call: Call): Editor {
    s.(pending := s.pending[s.nextCall := call], nextCall := s.nextCall + 1)
  }

  /** The page has just loaded with the session token it was given, possibly none. */
  function Initial(token: string): Editor {
    var s := Editor(None, None, None, "", None, false, 0, 0, token, false, false, false, map[], 0);
    if token == "" then s else Await(s, BootConfig(CurrentSession(s)))
  }

  function ApplyEnvelope(s: Editor, e: Envelope): Editor {
    s.(draft := Some(e.config), persisted := Some(e.config), defaults := Some(e.defaults), revision := e.revision,
       conflicted := false)
  }

  function ExpireSession(s: Editor): Editor {
    s.(integrationGeneration := s.integrationGeneration + 1, sessionGeneration := s.sessionGeneration + 1, token := "")
  }

  predicate EndsSession(code: Code) { code == InvalidSession || code == NetworkFailure }

  // ----- editing

  function Edit(s: Editor, edited: Config -> Config): Editor {
    if s.closing || s.draft.None? then s else s.(draft := Some(edited(s.draft.value)))
  }

  function WithNumber(c: Config, path: FieldPath, value: real): Config { c.(numbers := c.numbers[path := value]) }

  function DiscardChanges(s: Editor): Editor {
    if s.closing || s.persisted.None? then s else s.(draft := s.persisted, conflicted := false)
  }

  function ResetDefaults(s: Editor): Editor {
    if s.closing || s.defaults.None? || s.draft.None? then s
    else s.(draft := Some(s.defaults.value.(storageBudget := s.draft.value.storageBudget)))
  }

  // ----- saving

  predicate CanSave(s: Editor) {
    s.draft.Some? && !s.busy && !s.closing && s.token != "" && !s.conflicted
  }

  function StartSave(s: Editor, valid: bool): Editor {
    if !CanSave(s) || !valid then s
    else Await(s.(busy := true), Save(CurrentSession(s), s.draft.value, s.revision))
  }

  /** The rest of `saveDraft` once the PUT has been answered. `finally` clears `busy` on every path that does
      not go on to the rebase. */
  function SaveAnswered(s: Editor, call: Call, answer: Result<Envelope, Code>): Editor
    requires call.Save?
  {
    if !SessionIsCurrent(s, call.session) then s.(busy := false)
    else match answer
      case Ok(envelope) => ApplyEnvelope(s, envelope).(busy := false)
      case Err(code) =>
        if code == ConfigConflict then
          if s.draft.None? || s.persisted.None? then s.(busy := false)
          else Await(s, Rebase(call.session, s.draft.value, s.persisted.value))
        else if EndsSession(code) then ExpireSession(s).(busy := false)
        else s.(busy := false)
  }

  function RebaseAnswered(s: Editor, call: Call, answer: Result<Envelope, Code>): Editor
    requires call.Rebase?
  {
    if !SessionIsCurrent(s, call.session) then s.(busy := false)
    else match answer
      case Ok(latest) =>
        var applied := ApplyEnvelope(s, latest);
        applied.(draft := Some(Rebased(call.local, call.base, latest.config)), busy := false)
      case Err(code) =>
        if EndsSession(code) then ExpireSession(s).(busy := false) else s.(busy := false)
  }

  // ----- loading

  function BootAnswered(s: Editor, call: Call, answer: Result<Envelope, Code>): Editor
    requires call.BootConfig?
  {
    if !SessionIsCurrent(s, call.session) then s
    else match answer
      case Ok(envelope) =>
        var applied := ApplyEnvelope(s, envelope);
        var numbered := applied.(integrationGeneration := s.integrationGeneration + 1);
        Await(numbered, InitialStatus(call.session, numbered.integrationGeneration))
      case Err(code) => if EndsSession(code) then ExpireSession(s) else s
  }

  // ----- the integration

  function StartToggle(s: Editor): Editor {
    if s.busy || s.closing || s.token == "" || s.integration.None? || s.integrationUnavailable then s
    else
      var numbered := s.(integrationGeneration := s.integrationGeneration + 1, busy := true);
      Await(numbered, Mutation(CurrentSession(s), numbered.integrationGeneration, !s.integration.value.connected))
  }

  function StartManualStatus(s: Editor): Editor {
    if s.busy || s.closing || s.token == "" then s
    else
      var numbered := s.(integrationGeneration := s.integrationGeneration + 1, busy := true);
      Await(numbered, ManualStatus(CurrentSession(s), numbered.integrationGeneration))
  }

  function StartQuietStatus(s: Editor): Editor {
    if s.busy || s.closing || s.persisted.None? || s.token == "" then s
    else
      var numbered := s.(integrationGeneration := s.integrationGeneration + 1);
      Await(numbered, QuietStatus(CurrentSession(s), numbered.integrationGeneration))
  }

  predicate IsIntegrationCall(call: Call) {
    call.InitialStatus? || call.InitialRetryDelay? || call.InitialRetry? || call.Mutation? || call.MutationCheck?
    || call.ManualStatus? || call.QuietStatus?
  }

  /** The two checks every integration response passes before it is looked at. */
  predicate IntegrationIsCurrent(s: Editor, call: Call)
    requires IsIntegrationCall(call)
  {
    SessionIsCurrent(s, call.session) && call.generation == s.integrationGeneration
  }

  function ShowStatus(s: Editor, status: Status): Editor {
    s.(integration := Some(status), integrationUnavailable := false)
  }

  function LockIntegration(s: Editor): Editor { s.(integration := None, integrationUnavailable := true) }

  function StatusFor(s: Editor, call: Call, answer: Result<Status, Code>): Editor
    requires IsIntegrationCall(call)
  {
    if call.InitialStatus? && answer.Ok? && answer.value.connected && answer.value.collectorUnavailable then
      Await(s, InitialRetryDelay(call.session, call.generation))
    else if call.InitialRetryDelay? || !IntegrationIsCurrent(s, call) then s
    else
      var released := if call.Mutation? || call.MutationCheck? || call.ManualStatus? then s.(busy := false) else s;
      match answer
      case Ok(status) => ShowStatus(released, status)
      case Err(code) =>
        if call.Mutation? then Await(LockIntegration(s), MutationCheck(call.session, call.generation))
        else if code == InvalidSession then ExpireSession(released)
        else if call.MutationCheck? then released
        else LockIntegration(released)
  }

  // ----- the session

  function StartClose(s: Editor): Editor {
    if s.closing || s.token == "" then s else Await(s.(closing := true), Close(CurrentSession(s)))
  }

  function CloseAnswered(s: Editor, call: Call, answer: Result<(), Code>): Editor
    requires call.Close?
  {
    var ended := s.(closing := false);
    if !SessionIsCurrent(s, call.session) then ended
    else if answer.Ok? || answer.error == InvalidSession then
      ExpireSession(ended.(draft := if s.persisted.Some? then s.persisted else s.draft, conflicted := false))
    else ended
  }

  function BeatAnswered(s: Editor, call: Call, answer: Result<(), Code>): Editor
    requires call.Beat?
  {
    if !SessionIsCurrent(s, call.session) then s
    else if answer.Ok? then StartQuietStatus(s)
    else ExpireSession(s)
  }

  // ----- steps and runs

  /** The call has been answered: it is no longer waiting. */
  function Resumed(s: Editor, call: nat): Editor { s.(pending := s.pending - {call}) }

  function ConfigStep(s: Editor, id: nat, answer: Result<Envelope, Code>): Editor {
    if id !in s.pending then s
    else match s.pending[id]
      case BootConfig(_) => BootAnswered(Resumed(s, id), s.pending[id], answer)
      case Save(_, _, _) => SaveAnswered(Resumed(s, id), s.pending[id], answer)
      case Rebase(_, _, _) => RebaseAnswered(Resumed(s, id), s.pending[id], answer)
      case _ => s
  }

  predicate AwaitsStatus(s: Editor, id: nat) {
    id in s.pending && IsIntegrationCall(s.pending[id]) && !s.pending[id].InitialRetryDelay?
  }

  function StatusStep(s: Editor, id: nat, answer: Result<Status, Code>): Editor {
    if AwaitsStatus(s, id) then StatusFor(Resumed(s, id), s.pending[id], answer) else s
  }

  function PlainStep(s: Editor, id: nat, answer: Result<(), Code>): Editor {
    if id !in s.pending then s
    else match s.pending[id]
      case Close(_) => CloseAnswered(Resumed(s, id), s.pending[id], answer)
      case Beat(_) => BeatAnswered(Resumed(s, id), s.pending[id], answer)
      case _ => s
  }

  function DelayStep(s: Editor, id: nat): Editor {
    if id !in s.pending || !s.pending[id].InitialRetryDelay? then s
    else
      var call := s.pending[id];
      var resumed := Resumed(s, id);
      if IntegrationIsCurrent(s, call) then Await(resumed, InitialRetry(call.session, call.generation)) else resumed
  }

  function Step(s: Editor, e: Event): Editor {
    match e
    case EditNumber(path, value) => Edit(s, c => WithNumber(c, path, value))
    case EditEnabled(on) => Edit(s, (c: Config) => c.(enabled := on))
    case EditCapture(on) => Edit(s, (c: Config) => c.(capturePrivateDetails := Some(on)))
    case EditLifecycle(on) => Edit(s, (c: Config) => c.(lifecycleEnabled := on))
    case SaveClicked(valid) => StartSave(s, valid)
    case DiscardClicked => DiscardChanges(s)
    case ResetClicked => ResetDefaults(s)
    case ToggleClicked => StartToggle(s)
    case RefreshClicked => StartManualStatus(s)
    case WindowFocused => StartQuietStatus(s)
    case CloseClicked => StartClose(s)
    case HeartbeatDue(recentlyActive) =>
      if s.token == "" || s.closing || !recentlyActive then s else Await(s, Beat(CurrentSession(s)))
    case RetryDelayOver(call) => DelayStep(s, call)
    case ConfigAnswered(call, answer) => ConfigStep(s, call, answer)
    case StatusAnswered(call, answer) => StatusStep(s, call, answer)
    case PlainAnswered(call, answer) => PlainStep(s, call, answer)
  }

  /** The refresh button is on the settings page, which is drawn only once a configuration has arrived. */
  predicate Offered(s: Editor, e: Event) { e.RefreshClicked? ==> s.persisted.Some? }

  function Run(s: Editor, es: seq<Event>): Editor {
    if es == [] then s else Step(Run(s, es[..|es| - 1]), es[|es| - 1])
  }

  predicate AllOffered(s: Editor, es: seq<Event>) {
    es == [] || (AllOffered(s, es[..|es| - 1]) && Offered(Run(s, es[..|es| - 1]), es[|es| - 1]))
  }
}
