/** What the Claude Code handoff adapter makes of one record
    (crates/adapter-claude-code/src/lib.rs, `checkpoint_from_record` to `optional_bool`). */
module HandoffMapping {
  import opened Common
  import opened HandoffIdentity

  const MAX_IDENTIFIER_BYTES := 512

  datatype Surface = OtelLog | Hook

  datatype EventName =
    | SessionStart | Stop | StopFailure | UserPrompt | ApiRequest | ToolDecision | ToolResult | CompactionEvent
    | AssistantResponse | ApiRequestBody | ApiResponseBody | OtherName(text: string)

  /** A JSON value as the adapter distinguishes them: a number is what it is as an unsigned 64-bit integer. */
  datatype Value = Text(text: string) | Number(asU64: Option<nat>) | Boolean(value: bool) | OtherValue

  datatype Key =
    | SessionIdKey | PromptIdKey | RequestIdKey | ToolUseIdKey | CompactionIdKey | ModelKey | ToolNameKey
    | DecisionKey | TriggerKey | SuccessKey | InputTokensKey | OutputTokensKey | CacheReadTokensKey
    | CacheCreationTokensKey | PreTokensKey | PostTokensKey | DurationMsKey | UnreadKey(name: string)

  datatype Record = Record(
    schemaVersion: string,
    generation: string,
    previous: Option<string>,
    cursor: string,
    surface: Surface,
    receivedAt: nat,
    event: EventName,
    attributes: map<Key, Value>)

  datatype AdapterError =
    | HandoffTooLarge | TooManyRecords | RecordTooLarge | InvalidJson | InvalidSchema | InvalidCursorSequence
    | InvalidIdentifier | InvalidFieldType | InvalidTiming

  datatype Checkpoint = Checkpoint(generation: string, previous: Option<string>, cursor: string)

  datatype Correlation = Correlation(
    session: string, turn: Option<string>, request: Option<string>, operation: Option<string>,
    permission: Option<string>, compaction: Option<string>)

  datatype ToolCategory = Shell | FileEdit | FileRead | Web | Agent | Mcp | OtherTool
  datatype Decision = Approved | Denied
  datatype Trigger = Auto | Manual

  datatype Activity =
    | SessionActivity(model: Option<string>)
    | TurnActivity
    | ModelRequest(model: Option<string>)
    | ToolOperation(tool: Option<ToolCategory>)
    | Permission(decision: Decision)
    | Compaction(trigger: Trigger)

  datatype Lifecycle = Running | Completed | Failed | Observed

  datatype Usage = Usage(
    input: Option<nat>, output: Option<nat>, cachedInput: Option<nat>, cacheCreation: Option<nat>,
    inputBefore: Option<nat>, inputAfter: Option<nat>)

  const NO_USAGE := Usage(None, None, None, None, None, None)

  datatype Observation = Observation(
    checkpoint: Checkpoint,
    observationId: string,
    traceId: string,
    spanId: string,
    parentSpanId: Option<string>,
    correlation: Correlation,
    activity: Activity,
    lifecycle: Lifecycle,
    startMs: nat,
    endMs: nat,
    usage: Usage)

  datatype DiagnosticCode =
    MissingCorrelation | InvalidField | ContentEventIgnored | UnsupportedEvent | DuplicateObservation

  datatype Mapping = Mapped(observation: Observation) | Diagnosed(code: DiagnosticCode)

  type MappingResult = Result<Mapping, AdapterError>

  // ----- reading attributes

  type Attributes = map<Key, Value>

  predicate ValidIdentifier(text: string) { 0 < |text| <= MAX_IDENTIFIER_BYTES }

  function ParseIdentifier(text: string): Result<string, AdapterError> {
    if ValidIdentifier(text) then Ok(text) else Err(InvalidIdentifier)
  }

  function ParseOptional(text: Option<string>): Result<Option<string>, AdapterError> {
    if text.None? then Ok(None)
    else
      var parsed :- ParseIdentifier(text.value);
      Ok(Some(parsed))
  }

  function OptionalString(a: Attributes, key: Key): Result<Option<string>, AdapterError> {
    if key !in a then Ok(None)
    else if a[key].Text? && a[key].text != "" then Ok(Some(a[key].text))
    else Err(InvalidIdentifier)
  }

  function RequiredString(a: Attributes, key: Key): Result<string, AdapterError> {
    var text :- OptionalString(a, key);
    if text.None? then Err(InvalidIdentifier) else Ok(text.value)
  }

  function OptionalU64(a: Attributes, key: Key): Result<Option<nat>, AdapterError> {
    if key !in a then Ok(None)
    else if a[key].Number? && a[key].asU64.Some? then Ok(a[key].asU64)
    else Err(InvalidTiming)
  }

  function OptionalBool(a: Attributes, key: Key): Result<Option<bool>, AdapterError> {
    if key !in a then Ok(None)
    else if a[key].Boolean? then Ok(Some(a[key].value))
    else Err(InvalidTiming)
  }

  function LifecycleFromSuccess(success: Option<bool>): Lifecycle {
    match success
    case Some(false) => Failed
    case Some(true) => Completed
    case None => Observed
  }

  predicate KnownModel(model: string) {
    model == "claude-test" || model == "claude-haiku-4-5" || model == "claude-opus-4-6"
    || model == "claude-sonnet-4-6" || model == "claude-opus-5" || model == "claude-sonnet-5"
  }

  function CanonicalModel(a: Attributes): Result<Option<string>, AdapterError> {
    var model :- OptionalString(a, ModelKey);
    if model.Some? && !KnownModel(model.value) then Err(InvalidFieldType) else Ok(model)
  }

  function CategoryOf(tool: string): ToolCategory {
    if tool == "Bash" || tool == "PowerShell" then Shell
    else if tool == "Edit" || tool == "Write" || tool == "NotebookEdit" then FileEdit
    else if tool == "Read" || tool == "Glob" || tool == "Grep" then FileRead
    else if tool == "WebFetch" || tool == "WebSearch" then Web
    else if tool == "Agent" || tool == "Task" then Agent
    else if tool == "mcp_tool" then Mcp
    else OtherTool
  }

  function CanonicalToolName(a: Attributes): Result<Option<ToolCategory>, AdapterError> {
    var tool :- OptionalString(a, ToolNameKey);
    Ok(if tool.None? then None else Some(CategoryOf(tool.value)))
  }

  function CanonicalDecision(a: Attributes): Result<Decision, AdapterError> {
    var decision :- OptionalString(a, DecisionKey);
    if decision == Some("accept") then Ok(Approved)
    else if decision == Some("reject") then Ok(Denied)
    else Err(InvalidFieldType)
  }

  function CanonicalTrigger(a: Attributes): Result<Trigger, AdapterError> {
    var trigger :- OptionalString(a, TriggerKey);
    if trigger == Some("auto") then Ok(Auto)
    else if trigger == Some("manual") then Ok(Manual)
    else Err(InvalidFieldType)
  }

  // ----- where an observation hangs

  /** A place in the span forest: a session, a turn of a session, or something within a turn. */
  datatype Place = Place(session: string, turn: Option<string>, leaf: string)

  const TURN_LEAF := "turn"

  function TraceOf(digest: Digest, p: Place): string { StableId(digest, TraceKind, [p.session]) }

  function SpanOf(digest: Digest, p: Place): string {
    if p.turn.None? then StableId(digest, SessionKind, [p.session])
    else if p.leaf == TURN_LEAF then StableId(digest, TurnKind, [p.session, p.turn.value])
    else StableId(digest, SpanKind, [p.session, p.turn.value, p.leaf])
  }

  function ParentOf(digest: Digest, p: Place): Option<string> {
    if p.turn.None? then None
    else if p.leaf == TURN_LEAF then Some(StableId(digest, SessionKind, [p.session]))
    else Some(StableId(digest, TurnKind, [p.session, p.turn.value]))
  }

  function NameText(e: EventName): string {
    match e
    case SessionStart => "SessionStart"
    case Stop => "Stop"
    case StopFailure => "StopFailure"
    case UserPrompt => "claude_code.user_prompt"
    case ApiRequest => "claude_code.api_request"
    case ToolDecision => "claude_code.tool_decision"
    case ToolResult => "claude_code.tool_result"
    case CompactionEvent => "claude_code.compaction"
    case AssistantResponse => "claude_code.assistant_response"
    case ApiRequestBody => "claude_code.api_request_body"
    case ApiResponseBody => "claude_code.api_response_body"
    case OtherName(text) => text
  }

  function ObservationIdOf(digest: Digest, r: Record): string {
    StableId(digest, ObservationKind,
             [r.generation, r.cursor, if r.surface.OtelLog? then "otel_log" else "hook", NameText(r.event)])
  }

  function CheckpointFromRecord(r: Record): Result<Checkpoint, AdapterError> {
    var generation :- ParseIdentifier(r.generation);
    var previous :- ParseOptional(r.previous);
    var cursor :- ParseIdentifier(r.cursor);
    Ok(Checkpoint(generation, previous, cursor))
  }

  function BuildObservation(digest: Digest, r: Record, place: Place, correlation: Correlation, activity: Activity,
                            lifecycle: Lifecycle, usage: Usage, durationMs: Option<nat>): MappingResult
  {
    var traceId :- ParseIdentifier(TraceOf(digest, place));
    var duration := if durationMs.Some? then durationMs.value else 0;
    if duration > r.receivedAt then Err(InvalidTiming)
    else
      var checkpoint :- CheckpointFromRecord(r);
      var observationId :- ParseIdentifier(ObservationIdOf(digest, r));
      var spanId :- ParseIdentifier(SpanOf(digest, place));
      var parent :- ParseOptional(ParentOf(digest, place));
      Ok(Mapped(Observation(checkpoint, observationId, traceId, spanId, parent, correlation, activity, lifecycle,
                            r.receivedAt - duration, r.receivedAt, usage)))
  }

  // ----- the six builders

  function SessionObservation(digest: Digest, r: Record): MappingResult {
    var session :- RequiredString(r.attributes, SessionIdKey);
    var sessionId :- ParseIdentifier(session);
    var model :- CanonicalModel(r.attributes);
    BuildObservation(digest, r, Place(session, None, "session"), Correlation(sessionId, None, None, None, None, None),
                     SessionActivity(model), Running, NO_USAGE, None)
  }

  function TurnObservation(digest: Digest, r: Record, lifecycle: Lifecycle): MappingResult {
    var session :- RequiredString(r.attributes, SessionIdKey);
    var turn :- RequiredString(r.attributes, PromptIdKey);
    var sessionId :- ParseIdentifier(session);
    var turnId :- ParseIdentifier(turn);
    BuildObservation(digest, r, Place(session, Some(turn), TURN_LEAF),
                     Correlation(sessionId, Some(turnId), None, None, None, None), TurnActivity, lifecycle, NO_USAGE, None)
  }

  function RequestObservation(digest: Digest, r: Record): MappingResult {
    var session :- RequiredString(r.attributes, SessionIdKey);
    var turn :- RequiredString(r.attributes, PromptIdKey);
    var request :- RequiredString(r.attributes, RequestIdKey);
    var sessionId :- ParseIdentifier(session);
    var turnId :- ParseIdentifier(turn);
    var requestId :- ParseIdentifier(request);
    var input :- OptionalU64(r.attributes, InputTokensKey);
    var output :- OptionalU64(r.attributes, OutputTokensKey);
    var cachedInput :- OptionalU64(r.attributes, CacheReadTokensKey);
    var cacheCreation :- OptionalU64(r.attributes, CacheCreationTokensKey);
    var success :- OptionalBool(r.attributes, SuccessKey);
    var model :- CanonicalModel(r.attributes);
    var duration :- OptionalU64(r.attributes, DurationMsKey);
    BuildObservation(digest, r, Place(session, Some(turn), "request:" + request),
                     Correlation(sessionId, Some(turnId), Some(requestId), None, None, None), ModelRequest(model),
                     LifecycleFromSuccess(success), Usage(input, output, cachedInput, cacheCreation, None, None), duration)
  }

  function ToolObservation(digest: Digest, r: Record): MappingResult {
    var session :- RequiredString(r.attributes, SessionIdKey);
    var turn :- RequiredString(r.attributes, PromptIdKey);
    var operation :- RequiredString(r.attributes, ToolUseIdKey);
    var sessionId :- ParseIdentifier(session);
    var turnId :- ParseIdentifier(turn);
    var operationId :- ParseIdentifier(operation);
    var tool :- CanonicalToolName(r.attributes);
    var success :- OptionalBool(r.attributes, SuccessKey);
    var duration :- OptionalU64(r.attributes, DurationMsKey);
    BuildObservation(digest, r, Place(session, Some(turn), "tool:" + operation),
                     Correlation(sessionId, Some(turnId), None, Some(operationId), None, None), ToolOperation(tool),
                     LifecycleFromSuccess(success), NO_USAGE, duration)
  }

  function PermissionObservation(digest: Digest, r: Record): MappingResult {
    var session :- RequiredString(r.attributes, SessionIdKey);
    var turn :- RequiredString(r.attributes, PromptIdKey);
    var permission :- RequiredString(r.attributes, ToolUseIdKey);
    var decision :- CanonicalDecision(r.attributes);
    var sessionId :- ParseIdentifier(session);
    var turnId :- ParseIdentifier(turn);
    var permissionId :- ParseIdentifier(permission);
    BuildObservation(digest, r, Place(session, Some(turn), "permission:" + permission),
                     Correlation(sessionId, Some(turnId), None, None, Some(permissionId), None), Permission(decision),
                     if decision.Denied? then Failed else Completed, NO_USAGE, None)
  }

  function CompactionObservation(digest: Digest, r: Record): MappingResult {
    var session :- RequiredString(r.attributes, SessionIdKey);
    var turn :- RequiredString(r.attributes, PromptIdKey);
    var compaction :- RequiredString(r.attributes, CompactionIdKey);
    var sessionId :- ParseIdentifier(session);
    var turnId :- ParseIdentifier(turn);
    var compactionId :- ParseIdentifier(compaction);
    var trigger :- CanonicalTrigger(r.attributes);
    var success :- OptionalBool(r.attributes, SuccessKey);
    var before :- OptionalU64(r.attributes, PreTokensKey);
    var after :- OptionalU64(r.attributes, PostTokensKey);
    var duration :- OptionalU64(r.attributes, DurationMsKey);
    BuildObservation(digest, r, Place(session, Some(turn), "compaction:" + compaction),
                     Correlation(sessionId, Some(turnId), None, None, None, Some(compactionId)), Compaction(trigger),
                     LifecycleFromSuccess(success), Usage(None, None, None, None, before, after), duration)
  }

  function ObservationFromRecord(digest: Digest, r: Record): MappingResult {
    match (r.surface, r.event)
    case (Hook, SessionStart) => SessionObservation(digest, r)
    case (OtelLog, UserPrompt) => TurnObservation(digest, r, Running)
    case (OtelLog, ApiRequest) => RequestObservation(digest, r)
    case (OtelLog, ToolDecision) => PermissionObservation(digest, r)
    case (OtelLog, ToolResult) => ToolObservation(digest, r)
    case (OtelLog, CompactionEvent) => CompactionObservation(digest, r)
    case (OtelLog, AssistantResponse) => Ok(Diagnosed(ContentEventIgnored))
    case (OtelLog, ApiRequestBody) => Ok(Diagnosed(ContentEventIgnored))
    case (OtelLog, ApiResponseBody) => Ok(Diagnosed(ContentEventIgnored))
    case (Hook, Stop) => TurnObservation(digest, r, Completed)
    case (Hook, StopFailure) => TurnObservation(digest, r, Failed)
    case _ => Ok(Diagnosed(UnsupportedEvent))
  }

  // ----- the span forest

  /** What an observation is about, read off its correlation alone. */
  datatype Subject =
    | OfSession(session: string)
    | OfTurn(session: string, turn: string)
    | OfRequest(session: string, turn: string, id: string)
    | OfTool(session: string, turn: string, id: string)
    | OfPermission(session: string, turn: string, id: string)
    | OfCompaction(session: string, turn: string, id: string)

  function SubjectOf(c: Correlation): Subject {
    if c.turn.None? then OfSession(c.session)
    else if c.request.Some? then OfRequest(c.session, c.turn.value, c.request.value)
    else if c.operation.Some? then OfTool(c.session, c.turn.value, c.operation.value)
    else if c.permission.Some? then OfPermission(c.session, c.turn.value, c.permission.value)
    else if c.compaction.Some? then OfCompaction(c.session, c.turn.value, c.compaction.value)
    else OfTurn(c.session, c.turn.value)
  }

  function PlaceOf(s: Subject): Place {
    match s
    case OfSession(session) => Place(session, None, "session")
    case OfTurn(session, turn) => Place(session, Some(turn), TURN_LEAF)
    case OfRequest(session, turn, id) => Place(session, Some(turn), "request:" + id)
    case OfTool(session, turn, id) => Place(session, Some(turn), "tool:" + id)
    case OfPermission(session, turn, id) => Place(session, Some(turn), "permission:" + id)
    case OfCompaction(session, turn, id) => Place(session, Some(turn), "compaction:" + id)
  }

  function Encloser(s: Subject): Option<Subject> {
    match s
    case OfSession(_) => None
    case OfTurn(session, _) => Some(OfSession(session))
    case _ => Some(OfTurn(s.session, s.turn))
  }

  predicate BoundedSubject(s: Subject) {
    && ValidIdentifier(s.session)
    && (!s.OfSession? ==> ValidIdentifier(s.turn))
    && (!s.OfSession? && !s.OfTurn? ==> ValidIdentifier(s.id))
  }

  function SubjectSpan(digest: Digest, s: Subject): string { SpanOf(digest, PlaceOf(s)) }

  /** Everything the adapter derives for an observation, in terms of its subject and its record. */
  predicate Derived(digest: Digest, r: Record, o: Observation) {
    var s := SubjectOf(o.correlation);
    && BoundedSubject(s)
    && o.traceId == TraceOf(digest, PlaceOf(s))
    && o.spanId == SubjectSpan(digest, s)
    && o.parentSpanId == (match Encloser(s) case None => None case Some(e) => Some(SubjectSpan(digest, e)))
    && o.observationId == ObservationIdOf(digest, r)
    && o.checkpoint == Checkpoint(r.generation, r.previous, r.cursor)
    && o.startMs <= o.endMs == r.receivedAt
  }

  lemma BuildDerives(digest: Digest, r: Record, s: Subject, correlation: Correlation, activity: Activity,
                     lifecycle: Lifecycle, usage: Usage, durationMs: Option<nat>)
    requires s == SubjectOf(correlation) && BoundedSubject(s)
    ensures var m := BuildObservation(digest, r, PlaceOf(s), correlation, activity, lifecycle, usage, durationMs);
            m.Ok? ==> m.value.Mapped? && Derived(digest, r, m.value.observation)
  {
    hide StableId, NameText;
    if s.OfRequest? || s.OfTool? || s.OfPermission? || s.OfCompaction? {
      assert PlaceOf(s).leaf[1] != TURN_LEAF[1];
    }
  }
}
