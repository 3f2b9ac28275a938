/** Which records the handoff adapter maps to observations, and what becomes of the others, in terms of the record
    alone (crates/adapter-claude-code/src/lib.rs, `observation_from_record`, `parse_handoff_jsonl`). */
module HandoffAcceptance {
  import opened Common
  import opened HandoffIdentity
  import opened HandoffMapping
  import opened HandoffParser

  // ----- what an attribute has to be

  predicate TextAt(a: Attributes, key: Key) { key in a && a[key].Text? && a[key].text != "" }

  predicate Short(a: Attributes, key: Key) { key in a && a[key].Text? ==> |a[key].text| <= 512 }

  /** A non-empty text of at most 512 bytes. */
  predicate IdentifierAt(a: Attributes, key: Key) { TextAt(a, key) && Short(a, key) }

  predicate FigureOrAbsent(a: Attributes, key: Key) { key in a ==> a[key].Number? && a[key].asU64.Some? }

  predicate FlagOrAbsent(a: Attributes, key: Key) { key in a ==> a[key].Boolean? }

  predicate TextOrAbsent(a: Attributes, key: Key) { key in a ==> TextAt(a, key) }

  predicate WordAt(a: Attributes, key: Key, words: seq<string>) {
    TextAt(a, key) && exists i :: 0 <= i < |words| && a[key].text == words[i]
  }

  const MODELS := ["claude-test", "claude-haiku-4-5", "claude-opus-4-6", "claude-sonnet-4-6", "claude-opus-5", "claude-sonnet-5"]

  /** No longer than the time that the record was received at. */
  predicate DurationFits(r: Record) {
    FigureOrAbsent(r.attributes, DurationMsKey)
    && (DurationMsKey in r.attributes ==> r.attributes[DurationMsKey].asU64.value <= r.receivedAt)
  }

  predicate EnvelopeFits(r: Record) {
    0 < |r.generation| <= 512 && 0 < |r.cursor| <= 512 && (r.previous.Some? ==> 0 < |r.previous.value| <= 512)
  }

  // ----- the checks, in the order in which they are made

  datatype Check = Check(passes: bool, otherwise: DiagnosticCode)

  predicate Identifiers(a: Attributes, keys: seq<Key>) { forall i :: 0 <= i < |keys| ==> IdentifierAt(a, keys[i]) }

  predicate Texts(a: Attributes, keys: seq<Key>) { forall i :: 0 <= i < |keys| ==> TextAt(a, keys[i]) }

  predicate Figures(a: Attributes, keys: seq<Key>) { forall i :: 0 <= i < |keys| ==> FigureOrAbsent(a, keys[i]) }

  predicate ModelKnown(a: Attributes) { ModelKey in a ==> WordAt(a, ModelKey, MODELS) }

  /** The sort of activity that a record is about. */
  datatype Sort = SessionSort | TurnSort | RequestSort | ToolSort | PermissionSort | CompactionSort

  function SortOf(r: Record): Option<Sort> {
    if r.surface.Hook? then
      if r.event.SessionStart? then Some(SessionSort)
      else if r.event.Stop? || r.event.StopFailure? then Some(TurnSort)
      else None
    else if r.event.UserPrompt? then Some(TurnSort)
    else if r.event.ApiRequest? then Some(RequestSort)
    else if r.event.ToolResult? then Some(ToolSort)
    else if r.event.ToolDecision? then Some(PermissionSort)
    else if r.event.CompactionEvent? then Some(CompactionSort)
    else None
  }

  function ChecksOf(r: Record, sort: Sort): seq<Check> {
    var a := r.attributes;
    match sort
    case SessionSort =>
      [Check(IdentifierAt(a, SessionIdKey), MissingCorrelation),
       Check(TextOrAbsent(a, ModelKey), MissingCorrelation),
       Check(ModelKnown(a), InvalidField)]
    case TurnSort => [Check(Identifiers(a, [SessionIdKey, PromptIdKey]), MissingCorrelation)]
    case RequestSort =>
      [Check(Identifiers(a, [SessionIdKey, PromptIdKey, RequestIdKey]), MissingCorrelation),
       Check(Figures(a, [InputTokensKey, OutputTokensKey, CacheReadTokensKey, CacheCreationTokensKey]), InvalidField),
       Check(FlagOrAbsent(a, SuccessKey), InvalidField),
       Check(TextOrAbsent(a, ModelKey), MissingCorrelation),
       Check(ModelKnown(a), InvalidField),
       Check(DurationFits(r), InvalidField)]
    case ToolSort =>
      [Check(Identifiers(a, [SessionIdKey, PromptIdKey, ToolUseIdKey]), MissingCorrelation),
       Check(TextOrAbsent(a, ToolNameKey), MissingCorrelation),
       Check(FlagOrAbsent(a, SuccessKey), InvalidField),
       Check(DurationFits(r), InvalidField)]
    case PermissionSort =>
      [Check(Texts(a, [SessionIdKey, PromptIdKey, ToolUseIdKey]), MissingCorrelation),
       Check(TextOrAbsent(a, DecisionKey), MissingCorrelation),
       Check(WordAt(a, DecisionKey, ["accept", "reject"]), InvalidField),
       Check(Identifiers(a, [SessionIdKey, PromptIdKey, ToolUseIdKey]), MissingCorrelation)]
    case CompactionSort =>
      [Check(Identifiers(a, [SessionIdKey, PromptIdKey, CompactionIdKey]), MissingCorrelation),
       Check(TextOrAbsent(a, TriggerKey), MissingCorrelation),
       Check(WordAt(a, TriggerKey, ["auto", "manual"]), InvalidField),
       Check(FlagOrAbsent(a, SuccessKey), InvalidField),
       Check(Figures(a, [PreTokensKey, PostTokensKey]), InvalidField),
       Check(DurationFits(r), InvalidField)]
  }

  /** What the first check that fails says. */
  function FirstFailure(checks: seq<Check>): Option<DiagnosticCode> {
    if checks == [] then None
    else if !checks[0].passes then Some(checks[0].otherwise)
    else FirstFailure(checks[1..])
  }

  /** What becomes of a record: it is observed, or refused for a reason. */
  datatype Verdict = Accepted(sort: Sort) | Refused(code: DiagnosticCode)

  predicate IsContentEvent(r: Record) {
    r.surface.OtelLog? && (r.event.AssistantResponse? || r.event.ApiRequestBody? || r.event.ApiResponseBody?)
  }

  function VerdictFor(r: Record, sort: Sort): Verdict {
    match FirstFailure(ChecksOf(r, sort))
    case Some(code) => Refused(code)
    case None => if EnvelopeFits(r) then Accepted(sort) else Refused(MissingCorrelation)
  }

  function VerdictOf(r: Record): Verdict {
    match SortOf(r)
    case None => Refused(if IsContentEvent(r) then ContentEventIgnored else UnsupportedEvent)
    case Some(sort) => VerdictFor(r, sort)
  }

  predicate IsOfSort(activity: Activity, sort: Sort) {
    match sort
    case SessionSort => activity.SessionActivity?
    case TurnSort => activity.TurnActivity?
    case RequestSort => activity.ModelRequest?
    case ToolSort => activity.ToolOperation?
    case PermissionSort => activity.Permission?
    case CompactionSort => activity.Compaction?
  }

  /** The mapping has come out as the verdict says. */
  predicate Agrees(m: MappingResult, v: Verdict) {
    match v
    case Accepted(sort) => m.Ok? && m.value.Mapped? && IsOfSort(m.value.observation.activity, sort)
    case Refused(code) => Settled(m) == Ok(Diagnosed(code))
  }

  // ----- the readers, in those terms

  lemma ReadersMean(a: Attributes, key: Key)
    ensures OptionalString(a, key) ==
              if key !in a then Ok(None) else if TextAt(a, key) then Ok(Some(a[key].text)) else Err(InvalidIdentifier)
    ensures RequiredString(a, key) == if TextAt(a, key) then Ok(a[key].text) else Err(InvalidIdentifier)
    ensures OptionalU64(a, key).Ok? <==> FigureOrAbsent(a, key)
    ensures OptionalU64(a, key).Ok? ==> OptionalU64(a, key).value == if key in a then a[key].asU64 else None
    ensures OptionalU64(a, key).Err? ==> OptionalU64(a, key).error == InvalidTiming
    ensures OptionalBool(a, key).Ok? <==> FlagOrAbsent(a, key)
    ensures OptionalBool(a, key).Err? ==> OptionalBool(a, key).error == InvalidTiming
  {
  }

  lemma ModelsMean(a: Attributes)
    ensures CanonicalModel(a).Ok? <==> TextOrAbsent(a, ModelKey) && ModelKnown(a)
    ensures CanonicalModel(a).Err? ==>
              CanonicalModel(a).error == if TextOrAbsent(a, ModelKey) then InvalidFieldType else InvalidIdentifier
  {
    ReadersMean(a, ModelKey);
    if TextAt(a, ModelKey) { ModelsAreListed(a[ModelKey].text); }
    hide KnownModel;
  }

  lemma ModelsAreListed(model: string)
    ensures KnownModel(model) <==> exists i :: 0 <= i < |MODELS| && model == MODELS[i]
  {
    if model == "claude-test" { assert model == MODELS[0]; }
    if model == "claude-haiku-4-5" { assert model == MODELS[1]; }
    if model == "claude-opus-4-6" { assert model == MODELS[2]; }
    if model == "claude-sonnet-4-6" { assert model == MODELS[3]; }
    if model == "claude-opus-5" { assert model == MODELS[4]; }
    if model == "claude-sonnet-5" { assert model == MODELS[5]; }
  }

  lemma ToolsMean(a: Attributes)
    ensures CanonicalToolName(a).Ok? <==> TextOrAbsent(a, ToolNameKey)
    ensures CanonicalToolName(a).Err? ==> CanonicalToolName(a).error == InvalidIdentifier
  {
    ReadersMean(a, ToolNameKey);
    hide CategoryOf;
  }

  lemma TwoWords(a: Attributes, key: Key, one: string, other: string)
    ensures WordAt(a, key, [one, other]) <==> TextAt(a, key) && (a[key].text == one || a[key].text == other)
  {
    if TextAt(a, key) {
      if a[key].text == one { assert a[key].text == [one, other][0]; }
      if a[key].text == other { assert a[key].text == [one, other][1]; }
    }
  }

  lemma DecisionsMean(a: Attributes)
    ensures CanonicalDecision(a).Ok? <==> TextOrAbsent(a, DecisionKey) && WordAt(a, DecisionKey, ["accept", "reject"])
    ensures CanonicalDecision(a).Err? ==>
              CanonicalDecision(a).error == if TextOrAbsent(a, DecisionKey) then InvalidFieldType else InvalidIdentifier
  {
    ReadersMean(a, DecisionKey);
    TwoWords(a, DecisionKey, "accept", "reject");
    hide WordAt;
  }

  lemma TriggersMean(a: Attributes)
    ensures CanonicalTrigger(a).Ok? <==> TextOrAbsent(a, TriggerKey) && WordAt(a, TriggerKey, ["auto", "manual"])
    ensures CanonicalTrigger(a).Err? ==>
              CanonicalTrigger(a).error == if TextOrAbsent(a, TriggerKey) then InvalidFieldType else InvalidIdentifier
  {
    ReadersMean(a, TriggerKey);
    TwoWords(a, TriggerKey, "auto", "manual");
    hide WordAt;
  }

  lemma StableIdsAreShort(digest: Digest, kind: Kind, components: seq<string>)
    ensures 0 < |StableId(digest, kind, components)| <= MAX_IDENTIFIER_BYTES
  {
    PrefixesAreShort(kind);
    hide PrefixText;
  }

  lemma PrefixesAreShort(kind: Kind)
    ensures |PrefixText(kind)| <= 30
  {
  }

  /** An observation is built exactly if the duration fits and the envelope is valid. */
  lemma BuildMeans(digest: Digest, r: Record, place: Place, correlation: Correlation, activity: Activity,
                   lifecycle: Lifecycle, usage: Usage, durationMs: Option<nat>)
    ensures var m := BuildObservation(digest, r, place, correlation, activity, lifecycle, usage, durationMs);
            if durationMs.Some? && durationMs.value > r.receivedAt then m == Err(InvalidTiming)
            else if !EnvelopeFits(r) then m == Err(InvalidIdentifier)
            else m.Ok? && m.value.Mapped? && m.value.observation.activity == activity
  {
    hide StableId, NameText;
    forall kind, components ensures ValidIdentifier(StableId(digest, kind, components)) {
      StableIdsAreShort(digest, kind, components);
    }
  }

  lemma AllBuildsMean(digest: Digest, r: Record)
    ensures forall place, correlation, activity, lifecycle, usage, durationMs: Option<nat> ::
              var m := BuildObservation(digest, r, place, correlation, activity, lifecycle, usage, durationMs);
              if durationMs.Some? && durationMs.value > r.receivedAt then m == Err(InvalidTiming)
              else if !EnvelopeFits(r) then m == Err(InvalidIdentifier)
              else m.Ok? && m.value.Mapped? && m.value.observation.activity == activity
  {
    forall place, correlation, activity, lifecycle, usage, durationMs: Option<nat> {
      BuildMeans(digest, r, place, correlation, activity, lifecycle, usage, durationMs);
    }
  }

  // ----- the six builders

  lemma AllReadersMean(a: Attributes)
    ensures forall key :: RequiredString(a, key) == if TextAt(a, key) then Ok(a[key].text) else Err(InvalidIdentifier)
    ensures forall key :: OptionalU64(a, key).Ok? <==> FigureOrAbsent(a, key)
    ensures forall key :: OptionalU64(a, key).Err? ==> OptionalU64(a, key).error == InvalidTiming
    ensures forall key :: OptionalBool(a, key).Ok? <==> FlagOrAbsent(a, key)
    ensures forall key :: OptionalBool(a, key).Err? ==> OptionalBool(a, key).error == InvalidTiming
  {
    forall key
      ensures RequiredString(a, key) == if TextAt(a, key) then Ok(a[key].text) else Err(InvalidIdentifier)
      ensures OptionalU64(a, key).Ok? <==> FigureOrAbsent(a, key)
      ensures OptionalU64(a, key).Err? ==> OptionalU64(a, key).error == InvalidTiming
      ensures OptionalBool(a, key).Ok? <==> FlagOrAbsent(a, key)
      ensures OptionalBool(a, key).Err? ==> OptionalBool(a, key).error == InvalidTiming
    {
      ReadersMean(a, key);
    }
  }

  lemma DurationMeans(r: Record)
    ensures var d := OptionalU64(r.attributes, DurationMsKey);
            DurationFits(r) <==> d.Ok? && (d.value.Some? ==> d.value.value <= r.receivedAt)
  {
  }

  lemma IdentifiersOf(a: Attributes, keys: seq<Key>)
    ensures |keys| == 2 ==> (Identifiers(a, keys) <==> IdentifierAt(a, keys[0]) && IdentifierAt(a, keys[1]))
    ensures |keys| == 3 ==>
              (Identifiers(a, keys) <==> IdentifierAt(a, keys[0]) && IdentifierAt(a, keys[1]) && IdentifierAt(a, keys[2]))
    ensures |keys| == 3 ==> (Texts(a, keys) <==> TextAt(a, keys[0]) && TextAt(a, keys[1]) && TextAt(a, keys[2]))
    ensures |keys| == 2 ==> (Figures(a, keys) <==> FigureOrAbsent(a, keys[0]) && FigureOrAbsent(a, keys[1]))
    ensures |keys| == 4 ==>
              (Figures(a, keys) <==>
                 FigureOrAbsent(a, keys[0]) && FigureOrAbsent(a, keys[1]) && FigureOrAbsent(a, keys[2]) && FigureOrAbsent(a, keys[3]))
  {
  }

  lemma ChecksInTurn(checks: seq<Check>)
    ensures FirstFailure(checks) ==
              if |checks| > 0 && !checks[0].passes then Some(checks[0].otherwise)
              else if |checks| > 1 && !checks[1].passes then Some(checks[1].otherwise)
              else if |checks| > 2 && !checks[2].passes then Some(checks[2].otherwise)
              else if |checks| > 3 && !checks[3].passes then Some(checks[3].otherwise)
              else if |checks| > 4 && !checks[4].passes then Some(checks[4].otherwise)
              else if |checks| > 5 && !checks[5].passes then Some(checks[5].otherwise)
              else if |checks| > 6 then FirstFailure(checks[6..]) else None
  {
    if |checks| > 1 { assert checks[1..][0] == checks[1]; }
    if |checks| > 2 { assert checks[1..][1..] == checks[2..]; }
    if |checks| > 3 { assert checks[2..][1..] == checks[3..]; }
    if |checks| > 4 { assert checks[3..][1..] == checks[4..]; }
    if |checks| > 5 { assert checks[4..][1..] == checks[5..]; }
    if |checks| > 6 { assert checks[5..][1..] == checks[6..]; }
  }

  lemma SessionAgrees(digest: Digest, r: Record)
    ensures Agrees(SessionObservation(digest, r), VerdictFor(r, SessionSort))
  {
    AllReadersMean(r.attributes);
    ModelsMean(r.attributes);
    AllBuildsMean(digest, r);
    ChecksInTurn(ChecksOf(r, SessionSort));
    hide BuildObservation, RequiredString, CanonicalModel, ModelKnown, TextOrAbsent, FirstFailure, EnvelopeFits;
  }

  lemma TurnAgrees(digest: Digest, r: Record, lifecycle: Lifecycle)
    ensures Agrees(TurnObservation(digest, r, lifecycle), VerdictFor(r, TurnSort))
  {
    AllReadersMean(r.attributes);
    AllBuildsMean(digest, r);
    IdentifiersOf(r.attributes, [SessionIdKey, PromptIdKey]);
    ChecksInTurn(ChecksOf(r, TurnSort));
    hide BuildObservation, RequiredString, FirstFailure, EnvelopeFits, Identifiers;
  }

  lemma RequestAgrees(digest: Digest, r: Record)
    ensures Agrees(RequestObservation(digest, r), VerdictFor(r, RequestSort))
  {
    AllReadersMean(r.attributes);
    ModelsMean(r.attributes);
    DurationMeans(r);
    AllBuildsMean(digest, r);
    IdentifiersOf(r.attributes, [SessionIdKey, PromptIdKey, RequestIdKey]);
    IdentifiersOf(r.attributes, [InputTokensKey, OutputTokensKey, CacheReadTokensKey, CacheCreationTokensKey]);
    ChecksInTurn(ChecksOf(r, RequestSort));
    hide BuildObservation, RequiredString, OptionalU64, OptionalBool, CanonicalModel, ModelKnown, TextOrAbsent, FirstFailure,
         EnvelopeFits, Identifiers, Texts, Figures, DurationFits, FigureOrAbsent, FlagOrAbsent;
  }

  lemma ToolAgrees(digest: Digest, r: Record)
    ensures Agrees(ToolObservation(digest, r), VerdictFor(r, ToolSort))
  {
    AllReadersMean(r.attributes);
    ToolsMean(r.attributes);
    DurationMeans(r);
    AllBuildsMean(digest, r);
    IdentifiersOf(r.attributes, [SessionIdKey, PromptIdKey, ToolUseIdKey]);
    ChecksInTurn(ChecksOf(r, ToolSort));
    hide BuildObservation, RequiredString, OptionalU64, OptionalBool, CanonicalToolName, TextOrAbsent, FirstFailure,
         EnvelopeFits, Identifiers, Texts, Figures, DurationFits, FigureOrAbsent, FlagOrAbsent;
  }

  lemma PermissionAgrees(digest: Digest, r: Record)
    ensures Agrees(PermissionObservation(digest, r), VerdictFor(r, PermissionSort))
  {
    AllReadersMean(r.attributes);
    DecisionsMean(r.attributes);
    AllBuildsMean(digest, r);
    IdentifiersOf(r.attributes, [SessionIdKey, PromptIdKey, ToolUseIdKey]);
    ChecksInTurn(ChecksOf(r, PermissionSort));
    hide BuildObservation, RequiredString, CanonicalDecision, TextOrAbsent, WordAt, FirstFailure, EnvelopeFits, Identifiers,
         Texts, Figures;
  }

  lemma CompactionAgrees(digest: Digest, r: Record)
    ensures Agrees(CompactionObservation(digest, r), VerdictFor(r, CompactionSort))
  {
    AllReadersMean(r.attributes);
    TriggersMean(r.attributes);
    DurationMeans(r);
    AllBuildsMean(digest, r);
    IdentifiersOf(r.attributes, [SessionIdKey, PromptIdKey, CompactionIdKey]);
    IdentifiersOf(r.attributes, [PreTokensKey, PostTokensKey]);
    ChecksInTurn(ChecksOf(r, CompactionSort));
    hide BuildObservation, RequiredString, OptionalU64, OptionalBool, CanonicalTrigger, TextOrAbsent, WordAt, FirstFailure,
         EnvelopeFits, Identifiers, Texts, Figures, DurationFits, FigureOrAbsent, FlagOrAbsent;
  }

  /** A record becomes an observation of its sort exactly when every check passes, and otherwise the diagnostic of the
      first that fails; a record of no sort is refused by what it is about. */
  lemma MappingAgrees(digest: Digest, r: Record)
    ensures Agrees(ObservationFromRecord(digest, r), VerdictOf(r))
  {
    hide SessionObservation, TurnObservation, RequestObservation, ToolObservation, PermissionObservation,
         CompactionObservation, VerdictFor;
    SessionAgrees(digest, r);
    TurnAgrees(digest, r, Running);
    TurnAgrees(digest, r, Completed);
    TurnAgrees(digest, r, Failed);
    RequestAgrees(digest, r);
    ToolAgrees(digest, r);
    PermissionAgrees(digest, r);
    CompactionAgrees(digest, r);
  }

  /** Item by item, what an accepted parse makes of its records: a refused record is a diagnostic with its reason, on
      its line and with its checkpoint; an accepted one is its observation, or is suppressed as a repetition of an
      earlier item, with the hash it shares. */
  lemma EveryItemIsAccountedFor(env: Env, lines: seq<string>, k: nat)
    requires ParseLines(env, lines).Ok? && k < |ParseLines(env, lines).value.items|
    ensures k < |Records(env, lines)|
    ensures var items, n := ParseLines(env, lines).value.items, Records(env, lines)[k];
            var checkpoint := Checkpoint(n.record.generation, n.record.previous, n.record.cursor);
            match VerdictOf(n.record)
            case Refused(code) => items[k] == Disposed(n.line, code, checkpoint, Diagnostic, None)
            case Accepted(sort) =>
              if items[k].Kept? then IsOfSort(items[k].observation.activity, sort)
              else items[k] == Disposed(n.line, DuplicateObservation, checkpoint, Suppressed, items[k].payloadHash)
                   && items[k].payloadHash.Some?
                   && exists i :: 0 <= i < k && items[i].Kept? && env.payloadHash(items[i].observation) == items[k].payloadHash
  {
    hide ParseLines, Records, ObservationFromRecord, VerdictOf;
    OneItemPerRecord(env, lines);
    DuplicatesAreExact(env, lines);
    var items, n := ParseLines(env, lines).value.items, Records(env, lines)[k];
    MappingAgrees(env.digest, n.record);
    NeverCalledDuplicate(n.record);
    assert ItemFits(env, items[k], n) && DuplicateExactly(env, items, k, n.record);
  }

  lemma NeverCalledDuplicate(r: Record)
    ensures VerdictOf(r) != Refused(DuplicateObservation)
  {
    if SortOf(r).Some? { ChecksInTurn(ChecksOf(r, SortOf(r).value)); }
    hide FirstFailure, IdentifierAt, Identifiers, Texts, Figures, ModelKnown, WordAt, DurationFits;
  }
}
