/** The spans that the handoff adapter derives form a forest: sessions, their turns, and what happens in a turn. */
module HandoffForest {
  import opened Common
  import opened HandoffIdentity
  import opened HandoffMapping

  // ----- every observation is derived from its subject

  predicate DerivedIfMapped(digest: Digest, r: Record, m: MappingResult) {
    m.Ok? && m.value.Mapped? ==> Derived(digest, r, m.value.observation)
  }

  lemma SessionIsDerived(digest: Digest, r: Record)
    ensures DerivedIfMapped(digest, r, SessionObservation(digest, r))
  {
    hide BuildObservation, Derived, CanonicalModel;
    var session := RequiredString(r.attributes, SessionIdKey);
    var model := CanonicalModel(r.attributes);
    if session.Ok? && ValidIdentifier(session.value) && model.Ok? {
      BuildDerives(digest, r, OfSession(session.value), Correlation(session.value, None, None, None, None, None),
                   SessionActivity(model.value), Running, NO_USAGE, None);
    }
  }

  lemma TurnIsDerived(digest: Digest, r: Record, lifecycle: Lifecycle)
    ensures DerivedIfMapped(digest, r, TurnObservation(digest, r, lifecycle))
  {
    hide BuildObservation, Derived;
    var session, turn := RequiredString(r.attributes, SessionIdKey), RequiredString(r.attributes, PromptIdKey);
    if session.Ok? && turn.Ok? && ValidIdentifier(session.value) && ValidIdentifier(turn.value) {
      BuildDerives(digest, r, OfTurn(session.value, turn.value),
                   Correlation(session.value, Some(turn.value), None, None, None, None), TurnActivity, lifecycle,
                   NO_USAGE, None);
    }
  }

  /** The four builders below the turn differ in their third identifier only as far as the forest goes. */
  lemma LeafIsDerived(digest: Digest, r: Record, s: Subject, c: Correlation, activity: Activity, lifecycle: Lifecycle,
                      usage: Usage, durationMs: Option<nat>, place: Place)
    requires s == SubjectOf(c) && BoundedSubject(s) && place == PlaceOf(s)
    ensures DerivedIfMapped(digest, r, BuildObservation(digest, r, place, c, activity, lifecycle, usage, durationMs))
  {
    hide BuildObservation, Derived;
    BuildDerives(digest, r, s, c, activity, lifecycle, usage, durationMs);
  }

  lemma RequestIsDerived(digest: Digest, r: Record)
    ensures DerivedIfMapped(digest, r, RequestObservation(digest, r))
  {
    hide BuildObservation, Derived, CanonicalModel, OptionalU64, OptionalBool;
    var m := RequestObservation(digest, r);
    if m.Ok? {
      var session, turn, request := r.attributes[SessionIdKey].text, r.attributes[PromptIdKey].text,
                                    r.attributes[RequestIdKey].text;
      LeafIsDerived(digest, r, OfRequest(session, turn, request),
                    Correlation(session, Some(turn), Some(request), None, None, None),
                    ModelRequest(CanonicalModel(r.attributes).value),
                    LifecycleFromSuccess(OptionalBool(r.attributes, SuccessKey).value),
                    Usage(OptionalU64(r.attributes, InputTokensKey).value, OptionalU64(r.attributes, OutputTokensKey).value,
                          OptionalU64(r.attributes, CacheReadTokensKey).value,
                          OptionalU64(r.attributes, CacheCreationTokensKey).value, None, None),
                    OptionalU64(r.attributes, DurationMsKey).value, Place(session, Some(turn), "request:" + request));
    }
  }

  lemma ToolIsDerived(digest: Digest, r: Record)
    ensures DerivedIfMapped(digest, r, ToolObservation(digest, r))
  {
    hide BuildObservation, Derived, CanonicalToolName, OptionalU64, OptionalBool;
    var m := ToolObservation(digest, r);
    if m.Ok? {
      var session, turn, operation := r.attributes[SessionIdKey].text, r.attributes[PromptIdKey].text,
                                      r.attributes[ToolUseIdKey].text;
      LeafIsDerived(digest, r, OfTool(session, turn, operation),
                    Correlation(session, Some(turn), None, Some(operation), None, None),
                    ToolOperation(CanonicalToolName(r.attributes).value),
                    LifecycleFromSuccess(OptionalBool(r.attributes, SuccessKey).value), NO_USAGE,
                    OptionalU64(r.attributes, DurationMsKey).value, Place(session, Some(turn), "tool:" + operation));
    }
  }

  lemma PermissionIsDerived(digest: Digest, r: Record)
    ensures DerivedIfMapped(digest, r, PermissionObservation(digest, r))
  {
    hide BuildObservation, Derived, CanonicalDecision;
    var m := PermissionObservation(digest, r);
    if m.Ok? {
      var session, turn, permission := r.attributes[SessionIdKey].text, r.attributes[PromptIdKey].text,
                                       r.attributes[ToolUseIdKey].text;
      var decision := CanonicalDecision(r.attributes).value;
      LeafIsDerived(digest, r, OfPermission(session, turn, permission),
                    Correlation(session, Some(turn), None, None, Some(permission), None), Permission(decision),
                    if decision.Denied? then Failed else Completed, NO_USAGE, None,
                    Place(session, Some(turn), "permission:" + permission));
    }
  }

  lemma CompactionIsDerived(digest: Digest, r: Record)
    ensures DerivedIfMapped(digest, r, CompactionObservation(digest, r))
  {
    hide BuildObservation, Derived, CanonicalTrigger, OptionalU64, OptionalBool;
    var m := CompactionObservation(digest, r);
    if m.Ok? {
      var session, turn, compaction := r.attributes[SessionIdKey].text, r.attributes[PromptIdKey].text,
                                       r.attributes[CompactionIdKey].text;
      LeafIsDerived(digest, r, OfCompaction(session, turn, compaction),
                    Correlation(session, Some(turn), None, None, None, Some(compaction)),
                    Compaction(CanonicalTrigger(r.attributes).value),
                    LifecycleFromSuccess(OptionalBool(r.attributes, SuccessKey).value),
                    Usage(None, None, None, None, OptionalU64(r.attributes, PreTokensKey).value,
                          OptionalU64(r.attributes, PostTokensKey).value),
                    OptionalU64(r.attributes, DurationMsKey).value, Place(session, Some(turn), "compaction:" + compaction));
    }
  }

  /** Whatever the event, the identifiers of the observation are those of its session, turn and item, and its
      parent is the enclosing turn or session. */
  lemma EveryObservationIsDerived(digest: Digest, r: Record)
    ensures DerivedIfMapped(digest, r, ObservationFromRecord(digest, r))
  {
    hide SessionObservation, TurnObservation, RequestObservation, ToolObservation, PermissionObservation,
         CompactionObservation, Derived;
    SessionIsDerived(digest, r);
    TurnIsDerived(digest, r, Running);
    TurnIsDerived(digest, r, Completed);
    TurnIsDerived(digest, r, Failed);
    RequestIsDerived(digest, r);
    ToolIsDerived(digest, r);
    PermissionIsDerived(digest, r);
    CompactionIsDerived(digest, r);
  }

  // ----- equal spans, equal subjects

  function SpanComponents(s: Subject): seq<string> {
    match s
    case OfSession(session) => [session]
    case OfTurn(session, turn) => [session, turn]
    case _ => [s.session, s.turn, PlaceOf(s).leaf]
  }

  function SpanKindOf(s: Subject): Kind {
    match s
    case OfSession(_) => SessionKind
    case OfTurn(_, _) => TurnKind
    case _ => SpanKind
  }

  lemma SpanIsStable(digest: Digest, s: Subject)
    requires BoundedSubject(s)
    ensures SubjectSpan(digest, s) == StableId(digest, SpanKindOf(s), SpanComponents(s))
    ensures Sized(SpanComponents(s))
  {
    hide StableId;
    if !s.OfSession? && !s.OfTurn? { assert PlaceOf(s).leaf[1] != TURN_LEAF[1]; }
  }

  /** What is below a turn keeps its sort and its identifier in the leaf. */
  lemma LeafIsInjective(s: Subject, t: Subject)
    requires !s.OfSession? && !s.OfTurn? && !t.OfSession? && !t.OfTurn?
    requires PlaceOf(s) == PlaceOf(t)
    ensures s == t
  {
    assert PlaceOf(s).leaf[0] == PlaceOf(t).leaf[0];
    var n := if s.OfRequest? then 8 else if s.OfTool? then 5 else 11;
    assert PlaceOf(s).leaf[n..] == s.id && PlaceOf(t).leaf[n..] == t.id;
  }

  /** Two subjects share a span only if they are the same subject, unless the digest collides on them. */
  lemma SpanIdentifiesSubject(digest: Digest, s: Subject, t: Subject)
    requires BoundedSubject(s) && BoundedSubject(t)
    requires SubjectSpan(digest, s) == SubjectSpan(digest, t)
    ensures s == t || Collide(digest, SpanComponents(s), SpanComponents(t))
  {
    SpanIsStable(digest, s);
    SpanIsStable(digest, t);
    StableIdIsInjective(digest, SpanKindOf(s), SpanComponents(s), SpanKindOf(t), SpanComponents(t));
    if SpanComponents(s) == SpanComponents(t) {
      assert s.session == SpanComponents(s)[0] && t.session == SpanComponents(t)[0];
      if !s.OfSession? { assert s.turn == SpanComponents(s)[1] && t.turn == SpanComponents(t)[1]; }
      if !s.OfSession? && !s.OfTurn? {
        assert PlaceOf(s).leaf == SpanComponents(s)[2] && PlaceOf(t).leaf == SpanComponents(t)[2];
        LeafIsInjective(s, t);
      }
    }
  }

  /** Observations are in one trace exactly when they are of one session, unless the digest collides. */
  lemma TraceIdentifiesSession(digest: Digest, s: Subject, t: Subject)
    requires BoundedSubject(s) && BoundedSubject(t)
    ensures s.session == t.session ==> TraceOf(digest, PlaceOf(s)) == TraceOf(digest, PlaceOf(t))
    ensures TraceOf(digest, PlaceOf(s)) == TraceOf(digest, PlaceOf(t)) ==>
              s.session == t.session || Collide(digest, [s.session], [t.session])
  {
    hide StableId;
    if TraceOf(digest, PlaceOf(s)) == TraceOf(digest, PlaceOf(t)) {
      StableIdIsInjective(digest, TraceKind, [s.session], TraceKind, [t.session]);
    }
  }

  /** The parent of one observation is the span of another exactly when the other's subject encloses it, again
      unless the digest collides; and the two are then in one trace. */
  lemma ParentIsEncloser(digest: Digest, s: Subject, t: Subject)
    requires BoundedSubject(s) && BoundedSubject(t) && Encloser(s).Some?
    ensures BoundedSubject(Encloser(s).value)
    ensures Encloser(s) == Some(t) ==>
              SubjectSpan(digest, Encloser(s).value) == SubjectSpan(digest, t) && TraceOf(digest, PlaceOf(s)) == TraceOf(digest, PlaceOf(t))
    ensures SubjectSpan(digest, Encloser(s).value) == SubjectSpan(digest, t) ==>
              || (Encloser(s) == Some(t) && TraceOf(digest, PlaceOf(s)) == TraceOf(digest, PlaceOf(t)))
              || Collide(digest, SpanComponents(Encloser(s).value), SpanComponents(t))
  {
    if SubjectSpan(digest, Encloser(s).value) == SubjectSpan(digest, t) {
      SpanIdentifiesSubject(digest, Encloser(s).value, t);
    }
  }

  // ----- depth, from the text alone

  function Depth(id: string): (d: nat)
    ensures d <= 2
  {
    if OfKind(id, SessionKind) then 0 else if OfKind(id, TurnKind) then 1 else 2
  }

  /** One step to the parent is one step up, and sessions have none. No assumption on the digest is needed: the
      prefixes decide. */
  lemma ParentIsOneUp(digest: Digest, r: Record, o: Observation)
    requires Derived(digest, r, o)
    ensures o.parentSpanId.None? <==> Depth(o.spanId) == 0
    ensures o.parentSpanId.Some? ==> Depth(o.parentSpanId.value) == Depth(o.spanId) - 1
  {
    var s := SubjectOf(o.correlation);
    SubjectDepth(digest, s);
    if Encloser(s).Some? { SubjectDepth(digest, Encloser(s).value); }
  }

  lemma SubjectDepth(digest: Digest, s: Subject)
    requires BoundedSubject(s)
    ensures Depth(SubjectSpan(digest, s)) == if s.OfSession? then 0 else if s.OfTurn? then 1 else 2
  {
    hide PrefixText;
    SpanIsStable(digest, s);
    var id := SubjectSpan(digest, s);
    assert OfKind(id, SpanKindOf(s));
    if OfKind(id, SessionKind) { KindIsReadable(id, SessionKind, SpanKindOf(s)); }
    if OfKind(id, TurnKind) { KindIsReadable(id, TurnKind, SpanKindOf(s)); }
  }

  /** Some record gives this observation. */
  ghost predicate IsDerived(digest: Digest, o: Observation) { exists r :: Derived(digest, r, o) }

  /** Each observation is the parent of the one before. */
  ghost predicate ParentChain(digest: Digest, chain: seq<Observation>) {
    && (forall i :: 0 <= i < |chain| ==> IsDerived(digest, chain[i]))
    && (forall i :: 0 <= i < |chain| - 1 ==> chain[i].parentSpanId == Some(chain[i + 1].spanId))
  }

  lemma ParentOfDerivedIsOneUp(digest: Digest, o: Observation)
    requires IsDerived(digest, o) && o.parentSpanId.Some?
    ensures Depth(o.spanId) == Depth(o.parentSpanId.value) + 1
  {
    hide Depth, Derived;
    var r :| Derived(digest, r, o);
    ParentIsOneUp(digest, r, o);
  }

  /** Following parents ends after at most two steps; in particular there is no cycle. */
  lemma {:induction false} ParentChainsAreShort(digest: Digest, chain: seq<Observation>)
    requires ParentChain(digest, chain)
    ensures |chain| <= 3
    ensures forall i, j :: 0 <= i < j < |chain| ==> chain[i].spanId != chain[j].spanId
  {
    hide Depth, Derived;
    forall i | 0 <= i < |chain| - 1 ensures Depth(chain[i].spanId) == Depth(chain[i + 1].spanId) + 1 {
      assert chain[i].parentSpanId == Some(chain[i + 1].spanId);
      ParentOfDerivedIsOneUp(digest, chain[i]);
    }
    if |chain| > 1 { DepthsFall(chain, 0, |chain| - 1); }
    forall i, j | 0 <= i < j < |chain| ensures Depth(chain[i].spanId) > Depth(chain[j].spanId) {
      DepthsFall(chain, i, j);
    }
  }

  lemma {:induction false} DepthsFall(chain: seq<Observation>, i: nat, j: nat)
    requires i < j < |chain|
    requires forall k :: 0 <= k < |chain| - 1 ==> Depth(chain[k].spanId) == Depth(chain[k + 1].spanId) + 1
    ensures Depth(chain[i].spanId) == Depth(chain[j].spanId) + (j - i)
  {
    assert Depth(chain[j - 1].spanId) == Depth(chain[j - 1 + 1].spanId) + 1;
    if i < j - 1 { DepthsFall(chain, i, j - 1); }
  }

  // ----- what the adapter never reads, and how it can fail

  predicate IsRead(key: Key) { !key.UnreadKey? }

  ghost predicate SameReadAttributes(a: Attributes, b: Attributes) {
    forall key: Key :: IsRead(key) ==> (key in a <==> key in b) && (key in a ==> a[key] == b[key])
  }

  /** A failure is one of those that become a diagnostic, and mapping alone never calls a record a duplicate. */
  predicate Curable(m: MappingResult) {
    match m
    case Ok(mapping) => mapping != Diagnosed(DuplicateObservation)
    case Err(error) => error.InvalidIdentifier? || error.InvalidTiming? || error.InvalidFieldType?
  }

  lemma ReadersAgree(a: Attributes, b: Attributes, key: Key)
    requires SameReadAttributes(a, b) && IsRead(key)
    ensures OptionalString(a, key) == OptionalString(b, key) && RequiredString(a, key) == RequiredString(b, key)
    ensures OptionalU64(a, key) == OptionalU64(b, key) && OptionalBool(a, key) == OptionalBool(b, key)
  {
  }

  lemma WordsAgree(a: Attributes, b: Attributes)
    requires SameReadAttributes(a, b)
    ensures CanonicalModel(a) == CanonicalModel(b) && CanonicalToolName(a) == CanonicalToolName(b)
    ensures CanonicalDecision(a) == CanonicalDecision(b) && CanonicalTrigger(a) == CanonicalTrigger(b)
  {
    hide OptionalString, KnownModel, CategoryOf;
    forall key | IsRead(key) ensures OptionalString(a, key) == OptionalString(b, key) { ReadersAgree(a, b, key); }
  }

  lemma BuildIgnoresAttributes(digest: Digest, r: Record, a: Attributes, place: Place, correlation: Correlation,
                               activity: Activity, lifecycle: Lifecycle, usage: Usage, durationMs: Option<nat>)
    ensures var m := BuildObservation(digest, r, place, correlation, activity, lifecycle, usage, durationMs);
            && Curable(m)
            && BuildObservation(digest, r.(attributes := a), place, correlation, activity, lifecycle, usage, durationMs) == m
  {
    hide StableId, NameText, TraceOf, SpanOf, ParentOf;
  }

  lemma ReadersAll(a: Attributes, b: Attributes)
    requires SameReadAttributes(a, b)
    ensures forall key: Key :: IsRead(key) ==> RequiredString(a, key) == RequiredString(b, key)
    ensures forall key: Key :: IsRead(key) ==> OptionalU64(a, key) == OptionalU64(b, key)
    ensures forall key: Key :: IsRead(key) ==> OptionalBool(a, key) == OptionalBool(b, key)
    ensures forall key: Key :: RequiredString(a, key).Err? ==> RequiredString(a, key).error.InvalidIdentifier?
    ensures forall key: Key :: OptionalU64(a, key).Err? ==> OptionalU64(a, key).error.InvalidTiming?
    ensures forall key: Key :: OptionalBool(a, key).Err? ==> OptionalBool(a, key).error.InvalidTiming?
  {
    forall key: Key | IsRead(key)
      ensures RequiredString(a, key) == RequiredString(b, key)
      ensures OptionalU64(a, key) == OptionalU64(b, key)
      ensures OptionalBool(a, key) == OptionalBool(b, key)
    {
      ReadersAgree(a, b, key);
    }
  }

  lemma WordsFailCurably(a: Attributes)
    ensures CanonicalModel(a).Err? ==> CanonicalModel(a).error.InvalidIdentifier? || CanonicalModel(a).error.InvalidFieldType?
    ensures CanonicalToolName(a).Err? ==> CanonicalToolName(a).error.InvalidIdentifier?
    ensures CanonicalDecision(a).Err? ==>
              CanonicalDecision(a).error.InvalidIdentifier? || CanonicalDecision(a).error.InvalidFieldType?
    ensures CanonicalTrigger(a).Err? ==>
              CanonicalTrigger(a).error.InvalidIdentifier? || CanonicalTrigger(a).error.InvalidFieldType?
  {
    hide KnownModel, CategoryOf;
  }

  /** A record stripped of its attributes is all that building still looks at. */
  lemma BuildAll(digest: Digest, r: Record, a: Attributes)
    ensures forall place, correlation, activity, lifecycle, usage, durationMs ::
              Curable(BuildObservation(digest, r, place, correlation, activity, lifecycle, usage, durationMs))
    ensures forall place, correlation, activity, lifecycle, usage, durationMs ::
              BuildObservation(digest, r.(attributes := a), place, correlation, activity, lifecycle, usage, durationMs)
              == BuildObservation(digest, r, place, correlation, activity, lifecycle, usage, durationMs)
  {
    forall place, correlation, activity, lifecycle, usage, durationMs
      ensures Curable(BuildObservation(digest, r, place, correlation, activity, lifecycle, usage, durationMs))
      ensures BuildObservation(digest, r.(attributes := a), place, correlation, activity, lifecycle, usage, durationMs)
              == BuildObservation(digest, r, place, correlation, activity, lifecycle, usage, durationMs)
    {
      BuildIgnoresAttributes(digest, r, a, place, correlation, activity, lifecycle, usage, durationMs);
    }
  }

  lemma SessionLeavesNoTrace(digest: Digest, r: Record, a: Attributes)
    requires SameReadAttributes(r.attributes, a)
    ensures SessionObservation(digest, r.(attributes := a)) == SessionObservation(digest, r) && Curable(SessionObservation(digest, r))
  {
    hide BuildObservation, OptionalString, RequiredString, OptionalU64, OptionalBool, SameReadAttributes,
         CanonicalModel, CanonicalToolName, CanonicalDecision, CanonicalTrigger;
    ReadersAll(r.attributes, a);
    WordsAgree(r.attributes, a);
    WordsFailCurably(r.attributes);
    BuildAll(digest, r, a);
  }

  lemma RequestLeavesNoTrace(digest: Digest, r: Record, a: Attributes)
    requires SameReadAttributes(r.attributes, a)
    ensures RequestObservation(digest, r.(attributes := a)) == RequestObservation(digest, r) && Curable(RequestObservation(digest, r))
  {
    hide BuildObservation, OptionalString, RequiredString, OptionalU64, OptionalBool, SameReadAttributes,
         CanonicalModel, CanonicalToolName, CanonicalDecision, CanonicalTrigger;
    ReadersAll(r.attributes, a);
    WordsAgree(r.attributes, a);
    WordsFailCurably(r.attributes);
    BuildAll(digest, r, a);
  }

  lemma ToolLeavesNoTrace(digest: Digest, r: Record, a: Attributes)
    requires SameReadAttributes(r.attributes, a)
    ensures ToolObservation(digest, r.(attributes := a)) == ToolObservation(digest, r) && Curable(ToolObservation(digest, r))
  {
    hide BuildObservation, OptionalString, RequiredString, OptionalU64, OptionalBool, SameReadAttributes,
         CanonicalModel, CanonicalToolName, CanonicalDecision, CanonicalTrigger;
    ReadersAll(r.attributes, a);
    WordsAgree(r.attributes, a);
    WordsFailCurably(r.attributes);
    BuildAll(digest, r, a);
  }

  lemma PermissionLeavesNoTrace(digest: Digest, r: Record, a: Attributes)
    requires SameReadAttributes(r.attributes, a)
    ensures PermissionObservation(digest, r.(attributes := a)) == PermissionObservation(digest, r) && Curable(PermissionObservation(digest, r))
  {
    hide BuildObservation, OptionalString, RequiredString, OptionalU64, OptionalBool, SameReadAttributes,
         CanonicalModel, CanonicalToolName, CanonicalDecision, CanonicalTrigger;
    ReadersAll(r.attributes, a);
    WordsAgree(r.attributes, a);
    WordsFailCurably(r.attributes);
    BuildAll(digest, r, a);
  }

  lemma CompactionLeavesNoTrace(digest: Digest, r: Record, a: Attributes)
    requires SameReadAttributes(r.attributes, a)
    ensures CompactionObservation(digest, r.(attributes := a)) == CompactionObservation(digest, r) && Curable(CompactionObservation(digest, r))
  {
    hide BuildObservation, OptionalString, RequiredString, OptionalU64, OptionalBool, SameReadAttributes,
         CanonicalModel, CanonicalToolName, CanonicalDecision, CanonicalTrigger;
    ReadersAll(r.attributes, a);
    WordsAgree(r.attributes, a);
    WordsFailCurably(r.attributes);
    BuildAll(digest, r, a);
  }

  lemma TurnLeavesNoTrace(digest: Digest, r: Record, a: Attributes, lifecycle: Lifecycle)
    requires SameReadAttributes(r.attributes, a)
    ensures TurnObservation(digest, r.(attributes := a), lifecycle) == TurnObservation(digest, r, lifecycle) && Curable(TurnObservation(digest, r, lifecycle))
  {
    hide BuildObservation, OptionalString, RequiredString, OptionalU64, OptionalBool, SameReadAttributes,
         CanonicalModel, CanonicalToolName, CanonicalDecision, CanonicalTrigger;
    ReadersAll(r.attributes, a);
    WordsAgree(r.attributes, a);
    WordsFailCurably(r.attributes);
    BuildAll(digest, r, a);
  }

  /** Two records that differ only in attributes outside the adapter's list are mapped alike: nothing of any other
      attribute reaches an observation or a diagnostic. And mapping a record can only fail in the ways that become
      a diagnostic. */
  lemma OtherAttributesLeaveNoTrace(digest: Digest, r: Record, a: Attributes)
    requires SameReadAttributes(r.attributes, a)
    ensures ObservationFromRecord(digest, r.(attributes := a)) == ObservationFromRecord(digest, r)
    ensures Curable(ObservationFromRecord(digest, r))
  {
    hide SessionObservation, TurnObservation, RequestObservation, ToolObservation, PermissionObservation,
         CompactionObservation;
    SessionLeavesNoTrace(digest, r, a);
    TurnLeavesNoTrace(digest, r, a, Running);
    TurnLeavesNoTrace(digest, r, a, Completed);
    TurnLeavesNoTrace(digest, r, a, Failed);
    RequestLeavesNoTrace(digest, r, a);
    ToolLeavesNoTrace(digest, r, a);
    PermissionLeavesNoTrace(digest, r, a);
    CompactionLeavesNoTrace(digest, r, a);
  }

  // ----- what an observation says

  function NumberAt(a: Attributes, key: Key): Option<nat> {
    if key in a && a[key].Number? then a[key].asU64 else None
  }

  function TextAt(a: Attributes, key: Key): Option<string> {
    if key in a && a[key].Text? then Some(a[key].text) else None
  }

  function OutcomeAt(a: Attributes): Lifecycle {
    if SuccessKey !in a then Observed else if a[SuccessKey] == Boolean(false) then Failed else Completed
  }

  /** The attributes that a figure or an outcome is read from, whichever event the record is of. */
  predicate SaysTheRecord(r: Record, o: Observation) {
    var a, c := r.attributes, o.correlation;
    && Some(c.session) == TextAt(a, SessionIdKey)
    && (c.turn.Some? ==> c.turn == TextAt(a, PromptIdKey))
    && (c.request.Some? ==> c.request == TextAt(a, RequestIdKey))
    && (c.operation.Some? ==> c.operation == TextAt(a, ToolUseIdKey))
    && (c.permission.Some? ==> c.permission == TextAt(a, ToolUseIdKey))
    && (c.compaction.Some? ==> c.compaction == TextAt(a, CompactionIdKey))
    && o.endMs == r.receivedAt
    && match o.activity
       case SessionActivity(model) =>
         && r.event.SessionStart? && o.lifecycle == Running
         && model == TextAt(a, ModelKey) && (model.Some? ==> KnownModel(model.value))
       case TurnActivity =>
         if r.event.UserPrompt? then o.lifecycle == Running
         else if r.event.Stop? then o.lifecycle == Completed
         else r.event.StopFailure? && o.lifecycle == Failed
       case ModelRequest(model) =>
         && r.event.ApiRequest? && o.lifecycle == OutcomeAt(a) && Lasts(a, o)
         && model == TextAt(a, ModelKey) && (model.Some? ==> KnownModel(model.value))
         && o.usage == Usage(NumberAt(a, InputTokensKey), NumberAt(a, OutputTokensKey), NumberAt(a, CacheReadTokensKey),
                             NumberAt(a, CacheCreationTokensKey), None, None)
       case ToolOperation(tool) =>
         && r.event.ToolResult? && o.lifecycle == OutcomeAt(a) && Lasts(a, o)
         && tool == (match TextAt(a, ToolNameKey) case Some(name) => Some(CategoryOf(name)) case None => None)
       case Permission(decision) =>
         && r.event.ToolDecision?
         && TextAt(a, DecisionKey) == Some(if decision.Approved? then "accept" else "reject")
         && o.lifecycle == if decision.Denied? then Failed else Completed
       case Compaction(trigger) =>
         && r.event.CompactionEvent? && o.lifecycle == OutcomeAt(a) && Lasts(a, o)
         && TextAt(a, TriggerKey) == Some(if trigger.Auto? then "auto" else "manual")
         && o.usage == Usage(None, None, None, None, NumberAt(a, PreTokensKey), NumberAt(a, PostTokensKey))
  }

  /** The observation ends when the record was received and lasts as long as the record says. */
  predicate Lasts(a: Attributes, o: Observation) {
    o.endMs - o.startMs == if NumberAt(a, DurationMsKey).Some? then NumberAt(a, DurationMsKey).value else 0
  }

  predicate SaysIfMapped(r: Record, m: MappingResult) {
    m.Ok? && m.value.Mapped? ==> SaysTheRecord(r, m.value.observation)
  }

  lemma BuildSays(digest: Digest, r: Record, place: Place, correlation: Correlation, activity: Activity,
                  lifecycle: Lifecycle, usage: Usage, durationMs: Option<nat>)
    ensures var m := BuildObservation(digest, r, place, correlation, activity, lifecycle, usage, durationMs);
            m.Ok? ==>
              && m.value.Mapped?
              && var o := m.value.observation;
                 && o.correlation == correlation && o.activity == activity && o.lifecycle == lifecycle && o.usage == usage
                 && o.endMs == r.receivedAt && o.endMs - o.startMs == if durationMs.Some? then durationMs.value else 0
  {
    hide StableId, NameText, TraceOf, SpanOf, ParentOf;
  }

  lemma AllBuildsSay(digest: Digest, r: Record)
    ensures forall place, correlation, activity, lifecycle, usage, durationMs ::
              var m := BuildObservation(digest, r, place, correlation, activity, lifecycle, usage, durationMs);
              m.Ok? ==>
                && m.value.Mapped?
                && var o := m.value.observation;
                   && o.correlation == correlation && o.activity == activity && o.lifecycle == lifecycle && o.usage == usage
                   && o.endMs == r.receivedAt && o.endMs - o.startMs == if durationMs.Some? then durationMs.value else 0
  {
    forall place, correlation, activity, lifecycle, usage, durationMs {
      BuildSays(digest, r, place, correlation, activity, lifecycle, usage, durationMs);
    }
  }

  lemma SessionSays(digest: Digest, r: Record)
    requires r.event.SessionStart?
    ensures SaysIfMapped(r, SessionObservation(digest, r))
  {
    AllBuildsSay(digest, r);
    hide BuildObservation, KnownModel;
  }

  lemma TurnSays(digest: Digest, r: Record, lifecycle: Lifecycle)
    requires match r.event
             case UserPrompt => lifecycle == Running
             case Stop => lifecycle == Completed
             case StopFailure => lifecycle == Failed
             case _ => false
    ensures SaysIfMapped(r, TurnObservation(digest, r, lifecycle))
  {
    AllBuildsSay(digest, r);
    hide BuildObservation;
  }

  lemma RequestSays(digest: Digest, r: Record)
    requires r.event.ApiRequest?
    ensures SaysIfMapped(r, RequestObservation(digest, r))
  {
    AllBuildsSay(digest, r);
    hide BuildObservation, KnownModel;
  }

  lemma ToolSays(digest: Digest, r: Record)
    requires r.event.ToolResult?
    ensures SaysIfMapped(r, ToolObservation(digest, r))
  {
    AllBuildsSay(digest, r);
    hide BuildObservation, CategoryOf;
  }

  lemma PermissionSays(digest: Digest, r: Record)
    requires r.event.ToolDecision?
    ensures SaysIfMapped(r, PermissionObservation(digest, r))
  {
    AllBuildsSay(digest, r);
    hide BuildObservation;
  }

  lemma CompactionSays(digest: Digest, r: Record)
    requires r.event.CompactionEvent?
    ensures SaysIfMapped(r, CompactionObservation(digest, r))
  {
    AllBuildsSay(digest, r);
    hide BuildObservation;
  }

  /** Whatever the event, every identifier, figure and outcome of an observation is the one its record gives under
      the attribute of that name. */
  lemma EveryObservationSaysTheRecord(digest: Digest, r: Record)
    ensures SaysIfMapped(r, ObservationFromRecord(digest, r))
  {
    hide SessionObservation, TurnObservation, RequestObservation, ToolObservation, PermissionObservation,
         CompactionObservation, SaysTheRecord, KnownModel, CategoryOf;
    match r.event
    case SessionStart => SessionSays(digest, r);
    case UserPrompt => TurnSays(digest, r, Running);
    case Stop => TurnSays(digest, r, Completed);
    case StopFailure => TurnSays(digest, r, Failed);
    case ApiRequest => RequestSays(digest, r);
    case ToolResult => ToolSays(digest, r);
    case ToolDecision => PermissionSays(digest, r);
    case CompactionEvent => CompactionSays(digest, r);
    case _ =>
  }

  // ----- tool categories by name

  /** The tools of a category; every other tool is of no known one. */
  function ToolsOf(category: ToolCategory): seq<string> {
    match category
    case Shell => ["Bash", "PowerShell"]
    case FileEdit => ["Edit", "Write", "NotebookEdit"]
    case FileRead => ["Read", "Glob", "Grep"]
    case Web => ["WebFetch", "WebSearch"]
    case Agent => ["Agent", "Task"]
    case Mcp => ["mcp_tool"]
    case OtherTool => []
  }

  predicate IsToolOf(tool: string, category: ToolCategory) {
    exists i :: 0 <= i < |ToolsOf(category)| && tool == ToolsOf(category)[i]
  }

  /** The names tell the categories apart: the third character, or the first, is different. */
  lemma ToolNamesDiffer()
    ensures "Bash"[0] == 'B' && "PowerShell"[0] == 'P' && "Edit"[0] == 'E' && "NotebookEdit"[0] == 'N' && "mcp_tool"[0] == 'm'
    ensures "Write"[..3] == "Wri" && "WebFetch"[..3] == "Web" && "WebSearch"[..3] == "Web"
    ensures "Read"[0] == 'R' && "Glob"[0] == 'G' && "Grep"[0] == 'G' && "Agent"[0] == 'A' && "Task"[0] == 'T'
  {
  }

  /** A tool has the category whose list names it, and no other. */
  lemma CategoriesAreByName(tool: string, category: ToolCategory)
    requires category != OtherTool
    ensures CategoryOf(tool) == category <==> IsToolOf(tool, category)
  {
    ToolNamesDiffer();
    assert ["Bash", "PowerShell"][0] == "Bash";
    if CategoryOf(tool) == category { NamedTool(tool); }
    if IsToolOf(tool, category) {
      var i :| 0 <= i < |ToolsOf(category)| && tool == ToolsOf(category)[i];
    }
  }

  lemma NamedTool(tool: string)
    requires CategoryOf(tool) != OtherTool
    ensures IsToolOf(tool, CategoryOf(tool))
  {
    var names := ToolsOf(CategoryOf(tool));
    if tool == "Bash" || tool == "Edit" || tool == "Read" || tool == "WebFetch" || tool == "Agent" || tool == "mcp_tool" {
      assert tool == names[0];
    } else if tool == "NotebookEdit" || tool == "Grep" {
      assert tool == names[2];
    } else {
      assert tool == names[1];
    }
  }

  // ----- observation identifiers

  /** Two observations share an identifier only if their records agree in generation, cursor, surface and event, or
      the digest collides on them. */
  lemma ObservationIdentifiesRecord(digest: Digest, r: Record, t: Record)
    requires Sized([r.generation, r.cursor, NameText(r.event)]) && Sized([t.generation, t.cursor, NameText(t.event)])
    requires ObservationIdOf(digest, r) == ObservationIdOf(digest, t)
    ensures || (r.generation == t.generation && r.cursor == t.cursor && r.surface == t.surface && NameText(r.event) == NameText(t.event))
            || Collide(digest, ObservationComponents(r), ObservationComponents(t))
  {
    hide NameText;
    assert "otel_log"[0] == 'o' && "hook"[0] == 'h';
    var xs, ys := ObservationComponents(r), ObservationComponents(t);
    SizedComponents(r);
    SizedComponents(t);
    StableIdIsInjective(digest, ObservationKind, xs, ObservationKind, ys);
    if xs == ys { assert xs[0] == ys[0] && xs[1] == ys[1] && xs[2] == ys[2] && xs[3] == ys[3]; }
  }

  function ObservationComponents(r: Record): seq<string> {
    [r.generation, r.cursor, if r.surface.OtelLog? then "otel_log" else "hook", NameText(r.event)]
  }

  lemma SizedComponents(r: Record)
    requires Sized([r.generation, r.cursor, NameText(r.event)])
    ensures Sized(ObservationComponents(r))
  {
    hide NameText;
    var given, all := [r.generation, r.cursor, NameText(r.event)], ObservationComponents(r);
    assert given[0] in given && given[1] in given && given[2] in given;
    assert |"otel_log"| == 8 && |"hook"| == 4;
    forall c | c in all ensures |c| < U64_LIMIT {
      assert c == all[0] || c == all[1] || c == all[2] || c == all[3];
    }
  }
}
