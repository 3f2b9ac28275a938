/** Saved views (ui/report/view-state.ts, ui/report/paged.ts): which filters may be saved, the text they are saved
    as, and reading that text back. */
module SavedViews {
  import opened Common

  const SAVED_TEXT_MAX := 32768
  const SAVED_FILTER_LIMIT := 20
  const DIMENSION_LENGTH_MAX := 512

  datatype Dimensions = Dimensions(
    repo: Option<string>, session: Option<string>, agent: Option<string>, model: Option<string>)

  // ----- what may be saved

  predicate SafeChar(c: char) {
    'A' <= c <= 'Z' || 'a' <= c <= 'z' || '0' <= c <= '9' || c == '.' || c == '_' || c == ':' || c == '-'
  }

  predicate SafeText(text: string) { forall i :: 0 <= i < |text| ==> SafeChar(text[i]) }

  predicate SafeName(text: string) { 1 <= |text| <= 128 && SafeText(text) }

  function IndexOf(text: string, c: char): (n: nat)
    ensures n <= |text|
    ensures n < |text| ==> text[n] == c
  {
    if text == "" || text[0] == c then 0 else IndexOf(text[1..], c) + 1
  }

  /** Safe names joined by slashes, at most `more` of them after the first. */
  predicate SafePath(text: string, more: nat) {
    var n := IndexOf(text, '/');
    if n == |text| then SafeName(text) else more > 0 && SafeName(text[..n]) && SafePath(text[n + 1..], more - 1)
  }

  const SESSION_PREFIX := "id:sha256:"

  predicate HexDigit(c: char) { 'a' <= c <= 'f' || '0' <= c <= '9' }

  predicate OpaqueSession(text: string) {
    SESSION_PREFIX <= text && |text| == |SESSION_PREFIX| + 64
    && forall i :: |SESSION_PREFIX| <= i < |text| ==> HexDigit(text[i])
  }

  predicate HasDimensions(f: Dimensions) { f.repo.Some? || f.session.Some? || f.agent.Some? || f.model.Some? }

  predicate Persistable(f: Dimensions) {
    && HasDimensions(f)
    && (f.repo.Some? ==> SafeName(f.repo.value))
    && (f.session.Some? ==> OpaqueSession(f.session.value))
    && (f.agent.Some? ==> SafeName(f.agent.value))
    && (f.model.Some? ==> SafePath(f.model.value, 2))
  }

  ghost predicate AllPersistable(filters: seq<Dimensions>) { forall f :: f in filters ==> Persistable(f) }

  // ----- the text

  /** A member of a JSON object whose value is a string. */
  datatype Member = Member(key: string, value: string)

  function MemberOf(key: string, value: Option<string>): seq<Member> {
    if value.Some? then [Member(key, value.value)] else []
  }

  /** An undefined dimension is not written. */
  function MembersOf(f: Dimensions): seq<Member> {
    MemberOf("repo", f.repo) + MemberOf("session", f.session) + MemberOf("agent", f.agent) + MemberOf("model", f.model)
  }

  function Quoted(text: string): string { "\"" + text + "\"" }

  function PrintMember(m: Member): string { Quoted(m.key) + ":" + Quoted(m.value) }

  function PrintMembers(members: seq<Member>): string
    requires members != []
  {
    PrintMember(members[0]) + if |members| == 1 then "}" else "," + PrintMembers(members[1..])
  }

  function PrintFilter(f: Dimensions): string {
    if MembersOf(f) == [] then "{}" else "{" + PrintMembers(MembersOf(f))
  }

  function PrintFilters(filters: seq<Dimensions>): string
    requires filters != []
  {
    PrintFilter(filters[0]) + if |filters| == 1 then "]}" else "," + PrintFilters(filters[1..])
  }

  const ENVELOPE := "{\"version\":1,\"filters\":["

  function Print(filters: seq<Dimensions>): string {
    ENVELOPE + if filters == [] then "]}" else PrintFilters(filters)
  }

  datatype NotPersistable = NotPersistable

  function Serialize(filters: seq<Dimensions>): Result<string, NotPersistable> {
    if exists i :: 0 <= i < |filters| && !Persistable(filters[i]) then Err(NotPersistable) else Ok(Print(filters))
  }

  // ----- reading the text back

  type Rest<T> = Option<(T, string)>

  /** What stands for itself in a JSON string (section 7 of RFC 8259). */
  predicate Unescaped(c: char) { c >= ' ' && c != '"' && c != '\\' }

  predicate Plain(text: string) { forall i :: 0 <= i < |text| ==> Unescaped(text[i]) }

  /** A string without escapes, up to the next quotation mark. */
  function ReadQuoted(text: string): Rest<string> {
    if text == "" || text[0] != '"' then None
    else
      var n := IndexOf(text[1..], '"');
      if n == |text| - 1 || !Plain(text[1..][..n]) then None else Some((text[1..][..n], text[1..][n + 1..]))
  }

  function ReadMember(text: string): (r: Rest<Member>)
    ensures r.Some? ==> |r.value.1| < |text|
  {
    var key := ReadQuoted(text);
    if key.None? || key.value.1 == "" || key.value.1[0] != ':' then None
    else
      var value := ReadQuoted(key.value.1[1..]);
      if value.None? then None else Some((Member(key.value.0, value.value.0), value.value.1))
  }

  function ReadMembers(text: string): (r: Rest<seq<Member>>)
    ensures r.Some? ==> |r.value.1| < |text|
    decreases |text|
  {
    var first := ReadMember(text);
    if first.None? || first.value.1 == "" then None
    else
      var (member, rest) := first.value;
      if rest[0] == '}' then Some(([member], rest[1..]))
      else if rest[0] != ',' then None
      else
        var more := ReadMembers(rest[1..]);
        if more.None? then None else Some(([member] + more.value.0, more.value.1))
  }

  function ReadObjects(text: string): Rest<seq<seq<Member>>>
    decreases |text|
  {
    if text == "" || text[0] != '{' then None
    else
      var first := ReadMembers(text[1..]);
      if first.None? || first.value.1 == "" then None
      else
        var (members, rest) := first.value;
        if rest[0] == ']' then Some(([members], rest[1..]))
        else if rest[0] != ',' then None
        else
          var more := ReadObjects(rest[1..]);
          if more.None? then None else Some(([members] + more.value.0, more.value.1))
  }

  /** A reader for the part of JSON that saved views are written in. */
  function Read(text: string): Option<seq<seq<Member>>> {
    if !(ENVELOPE <= text) then None
    else
      var body := text[|ENVELOPE|..];
      if body == "]}" then Some([])
      else
        var objects := ReadObjects(body);
        if objects.Some? && objects.value.1 == "}" then Some(objects.value.0) else None
  }

  // ----- the round trip

  predicate PlainMember(m: Member) { Plain(m.key) && Plain(m.value) }

  predicate PlainMembers(members: seq<Member>) { forall i :: 0 <= i < |members| ==> PlainMember(members[i]) }

  lemma {:induction false} IndexIsFirst(text: string, c: char, rest: string)
    requires c !in text
    ensures IndexOf(text + [c] + rest, c) == |text|
  {
    var all := text + [c] + rest;
    if text != "" {
      assert text[0] in text;
      assert all[1..] == text[1..] + [c] + rest;
      IndexIsFirst(text[1..], c, rest);
    }
  }

  lemma QuotedReads(text: string, rest: string)
    requires Plain(text)
    ensures ReadQuoted(Quoted(text) + rest) == Some((text, rest))
  {
    IndexIsFirst(text, '"', rest);
    var all := Quoted(text) + rest;
    var inner := text + ['"'] + rest;
    assert all[1..] == inner;
    assert inner[..|text|] == text && inner[|text| + 1..] == rest;
  }

  lemma MemberReads(m: Member, rest: string)
    requires PlainMember(m)
    ensures ReadMember(PrintMember(m) + rest) == Some((m, rest))
  {
    hide ReadQuoted, Plain, Quoted;
    var afterKey := ":" + Quoted(m.value) + rest;
    assert PrintMember(m) + rest == Quoted(m.key) + afterKey;
    QuotedReads(m.key, afterKey);
    assert afterKey[1..] == Quoted(m.value) + rest;
    QuotedReads(m.value, rest);
  }

  lemma {:induction false} MembersRead(members: seq<Member>, rest: string)
    requires members != [] && PlainMembers(members)
    ensures ReadMembers(PrintMembers(members) + rest) == Some((members, rest))
    decreases |members|
  {
    hide ReadMember, PrintMember, PlainMember;
    var tail := (if |members| == 1 then "}" else "," + PrintMembers(members[1..])) + rest;
    assert PrintMembers(members) + rest == PrintMember(members[0]) + tail;
    MemberReads(members[0], tail);
    if |members| == 1 {
      assert tail[1..] == rest;
      assert members == [members[0]];
    } else {
      assert tail[1..] == PrintMembers(members[1..]) + rest;
      MembersRead(members[1..], rest);
      assert members == [members[0]] + members[1..];
    }
  }

  function MembersOfAll(filters: seq<Dimensions>): (all: seq<seq<Member>>)
    ensures |all| == |filters| && forall i :: 0 <= i < |filters| ==> all[i] == MembersOf(filters[i])
  {
    seq(|filters|, i requires 0 <= i < |filters| => MembersOf(filters[i]))
  }

  predicate Printable(f: Dimensions) { MembersOf(f) != [] && PlainMembers(MembersOf(f)) }

  lemma {:induction false} FiltersRead(filters: seq<Dimensions>)
    requires filters != [] && forall i :: 0 <= i < |filters| ==> Printable(filters[i])
    ensures ReadObjects(PrintFilters(filters)) == Some((MembersOfAll(filters), "}"))
    decreases |filters|
  {
    hide ReadMembers, PrintMembers, MembersOf, PlainMembers;
    var members := MembersOf(filters[0]);
    var tail := if |filters| == 1 then "]}" else "," + PrintFilters(filters[1..]);
    assert Printable(filters[0]);
    var text := PrintFilters(filters);
    assert text == "{" + PrintMembers(members) + tail;
    assert text[1..] == PrintMembers(members) + tail;
    MembersRead(members, tail);
    if |filters| == 1 {
      assert tail[1..] == "}";
      assert MembersOfAll(filters) == [members];
    } else {
      assert tail[1..] == PrintFilters(filters[1..]);
      FiltersRead(filters[1..]);
      assert MembersOfAll(filters) == [members] + MembersOfAll(filters[1..]);
    }
  }

  lemma PrintReads(filters: seq<Dimensions>)
    requires forall i :: 0 <= i < |filters| ==> Printable(filters[i])
    ensures Read(Print(filters)) == Some(MembersOfAll(filters))
  {
    hide ReadObjects, PrintFilters, Printable;
    var text := Print(filters);
    assert text[..|ENVELOPE|] == ENVELOPE;
    if filters == [] {
      assert text[|ENVELOPE|..] == "]}";
      assert MembersOfAll(filters) == [];
    } else {
      assert text[|ENVELOPE|..] == PrintFilters(filters);
      FiltersRead(filters);
      EnvelopeNeverEmpty(filters);
    }
  }

  lemma EnvelopeNeverEmpty(filters: seq<Dimensions>)
    requires filters != []
    ensures PrintFilters(filters) != "]}"
  {
    assert PrintFilters(filters)[0] == PrintFilter(filters[0])[0] == '{';
  }

  // ----- what is persistable needs no escape, and is short

  lemma {:induction false} SafePathIsPlain(text: string, more: nat)
    requires SafePath(text, more)
    ensures Plain(text) && |text| <= 129 * more + 128
  {
    var n := IndexOf(text, '/');
    if n < |text| {
      SafePathIsPlain(text[n + 1..], more - 1);
      assert text == text[..n] + ['/'] + text[n + 1..];
    }
  }

  lemma OneMember(key: string, value: Option<string>, bound: nat)
    requires Plain(key) && (value.Some? ==> Plain(value.value) && |value.value| <= bound)
    ensures PlainMembers(MemberOf(key, value)) && Weight(MemberOf(key, value)) <= |key| + bound + 6
  {
  }

  lemma NameIsPlain(text: string)
    requires SafeName(text)
    ensures Plain(text) && |text| <= 128
  {
  }

  lemma SessionIsPlain(text: string)
    requires OpaqueSession(text)
    ensures Plain(text) && |text| == 74
  {
    assert Plain(SESSION_PREFIX) && |SESSION_PREFIX| == 10;
    forall i | 0 <= i < |text| ensures Unescaped(text[i]) {
      if i < 10 { assert text[i] == SESSION_PREFIX[i] && SESSION_PREFIX[i] in SESSION_PREFIX; }
    }
  }

  lemma PersistableIsPrintable(f: Dimensions)
    requires Persistable(f)
    ensures Printable(f)
    ensures |PrintFilter(f)| <= 762
  {
    hide Printable, Persistable, PrintFilter;
    MembersArePlain(f);
    FilterIsShort(f);
  }

  lemma MembersArePlain(f: Dimensions)
    requires Persistable(f)
    ensures Printable(f)
  {
    if f.repo.Some? { NameIsPlain(f.repo.value); }
    if f.session.Some? { SessionIsPlain(f.session.value); }
    if f.agent.Some? { NameIsPlain(f.agent.value); }
    if f.model.Some? { SafePathIsPlain(f.model.value, 2); }
    KeysArePlain();
    SomethingIsWritten(f);
    hide SafePath, SafeName, OpaqueSession, Plain, MemberOf, PlainMembers;
    OneMember("repo", f.repo, 128);
    OneMember("session", f.session, 74);
    OneMember("agent", f.agent, 128);
    OneMember("model", f.model, 386);
    FourParts(MemberOf("repo", f.repo), MemberOf("session", f.session), MemberOf("agent", f.agent),
              MemberOf("model", f.model));
  }

  lemma FilterIsShort(f: Dimensions)
    requires Persistable(f)
    ensures |PrintFilter(f)| <= 762
  {
    if f.model.Some? { SafePathIsPlain(f.model.value, 2); }
    hide SafePath, Plain, MemberOf, PlainMembers, Weight, PrintMembers;
    OneMember("repo", f.repo, 128);
    OneMember("session", f.session, 74);
    OneMember("agent", f.agent, 128);
    OneMember("model", f.model, 386);
    FourParts(MemberOf("repo", f.repo), MemberOf("session", f.session), MemberOf("agent", f.agent),
              MemberOf("model", f.model));
    LengthOfMembers(MembersOf(f));
  }

  lemma FourParts(a: seq<Member>, b: seq<Member>, c: seq<Member>, d: seq<Member>)
    requires PlainMembers(a) && PlainMembers(b) && PlainMembers(c) && PlainMembers(d)
    ensures PlainMembers(a + b + c + d) && Weight(a + b + c + d) == Weight(a) + Weight(b) + Weight(c) + Weight(d)
  {
    hide PlainMembers, Weight;
    PlainConcat(a, b);
    PlainConcat(a + b, c);
    PlainConcat(a + b + c, d);
    WeightConcat(a, b);
    WeightConcat(a + b, c);
    WeightConcat(a + b + c, d);
  }

  lemma KeysArePlain()
    ensures Plain("repo") && Plain("session") && Plain("agent") && Plain("model")
    ensures |"repo"| == 4 && |"session"| == 7 && |"agent"| == |"model"| == 5
  {
  }

  lemma SomethingIsWritten(f: Dimensions)
    ensures HasDimensions(f) <==> MembersOf(f) != []
  {
  }

  lemma PlainConcat(xs: seq<Member>, ys: seq<Member>)
    requires PlainMembers(xs) && PlainMembers(ys)
    ensures PlainMembers(xs + ys)
  {
  }

  /** The characters that a member takes, with the comma or brace behind it. */
  function Weight(members: seq<Member>): nat {
    if members == [] then 0
    else
      var m := members[|members| - 1];
      Weight(members[..|members| - 1]) + |m.key| + |m.value| + 6
  }

  lemma {:induction false} WeightConcat(xs: seq<Member>, ys: seq<Member>)
    ensures Weight(xs + ys) == Weight(xs) + Weight(ys)
  {
    if ys == [] {
      assert xs + ys == xs;
    } else {
      assert (xs + ys)[..|xs + ys| - 1] == xs + ys[..|ys| - 1];
      WeightConcat(xs, ys[..|ys| - 1]);
    }
  }

  lemma {:induction false} LengthOfMembers(members: seq<Member>)
    requires members != []
    ensures |PrintMembers(members)| == Weight(members)
    decreases |members|
  {
    WeightConcat([members[0]], members[1..]);
    assert members == [members[0]] + members[1..];
    if |members| > 1 { LengthOfMembers(members[1..]); }
  }

  lemma {:induction false} LengthOfFilters(filters: seq<Dimensions>)
    requires filters != [] && AllPersistable(filters)
    ensures |PrintFilters(filters)| <= 763 * |filters| + 1
    decreases |filters|
  {
    hide PrintFilter, Persistable;
    PersistableIsPrintable(filters[0]);
    if |filters| > 1 {
      assert forall f :: f in filters[1..] ==> f in filters;
      LengthOfFilters(filters[1..]);
    }
  }

  /** Any list of up to 20 persistable filters is written in less than half of what may be read back. */
  lemma SavedTextIsShort(filters: seq<Dimensions>)
    requires AllPersistable(filters)
    ensures |Print(filters)| <= 763 * |filters| + 26
    ensures |filters| <= SAVED_FILTER_LIMIT ==> |Print(filters)| < 15300 < SAVED_TEXT_MAX
  {
    if filters != [] { LengthOfFilters(filters); }
  }

  // ----- parsing whatever is stored

  /** A JSON value, as far as the reader looks. */
  datatype Json =
    | JString(text: string)
    | JNumber(value: real)
    | JArray(items: seq<Json>)
    | JObject(members: map<string, Json>)
    | JOther

  const KEYS: set<string> := {"repo", "session", "agent", "model"}

  predicate IsDimensionFilters(j: Json) {
    && j.JObject?
    && (forall key :: key in j.members ==> key in KEYS)
    && (forall key :: key in j.members ==> j.members[key].JString? && |j.members[key].text| <= DIMENSION_LENGTH_MAX)
  }

  predicate IsEnvelope(j: Json) {
    && j.JObject?
    && "version" in j.members && j.members["version"] == JNumber(1.0)
    && "filters" in j.members && j.members["filters"].JArray?
    && (forall key :: key in j.members ==> key == "version" || key == "filters")
    && (forall i :: 0 <= i < |j.members["filters"].items| ==> IsDimensionFilters(j.members["filters"].items[i]))
  }

  function DimensionOf(j: Json, key: string): Option<string>
    requires IsDimensionFilters(j)
  {
    if key in j.members then Some(j.members[key].text) else None
  }

  function DimensionsOf(j: Json): Dimensions
    requires IsDimensionFilters(j)
  {
    Dimensions(DimensionOf(j, "repo"), DimensionOf(j, "session"), DimensionOf(j, "agent"), DimensionOf(j, "model"))
  }

  /** `JSON.parse`, which may throw. */
  type Decoder = string -> Option<Json>

  /** The filters of an envelope, or nothing. */
  function Candidates(decode: Decoder, value: Option<string>): seq<Dimensions> {
    if value.None? || value.value == "" || |value.value| > SAVED_TEXT_MAX then []
    else
      var candidate := decode(value.value);
      if candidate.None? || !IsEnvelope(candidate.value) then []
      else
        var items := candidate.value.members["filters"].items;
        seq(|items|, i requires 0 <= i < |items| => DimensionsOf(items[i]))
  }

  /** The persistable ones without repetition, until there are `limit`. */
  function Collected(candidates: seq<Dimensions>, limit: nat): seq<Dimensions> {
    if candidates == [] then []
    else
      var r, last := Collected(candidates[..|candidates| - 1], limit), candidates[|candidates| - 1];
      if r != [] && |r| >= limit then r
      else if Persistable(last) && last !in r then r + [last]
      else r
  }

  function ParseSavedFilters(decode: Decoder, value: Option<string>, limit: nat): seq<Dimensions> {
    Collected(Candidates(decode, value), limit)
  }

  lemma {:induction false} FullStaysFull(candidates: seq<Dimensions>, limit: nat, n: nat)
    requires n <= |candidates|
    requires Collected(candidates[..n], limit) != [] && |Collected(candidates[..n], limit)| >= limit
    ensures Collected(candidates, limit) == Collected(candidates[..n], limit)
    decreases |candidates|
  {
    if n == |candidates| {
      assert candidates[..n] == candidates;
    } else {
      var front := candidates[..|candidates| - 1];
      assert front[..n] == candidates[..n];
      FullStaysFull(front, limit, n);
    }
  }

  /** The loop of the source. */
  method ParseSaved(decode: Decoder, value: Option<string>, limit: nat) returns (result: seq<Dimensions>)
    ensures result == ParseSavedFilters(decode, value, limit)
  {
    hide Persistable, IsEnvelope;
    result := [];
    if value.None? || value.value == "" || |value.value| > SAVED_TEXT_MAX { return; }
    var candidates := Candidates(decode, value);
    for i := 0 to |candidates|
      invariant result == Collected(candidates[..i], limit)
      invariant result == [] || |result| < limit
    {
      var filters := candidates[i];
      assert candidates[..i + 1][..i] == candidates[..i];
      if !Persistable(filters) || filters in result { continue; }
      result := result + [filters];
      if |result| >= limit {
        FullStaysFull(candidates, limit, i + 1);
        return;
      }
    }
    assert candidates[..|candidates|] == candidates;
  }

  lemma {:induction false} CollectedIsClean(candidates: seq<Dimensions>, limit: nat)
    ensures var r := Collected(candidates, limit);
            && AllPersistable(r) && Distinct(r)
            && |r| <= (if limit == 0 then 1 else limit)
            && (forall f :: f in r ==> f in candidates)
            && (|r| < limit ==> forall f :: f in candidates && Persistable(f) ==> f in r)
  {
    hide Persistable;
    if candidates != [] {
      var front := candidates[..|candidates| - 1];
      CollectedIsClean(front, limit);
      assert candidates == front + [candidates[|candidates| - 1]];
    }
  }

  /** Whatever text is stored and however it decodes, what is read is persistable, without repetition and within the
      limit; and nothing persistable is dropped while there is room. */
  lemma ParsedIsClean(decode: Decoder, value: Option<string>, limit: nat)
    ensures var r := ParseSavedFilters(decode, value, limit);
            && AllPersistable(r) && Distinct(r) && |r| <= (if limit == 0 then 1 else limit)
            && (|r| < limit ==> forall f :: f in Candidates(decode, value) && Persistable(f) ==> f in r)
  {
    CollectedIsClean(Candidates(decode, value), limit);
  }

  /** What a stored text has to hold for anything to be read from it. */
  predicate HoldsViews(decode: Decoder, value: Option<string>) {
    && value.Some? && 0 < |value.value| <= 32768
    && decode(value.value).Some?
    && var j := decode(value.value).value;
       && j.JObject? && j.members.Keys == {"version", "filters"}
       && j.members["version"] == JNumber(1.0) && j.members["filters"].JArray?
       && forall i :: 0 <= i < |j.members["filters"].items| ==> IsViewObject(j.members["filters"].items[i])
  }

  /** An object whose members are texts of at most 512 characters under the four names. */
  predicate IsViewObject(j: Json) {
    && j.JObject?
    && forall key :: key in j.members ==>
         && (key == "repo" || key == "session" || key == "agent" || key == "model")
         && j.members[key].JString? && |j.members[key].text| <= 512
  }

  predicate Names(value: Option<string>, j: Json, key: string)
    requires j.JObject?
  {
    if key in j.members then value.Some? && j.members[key] == JString(value.value) else value.None?
  }

  lemma ViewObjectsAre(j: Json)
    ensures IsViewObject(j) <==> IsDimensionFilters(j)
    ensures IsViewObject(j) ==>
              var d := DimensionsOf(j);
              Names(d.repo, j, "repo") && Names(d.session, j, "session") && Names(d.agent, j, "agent") && Names(d.model, j, "model")
  {
  }

  lemma EnvelopesAre(j: Json)
    ensures IsEnvelope(j) <==>
              && j.JObject? && j.members.Keys == {"version", "filters"}
              && j.members["version"] == JNumber(1.0) && j.members["filters"].JArray?
              && forall i :: 0 <= i < |j.members["filters"].items| ==> IsViewObject(j.members["filters"].items[i])
  {
    forall k: Json { ViewObjectsAre(k); }
    hide IsDimensionFilters, IsViewObject;
  }

  /** Views are read only from a text of the right length that decodes to an envelope of version 1, and each of them
      is one of its objects, member by member. */
  lemma ReadOnlyFromEnvelopes(decode: Decoder, value: Option<string>)
    ensures if !HoldsViews(decode, value) then Candidates(decode, value) == []
            else
              var items, read := decode(value.value).value.members["filters"].items, Candidates(decode, value);
              && |read| == |items|
              && forall i :: 0 <= i < |items| ==>
                   && Names(read[i].repo, items[i], "repo") && Names(read[i].session, items[i], "session")
                   && Names(read[i].agent, items[i], "agent") && Names(read[i].model, items[i], "model")
  {
    hide IsEnvelope, IsViewObject, IsDimensionFilters, DimensionsOf, Names;
    if value.Some? && decode(value.value).Some? {
      EnvelopesAre(decode(value.value).value);
      forall j: Json { ViewObjectsAre(j); }
    }
  }

  // ----- saving and loading

  function JsonOfMembers(members: seq<Member>): map<string, Json> {
    if members == [] then map[]
    else
      var m := members[|members| - 1];
      JsonOfMembers(members[..|members| - 1])[m.key := JString(m.value)]
  }

  function JsonOf(objects: seq<seq<Member>>): Json {
    JObject(map["version" := JNumber(1.0),
                "filters" := JArray(seq(|objects|, i requires 0 <= i < |objects| => JObject(JsonOfMembers(objects[i]))))])
  }

  /** A decoder of JSON reads the text that saved views are written in as what it says. */
  ghost predicate ReadsSavedText(decode: Decoder) {
    forall text :: Read(text).Some? ==> decode(text) == Some(JsonOf(Read(text).value))
  }

  lemma {:induction false} JsonOfConcat(xs: seq<Member>, ys: seq<Member>)
    ensures JsonOfMembers(xs + ys) == JsonOfMembers(xs) + JsonOfMembers(ys)
  {
    if ys == [] {
      assert xs + ys == xs;
    } else {
      assert (xs + ys)[..|xs + ys| - 1] == xs + ys[..|ys| - 1];
      JsonOfConcat(xs, ys[..|ys| - 1]);
    }
  }

  predicate Says(m: map<string, Json>, key: string, value: Option<string>) {
    if value.Some? then key in m && m[key] == JString(value.value) else key !in m
  }

  /** Four different keys written in a row, as an object. */
  lemma FourMembers(k: string, a: Option<string>, l: string, b: Option<string>, n: string, c: Option<string>,
                    o: string, d: Option<string>)
    requires k != l && k != n && k != o && l != n && l != o && n != o
    ensures var m := JsonOfMembers(MemberOf(k, a) + MemberOf(l, b) + MemberOf(n, c) + MemberOf(o, d));
            && Says(m, k, a) && Says(m, l, b) && Says(m, n, c) && Says(m, o, d)
            && forall key :: key in m ==> key in {k, l, n, o} && m[key].JString?
  {
    hide JsonOfMembers, MemberOf;
    JsonOfConcat(MemberOf(k, a), MemberOf(l, b));
    JsonOfConcat(MemberOf(k, a) + MemberOf(l, b), MemberOf(n, c));
    JsonOfConcat(MemberOf(k, a) + MemberOf(l, b) + MemberOf(n, c), MemberOf(o, d));
    JsonOfMember(k, a);
    JsonOfMember(l, b);
    JsonOfMember(n, c);
    JsonOfMember(o, d);
  }

  lemma KeysDiffer()
    ensures "repo" != "session" && "repo" != "agent" && "repo" != "model" && "session" != "agent"
    ensures "session" != "model" && "agent" != "model"
  {
    assert "agent"[0] != "model"[0];
  }

  lemma ShortEnough(f: Dimensions)
    requires Persistable(f)
    ensures f.repo.Some? ==> |f.repo.value| <= DIMENSION_LENGTH_MAX
    ensures f.session.Some? ==> |f.session.value| <= DIMENSION_LENGTH_MAX
    ensures f.agent.Some? ==> |f.agent.value| <= DIMENSION_LENGTH_MAX
    ensures f.model.Some? ==> |f.model.value| <= DIMENSION_LENGTH_MAX
  {
    if f.model.Some? { SafePathIsPlain(f.model.value, 2); }
  }

  /** The object written for a filter says the filter again. */
  lemma FilterSurvives(f: Dimensions)
    requires Persistable(f)
    ensures var j := JObject(JsonOfMembers(MembersOf(f))); IsDimensionFilters(j) && DimensionsOf(j) == f
  {
    hide Persistable, JsonOfMembers, MemberOf;
    ShortEnough(f);
    KeysDiffer();
    FourMembers("repo", f.repo, "session", f.session, "agent", f.agent, "model", f.model);
    var m := JsonOfMembers(MembersOf(f));
    forall key | key in m ensures key in KEYS && m[key].JString? && |m[key].text| <= DIMENSION_LENGTH_MAX {
      assert key == "repo" || key == "session" || key == "agent" || key == "model";
    }
  }

  lemma JsonOfMember(key: string, value: Option<string>)
    ensures JsonOfMembers(MemberOf(key, value)) == if value.Some? then map[key := JString(value.value)] else map[]
  {
  }

  lemma {:induction false} CollectedKeepsCleanList(filters: seq<Dimensions>, limit: nat)
    requires AllPersistable(filters) && Distinct(filters) && |filters| <= limit
    ensures Collected(filters, limit) == filters
  {
    hide Persistable;
    if filters != [] {
      var front, last := filters[..|filters| - 1], filters[|filters| - 1];
      assert forall f :: f in front ==> f in filters;
      assert last in filters;
      CollectedKeepsCleanList(front, limit);
      assert filters == front + [last];
    }
  }

  /** Any list of distinct persistable filters within the limit is written without an error and read back as it was. */
  lemma SavedViewsRoundTrip(decode: Decoder, filters: seq<Dimensions>, limit: nat)
    requires ReadsSavedText(decode)
    requires AllPersistable(filters) && Distinct(filters) && |filters| <= limit <= SAVED_FILTER_LIMIT
    ensures Serialize(filters) == Ok(Print(filters))
    ensures ParseSavedFilters(decode, Some(Print(filters)), limit) == filters
  {
    hide Persistable;
    forall i | 0 <= i < |filters| ensures Printable(filters[i]) {
      assert filters[i] in filters;
      PersistableIsPrintable(filters[i]);
    }
    assert Serialize(filters) == Ok(Print(filters)) by { assert forall i :: 0 <= i < |filters| ==> filters[i] in filters; }
    PrintReads(filters);
    SavedTextIsShort(filters);
    CandidatesOfPrinted(decode, filters);
    CollectedKeepsCleanList(filters, limit);
  }

  lemma CandidatesOfPrinted(decode: Decoder, filters: seq<Dimensions>)
    requires AllPersistable(filters) && decode(Print(filters)) == Some(JsonOf(MembersOfAll(filters)))
    requires |Print(filters)| <= SAVED_TEXT_MAX
    ensures Candidates(decode, Some(Print(filters))) == filters
  {
    hide Persistable, JsonOfMembers, MembersOf, IsDimensionFilters, DimensionsOf, PrintFilters;
    var items := JsonOf(MembersOfAll(filters)).members["filters"].items;
    forall i | 0 <= i < |filters| ensures IsDimensionFilters(items[i]) && DimensionsOf(items[i]) == filters[i] {
      assert filters[i] in filters;
      FilterSurvives(filters[i]);
    }
  }

  // ----- the list on the page

  /** The list that the page holds, and what the browser stores. */
  datatype Page = Page(saved: seq<Dimensions>, stored: Option<string>)

  /** `writable` says whether the browser lets the page write this time. */
  datatype Action = SaveClicked(dimensions: Dimensions, writable: bool) | DeleteClicked(index: nat, writable: bool)

  function Load(decode: Decoder, stored: Option<string>): Page {
    Page(ParseSavedFilters(decode, stored, SAVED_FILTER_LIMIT), stored)
  }

  function Persist(p: Page, next: seq<Dimensions>, writable: bool): Page {
    var text := Serialize(next);
    if text.Err? || !writable then p else Page(next, Some(text.value))
  }

  function Act(p: Page, a: Action): Page {
    match a
    case SaveClicked(dimensions, writable) =>
      if !Persistable(dimensions) || dimensions in p.saved then p
      else
        var next := [dimensions] + p.saved;
        Persist(p, if |next| <= SAVED_FILTER_LIMIT then next else next[..SAVED_FILTER_LIMIT], writable)
    case DeleteClicked(index, writable) =>
      if index >= |p.saved| then p else Persist(p, p.saved[..index] + p.saved[index + 1..], writable)
  }

  function ActAll(p: Page, actions: seq<Action>): Page {
    if actions == [] then p else Act(ActAll(p, actions[..|actions| - 1]), actions[|actions| - 1])
  }

  ghost predicate CleanList(filters: seq<Dimensions>) {
    AllPersistable(filters) && Distinct(filters) && |filters| <= SAVED_FILTER_LIMIT
  }

  lemma ActKeeps(decode: Decoder, p: Page, a: Action)
    requires ReadsSavedText(decode) && CleanList(p.saved) && Load(decode, p.stored) == p
    ensures CleanList(Act(p, a).saved) && Load(decode, Act(p, a).stored) == Act(p, a)
  {
    hide Persistable, Serialize, ParseSavedFilters, ReadsSavedText;
    if a.SaveClicked? {
      if Persistable(a.dimensions) && a.dimensions !in p.saved {
        var next := [a.dimensions] + p.saved;
        var kept := if |next| <= SAVED_FILTER_LIMIT then next else next[..SAVED_FILTER_LIMIT];
        assert forall f :: f in kept ==> f in next;
        SavedViewsRoundTrip(decode, kept, SAVED_FILTER_LIMIT);
      }
    } else if a.index < |p.saved| {
      SavedViewsRoundTrip(decode, p.saved[..a.index] + p.saved[a.index + 1..], SAVED_FILTER_LIMIT);
    }
  }

  lemma PersistWrites(p: Page, next: seq<Dimensions>, writable: bool)
    requires AllPersistable(next)
    ensures Persist(p, next, writable) == if writable then Page(next, Some(Print(next))) else p
  {
    hide Persistable, Print;
    assert forall i :: 0 <= i < |next| ==> next[i] in next;
  }

  /** Deleting the view at a position removes that view and no other: those before it stay where they are, those
      behind it move up by one. */
  lemma DeleteIsExact(p: Page, index: nat, writable: bool)
    requires CleanList(p.saved)
    ensures var t := Act(p, DeleteClicked(index, writable));
            if !writable || index >= |p.saved| then t == p
            else
              && |t.saved| == |p.saved| - 1
              && (forall i :: 0 <= i < index ==> t.saved[i] == p.saved[i])
              && (forall i :: index <= i < |t.saved| ==> t.saved[i] == p.saved[i + 1])
              && p.saved[index] !in t.saved
              && t.stored == Some(Print(t.saved))
  {
    hide Persistable, Print, Persist;
    if index < |p.saved| {
      PersistWrites(p, p.saved[..index] + p.saved[index + 1..], writable);
    }
  }

  /** Saving puts a new persistable view in front of the old ones, which stay in their order; only a full list loses
      its last. Anything else changes nothing. */
  lemma SaveIsExact(p: Page, dimensions: Dimensions, writable: bool)
    requires CleanList(p.saved)
    ensures var t := Act(p, SaveClicked(dimensions, writable));
            if !writable || !Persistable(dimensions) || dimensions in p.saved then t == p
            else
              && |t.saved| == (if |p.saved| < 20 then |p.saved| + 1 else 20)
              && t.saved[0] == dimensions
              && (forall i :: 1 <= i < |t.saved| ==> t.saved[i] == p.saved[i - 1])
              && t.stored == Some(Print(t.saved))
  {
    hide Persistable, Print, Persist, Distinct;
    if Persistable(dimensions) {
      var next := [dimensions] + p.saved;
      var kept := if |next| <= SAVED_FILTER_LIMIT then next else next[..SAVED_FILTER_LIMIT];
      assert forall f :: f in kept ==> f in next;
      PersistWrites(p, kept, writable);
    }
  }

  /** From whatever was stored, through any saves and deletes, written or refused: the list can always be written, and
      reloading the page shows exactly the list it shows now. */
  lemma {:induction false} EveryListReloads(decode: Decoder, stored: Option<string>, actions: seq<Action>)
    requires ReadsSavedText(decode)
    ensures var p := ActAll(Load(decode, stored), actions);
            CleanList(p.saved) && Serialize(p.saved).Ok? && Load(decode, p.stored) == p
  {
    hide Persistable, ParseSavedFilters, ReadsSavedText, Act;
    if actions == [] {
      ParsedIsClean(decode, stored, SAVED_FILTER_LIMIT);
    } else {
      EveryListReloads(decode, stored, actions[..|actions| - 1]);
      ActKeeps(decode, ActAll(Load(decode, stored), actions[..|actions| - 1]), actions[|actions| - 1]);
    }
    var p := ActAll(Load(decode, stored), actions);
    assert forall i :: 0 <= i < |p.saved| ==> p.saved[i] in p.saved;
  }
}
