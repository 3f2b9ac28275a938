/** The normal form of the dashboard filters (ui/report/paged-client.ts, normalizeFilters).
    An absent key of the source is an empty list, or an empty text, here. */
module DashboardFilters {
  import opened Common

  /** A JavaScript string is a sequence of 16-bit code units. */
  newtype CodeUnit = x: int | 0 <= x < 0x1_0000

  type Text = seq<CodeUnit>

  datatype Filters = Filters(repo: seq<string>, session: seq<string>, agent: seq<string>, model: seq<string>, text: Text)

  const NO_FILTERS := Filters([], [], [], [], [])
  const MAX_VALUES := 16
  const MAX_TEXT := 512

  /** White space and line terminators, as String.prototype.trim removes them. */
  predicate IsSpace(c: CodeUnit) {
    || 0x09 <= c <= 0x0D || c == 0x20 || c == 0xA0 || c == 0x1680 || 0x2000 <= c <= 0x200A
    || c == 0x2028 || c == 0x2029 || c == 0x202F || c == 0x205F || c == 0x3000 || c == 0xFEFF
  }

  function TrimStart(t: Text): Text {
    if t != [] && IsSpace(t[0]) then TrimStart(t[1..]) else t
  }

  function TrimEnd(t: Text): Text {
    if t != [] && IsSpace(t[|t| - 1]) then TrimEnd(t[..|t| - 1]) else t
  }

  function Trim(t: Text): Text {
    TrimEnd(TrimStart(t))
  }

  function Take<T>(xs: seq<T>, n: nat): seq<T> {
    if |xs| <= n then xs else xs[..n]
  }

  /** The elements in order of first insertion, as a JavaScript Set enumerates them. */
  function FirstOccurrences(values: seq<string>): seq<string> {
    if values == [] then []
    else
      var front, last := values[..|values| - 1], values[|values| - 1];
      FirstOccurrences(front) + (if last in front then [] else [last])
  }

  function NormalValues(values: seq<string>): seq<string> {
    Take(FirstOccurrences(values), MAX_VALUES)
  }

  function NormalText(t: Text): Text {
    Take(Trim(t), MAX_TEXT)
  }

  function Normalize(f: Filters): Filters {
    Filters(NormalValues(f.repo), NormalValues(f.session), NormalValues(f.agent), NormalValues(f.model), NormalText(f.text))
  }

  lemma {:induction false} FirstOccurrencesIsASet(values: seq<string>)
    ensures Distinct(FirstOccurrences(values))
    ensures forall v :: v in FirstOccurrences(values) <==> v in values
  {
    if values != [] {
      var front, last := values[..|values| - 1], values[|values| - 1];
      FirstOccurrencesIsASet(front);
      assert values == front + [last];
    }
  }

  /** `x` stands at `k` and nowhere before. */
  predicate FirstAt(values: seq<string>, k: nat, x: string) { k < |values| && values[k] == x && x !in values[..k] }

  lemma FirstAtStays(front: seq<string>, last: string, k: nat, x: string)
    requires FirstAt(front, k, x)
    ensures FirstAt(front + [last], k, x)
  {
    assert (front + [last])[..k] == front[..k];
  }

  /** The values are kept in the order in which each was first given. */
  lemma {:induction false} FirstOccurrencesAre(values: seq<string>) returns (at: seq<nat>)
    ensures |at| == |FirstOccurrences(values)|
    ensures forall i :: 0 <= i < |at| ==> FirstAt(values, at[i], FirstOccurrences(values)[i])
    ensures forall i, j :: 0 <= i < j < |at| ==> at[i] < at[j]
  {
    at := [];
    if values != [] {
      var front, last := values[..|values| - 1], values[|values| - 1];
      at := FirstOccurrencesAre(front);
      assert values == front + [last];
      assert last !in front ==> FirstAt(values, |front|, last);
      forall i | 0 <= i < |at| ensures FirstAt(values, at[i], FirstOccurrences(front)[i]) && at[i] < |front| {
        FirstAtStays(front, last, at[i], FirstOccurrences(front)[i]);
      }
      hide FirstAt;
      if last !in front { at := at + [|front|]; }
    }
  }

  lemma {:induction false} DistinctIsItsOwnSet(values: seq<string>)
    requires Distinct(values)
    ensures FirstOccurrences(values) == values
  {
    if values != [] {
      var front, last := values[..|values| - 1], values[|values| - 1];
      DistinctIsItsOwnSet(front);
      assert forall i :: 0 <= i < |front| ==> front[i] == values[i] && values[i] != last;
      assert values == front + [last];
    }
  }

  /** A normalised dimension is a duplicate-free prefix of at most sixteen of the given values, nothing
      given is lost while it fits, and normalising again changes nothing. */
  lemma NormalValuesSpec(values: seq<string>)
    ensures Distinct(NormalValues(values)) && |NormalValues(values)| <= MAX_VALUES
    ensures forall v :: v in NormalValues(values) ==> v in values
    ensures |NormalValues(values)| < MAX_VALUES ==> forall v :: v in values ==> v in NormalValues(values)
    ensures NormalValues(NormalValues(values)) == NormalValues(values)
  {
    FirstOccurrencesIsASet(values);
    DistinctIsItsOwnSet(NormalValues(values));
  }

  ghost predicate Trimmed(t: Text) {
    t != [] ==> !IsSpace(t[0]) && !IsSpace(t[|t| - 1])
  }

  lemma {:induction false} TrimStartSpec(t: Text)
    ensures TrimStart(t) != [] ==> !IsSpace(TrimStart(t)[0])
  {
    if t != [] && IsSpace(t[0]) { TrimStartSpec(t[1..]); }
  }

  lemma {:induction false} TrimEndSpec(t: Text)
    ensures TrimEnd(t) <= t
    ensures TrimEnd(t) != [] ==> !IsSpace(TrimEnd(t)[|TrimEnd(t)| - 1])
  {
    if t != [] && IsSpace(t[|t| - 1]) { TrimEndSpec(t[..|t| - 1]); }
  }

  lemma TrimSpec(t: Text)
    ensures Trimmed(Trim(t))
    ensures Trim(t) == t <==> Trimmed(t)
  {
    TrimStartSpec(t);
    TrimEndSpec(TrimStart(t));
  }

  lemma {:induction false} TrimStartDropsSpaces(t: Text) returns (n: nat)
    ensures n <= |t| && TrimStart(t) == t[n..] && forall i :: 0 <= i < n ==> IsSpace(t[i])
  {
    if t != [] && IsSpace(t[0]) {
      var m := TrimStartDropsSpaces(t[1..]);
      n := m + 1;
      assert t[1..][m..] == t[n..];
      forall i | 0 <= i < n ensures IsSpace(t[i]) { if i > 0 { assert t[i] == t[1..][i - 1]; } }
    } else {
      n := 0;
    }
  }

  lemma {:induction false} TrimEndDropsSpaces(t: Text)
    ensures forall i :: |TrimEnd(t)| <= i < |t| ==> IsSpace(t[i])
    ensures |TrimEnd(t)| <= |t|
  {
    TrimEndSpec(t);
    if t != [] && IsSpace(t[|t| - 1]) { TrimEndDropsSpaces(t[..|t| - 1]); }
  }

  /** Trimming drops white space at both ends and nothing else. */
  lemma TrimIs(t: Text) returns (from: nat, to: nat)
    ensures from <= to <= |t| && Trim(t) == t[from..to] && Trimmed(Trim(t))
    ensures forall i :: 0 <= i < from || to <= i < |t| ==> IsSpace(t[i])
  {
    TrimSpec(t);
    from := TrimStartDropsSpaces(t);
    var rest := TrimStart(t);
    TrimEndSpec(rest);
    TrimEndDropsSpaces(rest);
    to := from + |Trim(t)|;
    assert Trim(t) == rest[..|Trim(t)|];
    forall i | to <= i < |t| ensures IsSpace(t[i]) { assert t[i] == rest[i - from]; }
  }

  /** The guard under which normalising twice equals normalising once: the cut at 512 code units does
      not land just after white space. */
  predicate CutIsClean(t: Text) {
    |Trim(t)| <= MAX_TEXT || !IsSpace(Trim(t)[MAX_TEXT - 1])
  }

  /** Normalisation is idempotent exactly when the cut is clean: the code trims first and cuts after. */
  lemma NormalizeIsIdempotentIff(f: Filters)
    ensures Normalize(Normalize(f)) == Normalize(f) <==> CutIsClean(f.text)
  {
    NormalValuesSpec(f.repo);
    NormalValuesSpec(f.session);
    NormalValuesSpec(f.agent);
    NormalValuesSpec(f.model);
    TrimSpec(f.text);
    var once := NormalText(f.text);
    TrimSpec(once);
    if Trim(once) == once {
      assert NormalText(once) == once;
    } else {
      TrimStartSpec(once);
      TrimEndSpec(TrimStart(once));
      assert |Trim(once)| <= |once| by { TrimNeverGrows(once); }
      assert NormalText(once) == Trim(once);
    }
  }

  lemma {:induction false} TrimStartNeverGrows(t: Text)
    ensures |TrimStart(t)| <= |t|
  {
    if t != [] && IsSpace(t[0]) { TrimStartNeverGrows(t[1..]); }
  }

  lemma TrimNeverGrows(t: Text)
    ensures |Trim(t)| <= |t|
  {
    TrimStartNeverGrows(t);
    TrimEndSpec(TrimStart(t));
  }

  function DirtyText(): Text {
    seq(511, i => 0x61) + [0x20, 0x62]
  }

  /** A text the code normalises to something it would normalise again: 511 letters, a space, a letter. */
  lemma NormalizeIsNotAlwaysIdempotent()
    ensures var f := NO_FILTERS.(text := DirtyText());
            Normalize(Normalize(f)) != Normalize(f)
  {
    var f := NO_FILTERS.(text := DirtyText());
    assert !IsSpace(f.text[0]) && !IsSpace(f.text[|f.text| - 1]);
    TrimSpec(f.text);
    assert f.text[511] == 0x20;
    NormalizeIsIdempotentIff(f);
  }
}
