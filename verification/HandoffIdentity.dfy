/** Stable identifiers of the Claude Code handoff adapter (crates/adapter-claude-code/src/lib.rs). Text is
    written as its UTF-8 bytes, one `char` a byte; the digest is an arbitrary function to 64 hexadecimal digits. */
module HandoffIdentity {

  type Hex = s: string | |s| == 64 witness seq(64, _ => '0')

  type Digest = string -> Hex

  const U64_LIMIT := 0x1_0000_0000_0000_0000

  /** A component as Rust can hold it: its length fits a 64-bit `usize`. */
  predicate Sized(components: seq<string>) { forall c :: c in components ==> |c| < U64_LIMIT }

  function Pow256(k: nat): nat { if k == 0 then 1 else 256 * Pow256(k - 1) }

  /** The `k` big-endian bytes of `n`. */
  function BigEndian(n: nat, k: nat): (bytes: string)
    ensures |bytes| == k
  {
    if k == 0 then "" else BigEndian(n / 256, k - 1) + [(n % 256) as char]
  }

  function FromBigEndian(bytes: string): nat {
    if bytes == "" then 0 else FromBigEndian(bytes[..|bytes| - 1]) * 256 + bytes[|bytes| - 1] as nat
  }

  lemma {:induction false} BigEndianRoundTrip(n: nat, k: nat)
    requires n < Pow256(k)
    ensures FromBigEndian(BigEndian(n, k)) == n
  {
    if k == 0 {
    } else {
      assert n / 256 < Pow256(k - 1);
      BigEndianRoundTrip(n / 256, k - 1);
      var bytes := BigEndian(n, k);
      assert bytes[..|bytes| - 1] == BigEndian(n / 256, k - 1);
    }
  }

  /** What is fed to the digest: every component behind its length. */
  function Preimage(components: seq<string>): string {
    if components == [] then ""
    else BigEndian(|components[0]|, 8) + components[0] + Preimage(components[1..])
  }

  lemma LengthPrefixDecodes(component: string, rest: string)
    requires |component| < U64_LIMIT
    ensures var text := BigEndian(|component|, 8) + component + rest;
            && |text| >= 8 + |component|
            && FromBigEndian(text[..8]) == |component|
            && text[8..8 + |component|] == component
            && text[8 + |component|..] == rest
  {
    assert Pow256(8) == U64_LIMIT by { assert Pow256(4) == 0x1_0000_0000; }
    BigEndianRoundTrip(|component|, 8);
    var text := BigEndian(|component|, 8) + component + rest;
    assert text[..8] == BigEndian(|component|, 8);
  }

  /** Two component lists are hashed alike only if they are the same list. */
  lemma {:induction false} PreimageIsInjective(xs: seq<string>, ys: seq<string>)
    requires Sized(xs) && Sized(ys) && Preimage(xs) == Preimage(ys)
    ensures xs == ys
  {
    if xs == [] || ys == [] {
    } else {
      LengthPrefixDecodes(xs[0], Preimage(xs[1..]));
      LengthPrefixDecodes(ys[0], Preimage(ys[1..]));
      PreimageIsInjective(xs[1..], ys[1..]);
      assert xs == [xs[0]] + xs[1..] && ys == [ys[0]] + ys[1..];
    }
  }

  // ----- the identifier

  datatype Kind = TraceKind | SessionKind | TurnKind | SpanKind | ObservationKind

  function PrefixText(kind: Kind): string {
    match kind
    case TraceKind => "claude-code-trace"
    case SessionKind => "claude-code-session"
    case TurnKind => "claude-code-turn"
    case SpanKind => "claude-code-span"
    case ObservationKind => "claude-code-observation"
  }

  function StableId(digest: Digest, kind: Kind, components: seq<string>): string {
    PrefixText(kind) + ":" + digest(Preimage(components))
  }

  predicate OfKind(id: string, kind: Kind) { PrefixText(kind) + ":" <= id }

  /** The digest confuses the two lists. */
  predicate Collide(digest: Digest, xs: seq<string>, ys: seq<string>) {
    xs != ys && digest(Preimage(xs)) == digest(Preimage(ys))
  }

  /** No text starts like identifiers of two kinds. */
  lemma KindIsReadable(id: string, kind: Kind, other: Kind)
    requires OfKind(id, kind) && OfKind(id, other)
    ensures kind == other
  {
    assert id[..15] == (PrefixText(kind) + ":")[..15] && id[..15] == (PrefixText(other) + ":")[..15];
    PrefixMark(kind);
    PrefixMark(other);
    assert id[13] == (PrefixText(kind) + ":")[13] && id[13] == (PrefixText(other) + ":")[13];
  }

  /** The fourteenth character tells the kinds apart. */
  lemma PrefixMark(kind: Kind)
    ensures |PrefixText(kind)| > 13
    ensures PrefixText(kind)[13] ==
              match kind
              case TraceKind => 'r'
              case SessionKind => 'e'
              case TurnKind => 'u'
              case SpanKind => 'p'
              case ObservationKind => 'b'
  {
  }

  /** Identifiers are equal only for the same kind and the same components, unless the digest collides. */
  lemma StableIdIsInjective(digest: Digest, kind: Kind, xs: seq<string>, other: Kind, ys: seq<string>)
    requires Sized(xs) && Sized(ys)
    requires StableId(digest, kind, xs) == StableId(digest, other, ys)
    ensures kind == other
    ensures xs == ys || Collide(digest, xs, ys)
  {
    var id := StableId(digest, kind, xs);
    hide PrefixText;
    KindIsReadable(id, kind, other);
    var n := |PrefixText(kind) + ":"|;
    assert id[n..] == digest(Preimage(xs)) && id[n..] == digest(Preimage(ys));
  }

  lemma PreimageOfOneMore(xs: seq<string>, component: string)
    ensures Preimage(xs + [component]) == Preimage(xs) + (BigEndian(|component|, 8) + component)
  {
    if xs == [] {
      assert xs + [component] == [component];
    } else {
      assert (xs + [component])[1..] == xs[1..] + [component];
      PreimageOfOneMore(xs[1..], component);
    }
  }

  /** The digest is fed one component after the other. */
  method ComputeStableId(digest: Digest, kind: Kind, components: seq<string>) returns (id: string)
    ensures id == StableId(digest, kind, components)
  {
    var fed := "";
    for i := 0 to |components|
      invariant fed == Preimage(components[..i])
    {
      PreimageOfOneMore(components[..i], components[i]);
      assert components[..i + 1] == components[..i] + [components[i]];
      fed := fed + BigEndian(|components[i]|, 8);
      fed := fed + components[i];
    }
    assert components[..|components|] == components;
    id := PrefixText(kind) + ":" + digest(fed);
  }
}
