/**
 The Layer ChainID of the OCI image format: the identity of an ordered stack
 of layer diffs, used as the key of a snapshot and of its blob association.
 */
module Digests {

  /** A content digest in its textual form, such as "sha256:<hex>". */
  type Digest = string

  /** The digest function over strings; deliberately left uninterpreted. */
  type Hash = string -> Digest

  /**
   ChainID([d]) is d, and ChainID(p + [d]) digests ChainID(p), a space and d.
   The empty stack has the empty digest.
   */
  function ChainID(h: Hash, ds: seq<Digest>): Digest
    decreases |ds|
  {
    if |ds| == 0 then ""
    else if |ds| == 1 then ds[0]
    else h(ChainID(h, ds[..|ds| - 1]) + " " + ds[|ds| - 1])
  }

  /** No two distinct strings have the same digest. */
  ghost predicate Injective(h: Hash) {
    forall x, y :: h(x) == h(y) ==> x == y
  }

  /**
   The diff ID d is never the digest of a chain step ending in e: no string
   of the form x + " " + e hashes to d. A real diff ID digests an uncompressed
   tar, which is never such a string, so a collision-free digest meets this.
   */
  ghost predicate NeverChained(h: Hash, d: Digest, e: Digest) {
    forall x: string :: h(x + " " + e) != d
  }

  /** The conditions under which distinct stacks drawn from `ds` have distinct chain IDs. */
  ghost predicate Separable(h: Hash, ds: seq<Digest>) {
    && (forall d :: d in ds ==> ' ' !in d)
    && (forall d, e :: d in ds && e in ds ==> NeverChained(h, d, e))
  }

  /** Every stack drawn from the diff IDs of a separable stack is separable. */
  lemma SeparableDrawn(h: Hash, ds: seq<Digest>, sub: seq<Digest>)
    requires Separable(h, ds)
    requires forall d :: d in sub ==> d in ds
    ensures Separable(h, sub)
  {
  }

  /** A position after the separating space of x + " " + d lies inside d. */
  lemma NoSpaceAfterSeparator(x: string, d: string, k: int)
    requires ' ' !in d
    requires |x| + 1 <= k < |x| + 1 + |d|
    ensures (x + " " + d)[k] != ' '
  {
  }

  /** The digest input x + " " + d determines x and d when d holds no space. */
  lemma SplitAtLastSpace(x1: string, d1: string, x2: string, d2: string)
    requires ' ' !in d1 && ' ' !in d2
    requires x1 + " " + d1 == x2 + " " + d2
    ensures x1 == x2 && d1 == d2
  {
    var s := x1 + " " + d1;
    assert s[|x1|] == ' ';
    assert s[|x2|] == ' ';
    if |x2| < |x1| {
      NoSpaceAfterSeparator(x2, d2, |x1|);
    }
    if |x1| < |x2| {
      NoSpaceAfterSeparator(x1, d1, |x2|);
    }
    assert |x1| == |x2|;
    assert x1 == s[..|x1|] && x2 == s[..|x2|];
    assert d1 == s[|x1| + 1..] && d2 == s[|x2| + 1..];
  }

  /** The chain ID of a stack of two or more diffs is never a diff ID of the same pool. */
  lemma SingleNotChained(h: Hash, d: Digest, b: seq<Digest>, pool: seq<Digest>)
    requires Separable(h, pool)
    requires |b| > 1 && d in pool && b[|b| - 1] in pool
    ensures ChainID(h, b) != d
  {
    assert NeverChained(h, d, b[|b| - 1]);
  }

  /** Under a collision-free digest, equal chain IDs mean equal stacks. */
  lemma {:induction false} ChainIDInjective(h: Hash, a: seq<Digest>, b: seq<Digest>)
    requires Injective(h)
    requires |a| > 0 && |b| > 0
    requires Separable(h, a + b)
    requires ChainID(h, a) == ChainID(h, b)
    ensures a == b
    decreases |a|
  {
    var la, lb := a[|a| - 1], b[|b| - 1];
    assert la in a + b && lb in a + b && a[0] in a + b && b[0] in a + b;
    if |a| == 1 && |b| == 1 {
    } else if |a| == 1 {
      SingleNotChained(h, a[0], b, a + b);
      assert false;
    } else if |b| == 1 {
      SingleNotChained(h, b[0], a, a + b);
      assert false;
    } else {
      var a', b' := a[..|a| - 1], b[..|b| - 1];
      assert ' ' !in la && ' ' !in lb;
      SplitAtLastSpace(ChainID(h, a'), la, ChainID(h, b'), lb);
      assert a == a' + [la] && b == b' + [lb];
      SeparableDrawn(h, a + b, a' + b');
      ChainIDInjective(h, a', b');
    }
  }

  /** Distinct non-empty prefixes of one separable stack have distinct chain IDs. */
  lemma PrefixChainIDsDistinct(h: Hash, ds: seq<Digest>, i: nat, j: nat)
    requires Injective(h) && Separable(h, ds)
    requires 0 < i < j <= |ds|
    ensures ChainID(h, ds[..i]) != ChainID(h, ds[..j])
  {
    if ChainID(h, ds[..i]) == ChainID(h, ds[..j]) {
      assert ds[..j] == ds[..i] + ds[i..j];
      SeparableDrawn(h, ds, ds[..i] + ds[..j]);
      ChainIDInjective(h, ds[..i], ds[..j]);
    }
  }
}
