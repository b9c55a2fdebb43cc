/**
 The blob-chain mapping: after the layers are applied, each prefix of the
 layer stack gets an association from its chain ID to the digest of the blob
 of the prefix's last layer, written through the snapshotter's SetBlob.
 */
module BlobMapping {
  import opened Wrappers
  import opened Digests
  import opened Oci
  import opened Errors

  /** One SetBlob call: chain ID key and blob digest value. */
  datatype BlobWrite = BlobWrite(key: Digest, blob: Digest)

  /**
   The snapshotter's SetBlob. Its answer may depend on the writes this
   mapping pass has already made (the first argument) as well as the new one.
   */
  type SetBlob = (seq<BlobWrite>, BlobWrite) -> Option<Error>

  /** The writes a mapping pass issued, in order, and the error it ended with. */
  datatype Fill = Fill(writes: seq<BlobWrite>, error: Option<Error>)

  /** The chain ID of layers 0..i. */
  function PrefixChainID(h: Hash, layers: seq<Layer>, i: nat): Digest
    requires i < |layers|
  {
    ChainID(h, DiffDigests(layers[..i + 1]))
  }

  /** The i-th write the mapping owes: key is the chain ID of layers 0..i, value is blob i. */
  function Expected(h: Hash, layers: seq<Layer>, i: nat): BlobWrite
    requires i < |layers|
  {
    BlobWrite(PrefixChainID(h, layers, i), layers[i].blob.digest)
  }

  /** All the writes a mapping pass owes for `layers`, in order. */
  function OwedWrites(h: Hash, layers: seq<Layer>): (ws: seq<BlobWrite>)
    ensures |ws| == |layers|
  {
    seq(|layers|, i requires 0 <= i < |layers| => Expected(h, layers, i))
  }

  /** Write i of `ws` is accepted by the snapshotter when writes 0..i-1 precede it. */
  predicate Accepted(set_: SetBlob, ws: seq<BlobWrite>, i: nat)
    requires i < |ws|
  {
    set_(ws[..i], ws[i]).None?
  }

  /** The first write at or after `from` that the snapshotter rejects, or |ws| if none is. */
  function FirstRejected(set_: SetBlob, ws: seq<BlobWrite>, from: nat): (k: nat)
    requires from <= |ws|
    ensures from <= k <= |ws|
    ensures forall j :: from <= j < k ==> Accepted(set_, ws, j)
    ensures k < |ws| ==> !Accepted(set_, ws, k)
    decreases |ws| - from
  {
    if from == |ws| then |ws|
    else if !Accepted(set_, ws, from) then from
    else FirstRejected(set_, ws, from + 1)
  }

  /** The rejection a search from `from` finds is the one that is actually first. */
  lemma FirstRejectedAt(set_: SetBlob, ws: seq<BlobWrite>, from: nat, k: nat)
    requires from <= k <= |ws|
    requires forall j :: from <= j < k ==> Accepted(set_, ws, j)
    requires k < |ws| ==> !Accepted(set_, ws, k)
    ensures FirstRejected(set_, ws, from) == k
  {
  }

  /** The outcome of a pass that issues the owed writes `o` up to the first rejected one. */
  function Stopped(set_: SetBlob, o: seq<BlobWrite>, k: nat): Fill
    requires k <= |o|
  {
    if k < |o| then Fill(o[..k + 1], set_(o[..k], o[k])) else Fill(o, None)
  }

  /** Extending the covered diff IDs by the next layer's gives the next prefix's diff IDs. */
  lemma ChainStep(layers: seq<Layer>, n: nat)
    requires n < |layers|
    ensures DiffDigests(layers[..n]) + [layers[n].diff.digest] == DiffDigests(layers[..n + 1])
  {
  }

  /** The pass continued after the owed writes `done`, `chain` being the diff IDs covered so far. */
  function FillFrom(h: Hash, set_: SetBlob, layers: seq<Layer>, chain: seq<Digest>, done: seq<BlobWrite>): (r: Fill)
    requires |done| <= |layers|
    requires chain == DiffDigests(layers[..|done|])
    requires done == OwedWrites(h, layers)[..|done|]
    ensures r == Stopped(set_, OwedWrites(h, layers), FirstRejected(set_, OwedWrites(h, layers), |done|))
    decreases |layers| - |done|
  {
    if |done| == |layers| then Fill(done, None)
    else
      var l := layers[|done|];
      var chain' := chain + [l.diff.digest];
      ChainStep(layers, |done|);
      var w := BlobWrite(ChainID(h, chain'), l.blob.digest);
      ghost var o := OwedWrites(h, layers);
      assert o[..|done| + 1] == done + [w];
      match set_(done, w)
      case Some(e) => Fill(done + [w], Some(e))
      case None => FillFrom(h, set_, layers, chain', done + [w])
  }

  /**
   The whole mapping pass: one SetBlob per layer, in layer order, keyed by the
   chain ID of the layers so far; it stops at the first write the snapshotter
   rejects and returns that error.
   */
  function FillBlobMapping(h: Hash, set_: SetBlob, layers: seq<Layer>): (r: Fill)
    ensures var o := OwedWrites(h, layers);
      var k := FirstRejected(set_, o, 0);
      && (k < |layers| ==> r.writes == o[..k + 1] && r.error == set_(o[..k], o[k]) && r.error.Some?)
      && (k == |layers| ==> r.writes == o && r.error.None?)
  {
    FillFrom(h, set_, layers, [], [])
  }

  /**
   When the snapshotter accepts owed writes 0..k-1 and rejects write k, the
   pass issues exactly writes 0..k and returns the rejection of write k.
   */
  lemma FillStopsAtFirstRejection(h: Hash, set_: SetBlob, layers: seq<Layer>, k: nat)
    requires k < |layers|
    requires forall j :: 0 <= j < k ==> Accepted(set_, OwedWrites(h, layers), j)
    requires !Accepted(set_, OwedWrites(h, layers), k)
    ensures FillBlobMapping(h, set_, layers).writes == OwedWrites(h, layers)[..k + 1]
    ensures FillBlobMapping(h, set_, layers).error == set_(OwedWrites(h, layers)[..k], OwedWrites(h, layers)[k])
  {
  }

  /** When the snapshotter accepts every owed write, the pass issues them all and succeeds. */
  lemma FillAllAccepted(h: Hash, set_: SetBlob, layers: seq<Layer>)
    requires forall j :: 0 <= j < |layers| ==> Accepted(set_, OwedWrites(h, layers), j)
    ensures FillBlobMapping(h, set_, layers) == Fill(OwedWrites(h, layers), None)
  {
  }

  /** An image without layers needs no writes and the pass succeeds. */
  lemma FillNoLayers(h: Hash, set_: SetBlob)
    ensures FillBlobMapping(h, set_, []) == Fill([], None)
  {
  }

  /**
   Two passes whose layer lists agree on the diff IDs of layers 0..i write the
   same key at position i, so images sharing a base share its mapping keys.
   */
  lemma SharedPrefixSameKey(h: Hash, s1: SetBlob, s2: SetBlob, l1: seq<Layer>, l2: seq<Layer>, i: nat)
    requires i < |FillBlobMapping(h, s1, l1).writes| && i < |FillBlobMapping(h, s2, l2).writes|
    requires DiffDigests(l1)[..i + 1] == DiffDigests(l2)[..i + 1]
    ensures FillBlobMapping(h, s1, l1).writes[i].key == FillBlobMapping(h, s2, l2).writes[i].key
  {
    assert DiffDigests(l1[..i + 1]) == DiffDigests(l1)[..i + 1];
    assert DiffDigests(l2[..i + 1]) == DiffDigests(l2)[..i + 1];
  }

  /** The mapping store after the writes `ws`, applied in order, the later write winning. */
  function Store(m: map<Digest, Digest>, ws: seq<BlobWrite>): map<Digest, Digest>
    decreases |ws|
  {
    if |ws| == 0 then m else Store(m[ws[0].key := ws[0].blob], ws[1..])
  }

  /** No two writes share a key. */
  predicate DistinctKeys(ws: seq<BlobWrite>) {
    forall i, j :: 0 <= i < j < |ws| ==> ws[i].key != ws[j].key
  }

  /** The store gains exactly the written keys. */
  lemma {:induction false} StoreKeys(m: map<Digest, Digest>, ws: seq<BlobWrite>)
    ensures Store(m, ws).Keys == m.Keys + set i | 0 <= i < |ws| :: ws[i].key
    decreases |ws|
  {
    if |ws| > 0 {
      StoreKeys(m[ws[0].key := ws[0].blob], ws[1..]);
      var rest := set i | 0 <= i < |ws[1..]| :: ws[1..][i].key;
      var all := set i | 0 <= i < |ws| :: ws[i].key;
      assert all == {ws[0].key} + rest by {
        forall k | k in all ensures k in {ws[0].key} + rest {
          var i :| 0 <= i < |ws| && ws[i].key == k;
          if i > 0 { assert ws[1..][i - 1].key == k; }
        }
      }
    }
  }

  /** With distinct keys, every write's key resolves to that write's blob. */
  lemma {:induction false} StoreLookup(m: map<Digest, Digest>, ws: seq<BlobWrite>, i: nat)
    requires DistinctKeys(ws)
    requires i < |ws|
    ensures ws[i].key in Store(m, ws) && Store(m, ws)[ws[i].key] == ws[i].blob
    decreases |ws|
  {
    var m' := m[ws[0].key := ws[0].blob];
    if i == 0 {
      StoreUntouched(m', ws[1..], ws[0].key);
    } else {
      StoreLookup(m', ws[1..], i - 1);
    }
  }

  /** A key none of the writes touches keeps its value. */
  lemma {:induction false} StoreUntouched(m: map<Digest, Digest>, ws: seq<BlobWrite>, k: Digest)
    requires k in m
    requires forall i :: 0 <= i < |ws| ==> ws[i].key != k
    ensures k in Store(m, ws) && Store(m, ws)[k] == m[k]
    decreases |ws|
  {
    if |ws| > 0 {
      StoreUntouched(m[ws[0].key := ws[0].blob], ws[1..], k);
    }
  }

  /** The chain IDs of distinct layer prefixes differ, so the owed keys are distinct. */
  lemma OwedKeysDistinct(h: Hash, layers: seq<Layer>)
    requires Injective(h) && Separable(h, DiffDigests(layers))
    ensures DistinctKeys(OwedWrites(h, layers))
  {
    var ds := DiffDigests(layers);
    forall i, j | 0 <= i < j < |layers|
      ensures OwedWrites(h, layers)[i].key != OwedWrites(h, layers)[j].key
    {
      assert DiffDigests(layers[..i + 1]) == ds[..i + 1];
      assert DiffDigests(layers[..j + 1]) == ds[..j + 1];
      PrefixChainIDsDistinct(h, ds, i + 1, j + 1);
    }
  }

  /** The set of chain IDs of the non-empty layer prefixes. */
  function PrefixChainIDs(h: Hash, layers: seq<Layer>): set<Digest> {
    set i | 0 <= i < |layers| :: PrefixChainID(h, layers, i)
  }

  /** Applying all owed writes adds the prefix chain IDs, each resolving to its layer's blob. */
  lemma StoreOwed(h: Hash, layers: seq<Layer>, m: map<Digest, Digest>)
    requires Injective(h) && Separable(h, DiffDigests(layers))
    ensures forall i :: 0 <= i < |layers| ==>
      PrefixChainID(h, layers, i) in Store(m, OwedWrites(h, layers))
      && Store(m, OwedWrites(h, layers))[PrefixChainID(h, layers, i)] == layers[i].blob.digest
    ensures Store(m, OwedWrites(h, layers)).Keys == m.Keys + PrefixChainIDs(h, layers)
  {
    var ws := OwedWrites(h, layers);
    OwedKeysDistinct(h, layers);
    forall i | 0 <= i < |layers|
      ensures PrefixChainID(h, layers, i) in Store(m, ws)
      ensures Store(m, ws)[PrefixChainID(h, layers, i)] == layers[i].blob.digest
    {
      StoreLookup(m, ws, i);
    }
    StoreKeys(m, ws);
    assert (set i | 0 <= i < |ws| :: ws[i].key) == PrefixChainIDs(h, layers) by {
      forall i | 0 <= i < |ws| ensures ws[i].key == PrefixChainID(h, layers, i) {}
    }
  }

  /**
   After a successful pass over an image with N layers, the store holds one
   new association per layer prefix: the chain ID of layers 0..i resolves to
   the digest of blob i, and no other key was added.
   */
  lemma MappingComplete(h: Hash, set_: SetBlob, layers: seq<Layer>, m: map<Digest, Digest>)
    requires FillBlobMapping(h, set_, layers).error.None?
    requires Injective(h) && Separable(h, DiffDigests(layers))
    ensures forall i :: 0 <= i < |layers| ==>
      PrefixChainID(h, layers, i) in Store(m, FillBlobMapping(h, set_, layers).writes)
      && Store(m, FillBlobMapping(h, set_, layers).writes)[PrefixChainID(h, layers, i)] == layers[i].blob.digest
    ensures Store(m, FillBlobMapping(h, set_, layers).writes).Keys == m.Keys + PrefixChainIDs(h, layers)
  {
    assert FillBlobMapping(h, set_, layers).writes == OwedWrites(h, layers);
    StoreOwed(h, layers, m);
  }

  /** The two-layer image: the base's diff ID maps to blob 0, the pair's chain ID to blob 1. */
  lemma TwoLayerImage(h: Hash, set_: SetBlob, d0: Digest, d1: Digest, b0: Descriptor, b1: Descriptor)
    requires set_([], BlobWrite(d0, b0.digest)).None?
    requires set_([BlobWrite(d0, b0.digest)], BlobWrite(h(d0 + " " + d1), b1.digest)).None?
    ensures FillBlobMapping(h, set_, [Layer(DiffDescriptor(d0), b0), Layer(DiffDescriptor(d1), b1)])
         == Fill([BlobWrite(d0, b0.digest), BlobWrite(h(d0 + " " + d1), b1.digest)], None)
  {
    var layers := [Layer(DiffDescriptor(d0), b0), Layer(DiffDescriptor(d1), b1)];
    var o := OwedWrites(h, layers);
    assert DiffDigests(layers[..1]) == [d0];
    assert DiffDigests(layers[..2]) == [d0, d1];
    assert [d0, d1][..1] == [d0];
    assert PrefixChainID(h, layers, 0) == d0;
    assert PrefixChainID(h, layers, 1) == h(d0 + " " + d1);
    assert o == [BlobWrite(d0, b0.digest), BlobWrite(h(d0 + " " + d1), b1.digest)];
    assert o[..0] == [] && o[..1] == [BlobWrite(d0, b0.digest)];
    FillAllAccepted(h, set_, layers);
  }
}
