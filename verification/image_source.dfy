/**
 The docker-image source: construction with its capability check, and the
 pull pipeline (resolve, fetcher, content-graph dispatch, unpack, cache
 lookup), where unpack is layer resolution, layer application and the
 blob-chain mapping. Every collaborator call the pipeline makes is recorded
 in a trace, together with the error it returned, if any.
 */
module ImageSource {
  import opened Wrappers
  import opened Digests
  import opened Oci
  import opened Errors
  import opened LayerResolver
  import opened BlobMapping

  /** What a source is asked to pull; only image identifiers belong to this source. */
  datatype Identifier = ImageIdentifier(reference: string) | OtherIdentifier(scheme: string)

  /** The cache's handle on an assembled read-only filesystem. */
  datatype ImmutableRef = ImmutableRef(handle: string)

  /** A snapshotter, with its blob-mapping capability when it has one. */
  datatype Snapshotter = Snapshotter(blobMapper: Option<SetBlob>)

  /** The local collaborators a source is built from. */
  datatype SourceOpt = SourceOpt(
    snapshotter: Snapshotter,
    contentStore: Provider,
    /** Applies the layers in order onto snapshots; yields the chain ID of the result. */
    applyLayers: seq<Layer> -> Result<Digest, Error>,
    /** The cache accessor: a chain ID to an immutable reference. */
    cacheGet: string -> Result<ImmutableRef, Error>
  )

  /** The registry side: resolving, fetching and walking the content graph. */
  datatype Remote = Remote(
    /** Reference to canonical name and root descriptor. */
    resolve: string -> Result<(string, Descriptor), Error>,
    /** Whether a fetcher can be obtained for a canonical name. */
    fetcher: string -> Option<Error>,
    /** Fetches every blob reachable from the root descriptor into the content store. */
    dispatch: (string, Descriptor) -> Option<Error>
  )

  datatype ImageSource = ImageSource(opt: SourceOpt, remote: Remote, hash: Hash, unmarshal: Unmarshal) {
    /** Every image source has a snapshotter with blob mapping. */
    predicate Valid() {
      opt.snapshotter.blobMapper.Some?
    }
  }

  /** An image source over `opt`; refused when the snapshotter cannot map blobs. */
  function NewSource(opt: SourceOpt, remote: Remote, hash: Hash, unmarshal: Unmarshal): (r: Result<ImageSource, Error>)
    ensures r.Success? <==> opt.snapshotter.blobMapper.Some?
    ensures r.Failure? ==> r.error == MissingBlobMapping
    ensures r.Success? ==> r.value.Valid()
  {
    var src := ImageSource(opt, remote, hash, unmarshal);
    if opt.snapshotter.blobMapper.None? then Failure(MissingBlobMapping) else Success(src)
  }

  /** A collaborator call, by kind and argument. */
  datatype Op =
    | ResolveOp(reference: string)
    | FetcherOp(name: string)
    | DispatchOp(root: Descriptor)
    | ApplyOp(layers: seq<Layer>)
    | SetBlobOp(write: BlobWrite)
    | CacheGetOp(chainID: string)

  /** A call and the error it returned, if any. */
  datatype Call = Call(op: Op, error: Option<Error>)

  /** The outcome of a pipeline stage and the calls it made, in order. */
  datatype Run<T> = Run(result: Result<T, Error>, trace: seq<Call>)

  /** The SetBlob calls of a mapping pass, each with the snapshotter's answer. */
  function SetBlobCalls(set_: SetBlob, ws: seq<BlobWrite>): (cs: seq<Call>)
    ensures |cs| == |ws|
    ensures forall i :: 0 <= i < |ws| ==> cs[i].op == SetBlobOp(ws[i])
  {
    seq(|ws|, i requires 0 <= i < |ws| => Call(SetBlobOp(ws[i]), set_(ws[..i], ws[i])))
  }

  /** Every call but the last succeeded: the pipeline stops at the first failing call. */
  predicate AbortsOnFirstError(trace: seq<Call>) {
    forall i :: 0 <= i < |trace| - 1 ==> trace[i].error.None?
  }

  /** Every SetBlob follows a successful layer application. */
  predicate MappingAfterApply(trace: seq<Call>) {
    forall i :: 0 <= i < |trace| && trace[i].op.SetBlobOp? ==>
      exists j :: 0 <= j < i && trace[j].op.ApplyOp? && trace[j].error.None?
  }

  /** The pipeline stage a call belongs to. */
  function Stage(op: Op): nat {
    match op
    case ResolveOp(_) => 0
    case FetcherOp(_) => 1
    case DispatchOp(_) => 2
    case ApplyOp(_) => 3
    case SetBlobOp(_) => 4
    case CacheGetOp(_) => 5
  }

  /** Calls happen stage by stage, never going back to an earlier stage. */
  predicate StagesInOrder(trace: seq<Call>) {
    forall i, j :: 0 <= i < j < |trace| ==> Stage(trace[i].op) <= Stage(trace[j].op)
  }

  /** The ordering facts every pipeline trace satisfies. */
  predicate Orderly(trace: seq<Call>) {
    AbortsOnFirstError(trace) && MappingAfterApply(trace) && StagesInOrder(trace)
  }

  /** Every call in `trace` belongs to a stage between `lo` and `hi`. */
  predicate StagesWithin(trace: seq<Call>, lo: nat, hi: nat) {
    forall i :: 0 <= i < |trace| ==> lo <= Stage(trace[i].op) <= hi
  }

  /** A run fails with the error of its last call when that call failed. */
  predicate FailsWithLastError<T>(r: Run<T>) {
    r.result.Failure? && |r.trace| > 0 && r.trace[|r.trace| - 1].error.Some? ==>
      r.trace[|r.trace| - 1].error == Some(r.result.error)
  }

  /** Every call of a successful run succeeded. */
  predicate AllSucceeded(trace: seq<Call>) {
    forall i :: 0 <= i < |trace| ==> trace[i].error.None?
  }

  /** A mapping pass answers every issued write but the last with success, and the last too when it succeeds. */
  lemma FillAnswers(h: Hash, set_: SetBlob, layers: seq<Layer>)
    ensures var f := FillBlobMapping(h, set_, layers);
      && (forall i :: 0 <= i < |f.writes| - 1 ==> SetBlobCalls(set_, f.writes)[i].error.None?)
      && (f.error.None? ==> forall i :: 0 <= i < |f.writes| ==> SetBlobCalls(set_, f.writes)[i].error.None?)
      && (f.error.Some? ==> |f.writes| > 0 && SetBlobCalls(set_, f.writes)[|f.writes| - 1].error == f.error)
  {
    var f := FillBlobMapping(h, set_, layers);
    var o := OwedWrites(h, layers);
    var k := FirstRejected(set_, o, 0);
    forall i | 0 <= i < |f.writes| && i < k
      ensures SetBlobCalls(set_, f.writes)[i].error.None?
    {
      assert f.writes[..i] == o[..i];
      assert Accepted(set_, o, i);
    }
    if k < |layers| {
      assert f.writes[..k] == o[..k];
    }
  }

  /** A successful application followed by SetBlob calls keeps the unpack's ordering facts. */
  lemma MappedTrace(apply: Call, cs: seq<Call>)
    requires apply.op.ApplyOp? && apply.error.None?
    requires forall i :: 0 <= i < |cs| ==> cs[i].op.SetBlobOp?
    requires forall i :: 0 <= i < |cs| - 1 ==> cs[i].error.None?
    ensures Orderly([apply] + cs) && StagesWithin([apply] + cs, 3, 4)
  {
    var t := [apply] + cs;
    assert forall i :: 1 <= i < |t| ==> t[i] == cs[i - 1];
    forall i | 0 <= i < |t| && t[i].op.SetBlobOp?
      ensures exists j :: 0 <= j < i && t[j].op.ApplyOp? && t[j].error.None?
    {
      assert t[0] == apply;
    }
  }

  /**
   Unpack: resolve the layers, apply them, then record the blob mapping; a
   failing stage ends the unpack with its error and later stages do not run.
   */
  function Unpack(src: ImageSource, desc: Descriptor): (r: Run<string>)
    requires src.Valid()
    ensures Orderly(r.trace) && StagesWithin(r.trace, 3, 4)
    ensures r.result.Success? ==> AllSucceeded(r.trace)
    ensures r.result.Failure? && |r.trace| > 0 ==> r.trace[|r.trace| - 1].error == Some(r.result.error)
  {
    match GetLayers(src.opt.contentStore, src.unmarshal, desc)
    case Failure(e) => Run(Failure(e), [])
    case Success(layers) =>
      var applied := src.opt.applyLayers(layers);
      var apply := Call(ApplyOp(layers), applied.ErrorOf());
      match applied
      case Failure(e) => Run(Failure(e), [apply])
      case Success(chainID) =>
        var set_ := src.opt.snapshotter.blobMapper.value;
        var fill := FillBlobMapping(src.hash, set_, layers);
        FillAnswers(src.hash, set_, layers);
        var trace := [apply] + SetBlobCalls(set_, fill.writes);
        MappedTrace(apply, SetBlobCalls(set_, fill.writes));
        assert forall i :: 1 <= i < |trace| ==> trace[i] == SetBlobCalls(set_, fill.writes)[i - 1];
        match fill.error
        case Some(e) => Run(Failure(e), trace)
        case None => Run(Success(chainID), trace)
  }

  /** A successful prefix of calls followed by later-stage calls keeps the pipeline's ordering facts. */
  lemma JoinTraces(pre: seq<Call>, post: seq<Call>)
    requires forall i :: 0 <= i < |pre| ==> pre[i].error.None?
    requires StagesInOrder(pre) && StagesInOrder(post)
    requires forall i, j :: 0 <= i < |pre| && 0 <= j < |post| ==> Stage(pre[i].op) <= Stage(post[j].op)
    requires MappingAfterApply(pre)
    requires AbortsOnFirstError(post) && MappingAfterApply(post)
    ensures AbortsOnFirstError(pre + post)
    ensures MappingAfterApply(pre + post)
    ensures StagesInOrder(pre + post)
  {
    var t := pre + post;
    assert forall i :: |pre| <= i < |t| ==> t[i] == post[i - |pre|];
    forall i | 0 <= i < |t| && t[i].op.SetBlobOp?
      ensures exists j :: 0 <= j < i && t[j].op.ApplyOp? && t[j].error.None?
    {
      if i < |pre| {
        assert pre[i].op.SetBlobOp?;
        var j :| 0 <= j < i && pre[j].op.ApplyOp? && pre[j].error.None?;
        assert t[j] == pre[j];
      } else {
        assert post[i - |pre|].op.SetBlobOp?;
        var j :| 0 <= j < i - |pre| && post[j].op.ApplyOp? && post[j].error.None?;
        assert t[j + |pre|] == post[j];
      }
    }
  }

  /** When the layers cannot be resolved, unpack neither applies nor maps anything. */
  lemma UnpackStopsOnLayerError(src: ImageSource, desc: Descriptor)
    requires src.Valid()
    requires GetLayers(src.opt.contentStore, src.unmarshal, desc).Failure?
    ensures Unpack(src, desc) == Run(Failure(GetLayers(src.opt.contentStore, src.unmarshal, desc).error), [])
  {
  }

  /** When application fails, unpack reports its error and writes no mapping. */
  lemma UnpackStopsOnApplyError(src: ImageSource, desc: Descriptor)
    requires src.Valid()
    requires GetLayers(src.opt.contentStore, src.unmarshal, desc).Success?
    requires src.opt.applyLayers(GetLayers(src.opt.contentStore, src.unmarshal, desc).value).Failure?
    ensures var layers := GetLayers(src.opt.contentStore, src.unmarshal, desc).value;
      var e := src.opt.applyLayers(layers).error;
      Unpack(src, desc) == Run(Failure(e), [Call(ApplyOp(layers), Some(e))])
  {
  }

  /**
   When the snapshotter rejects a mapping write, unpack fails with that
   rejection, and its trace keeps the apply call and every SetBlob call of the
   pass, the accepted writes before the rejected one included.
   */
  lemma UnpackStopsOnMappingError(src: ImageSource, desc: Descriptor)
    requires src.Valid()
    requires GetLayers(src.opt.contentStore, src.unmarshal, desc).Success?
    requires src.opt.applyLayers(GetLayers(src.opt.contentStore, src.unmarshal, desc).value).Success?
    requires FillBlobMapping(src.hash, src.opt.snapshotter.blobMapper.value,
                             GetLayers(src.opt.contentStore, src.unmarshal, desc).value).error.Some?
    ensures var layers := GetLayers(src.opt.contentStore, src.unmarshal, desc).value;
      var set_ := src.opt.snapshotter.blobMapper.value;
      var f := FillBlobMapping(src.hash, set_, layers);
      Unpack(src, desc) == Run(Failure(f.error.value), [Call(ApplyOp(layers), None)] + SetBlobCalls(set_, f.writes))
  {
  }

  /**
   When the layers resolve, application succeeds and the snapshotter accepts
   every mapping write, unpack succeeds with the applier's chain ID.
   */
  lemma UnpackCompletes(src: ImageSource, desc: Descriptor)
    requires src.Valid()
    requires GetLayers(src.opt.contentStore, src.unmarshal, desc).Success?
    requires src.opt.applyLayers(GetLayers(src.opt.contentStore, src.unmarshal, desc).value).Success?
    requires FillBlobMapping(src.hash, src.opt.snapshotter.blobMapper.value,
                             GetLayers(src.opt.contentStore, src.unmarshal, desc).value).error.None?
    ensures var layers := GetLayers(src.opt.contentStore, src.unmarshal, desc).value;
      var set_ := src.opt.snapshotter.blobMapper.value;
      Unpack(src, desc) == Run(Success(src.opt.applyLayers(layers).value),
                               [Call(ApplyOp(layers), None)] + SetBlobCalls(set_, OwedWrites(src.hash, layers)))
  {
  }

  /**
   A successful unpack applied the resolved layers, wrote one mapping per
   layer prefix in order, and returns the chain ID the application produced.
   */
  lemma UnpackSucceeds(src: ImageSource, desc: Descriptor)
    requires src.Valid()
    requires Unpack(src, desc).result.Success?
    ensures GetLayers(src.opt.contentStore, src.unmarshal, desc).Success?
    ensures var layers := GetLayers(src.opt.contentStore, src.unmarshal, desc).value;
      var r := Unpack(src, desc);
      && src.opt.applyLayers(layers) == Success(r.result.value)
      && |r.trace| == |layers| + 1
      && r.trace[0] == Call(ApplyOp(layers), None)
      && forall i :: 0 <= i < |layers| ==> r.trace[i + 1] == Call(SetBlobOp(Expected(src.hash, layers, i)), None)
  {
  }

  /** The applier agrees with the chain ID definition on every layer list it accepts. */
  ghost predicate ApplierChainsIDs(src: ImageSource) {
    forall layers :: src.opt.applyLayers(layers).Success? ==>
      src.opt.applyLayers(layers).value == ChainID(src.hash, DiffDigests(layers))
  }

  /**
   With an applier that returns the chain ID of what it applied, the last
   mapping key an unpack writes is the chain ID it returns.
   */
  lemma UnpackTopKeyIsResult(src: ImageSource, desc: Descriptor)
    requires src.Valid() && ApplierChainsIDs(src)
    requires Unpack(src, desc).result.Success?
    requires |Unpack(src, desc).trace| > 1
    ensures var r := Unpack(src, desc);
      r.trace[|r.trace| - 1].op.SetBlobOp? && r.trace[|r.trace| - 1].op.write.key == r.result.value
  {
    UnpackSucceeds(src, desc);
    var layers := GetLayers(src.opt.contentStore, src.unmarshal, desc).value;
    assert layers[..|layers|] == layers;
  }

  /** A successful trace followed by one call of a later stage stays orderly. */
  lemma AppendCall(pre: seq<Call>, c: Call, hi: nat)
    requires AllSucceeded(pre) && Orderly(pre)
    requires forall i :: 0 <= i < |pre| ==> Stage(pre[i].op) <= hi
    requires hi <= Stage(c.op) && !c.op.SetBlobOp?
    ensures Orderly(pre + [c])
  {
    var t := pre + [c];
    assert forall i :: 0 <= i < |pre| ==> t[i] == pre[i];
    forall i | 0 <= i < |t| && t[i].op.SetBlobOp?
      ensures exists j :: 0 <= j < i && t[j].op.ApplyOp? && t[j].error.None?
    {
      assert pre[i].op.SetBlobOp?;
      var j :| 0 <= j < i && pre[j].op.ApplyOp? && pre[j].error.None?;
      assert t[j] == pre[j];
    }
  }

  /** The last stages of a pull: unpack the image, then look its chain up in the cache. */
  function UnpackAndGet(src: ImageSource, desc: Descriptor): (r: Run<ImmutableRef>)
    requires src.Valid()
    ensures Orderly(r.trace) && StagesWithin(r.trace, 3, 5) && FailsWithLastError(r)
    ensures r.result.Success? ==>
      && AllSucceeded(r.trace)
      && |r.trace| > 0
      && r.trace[|r.trace| - 1].op.CacheGetOp?
      && r.result == src.opt.cacheGet(r.trace[|r.trace| - 1].op.chainID)
  {
    var u := Unpack(src, desc);
    match u.result
    case Failure(e) => Run(Failure(e), u.trace)
    case Success(chainID) =>
      var got := src.opt.cacheGet(chainID);
      var c := Call(CacheGetOp(chainID), got.ErrorOf());
      AppendCall(u.trace, c, 4);
      Run(got, u.trace + [c])
  }

  /** Walk the content graph from the root descriptor, then unpack and look up. */
  function DispatchAndUnpack(src: ImageSource, name: string, desc: Descriptor): (r: Run<ImmutableRef>)
    requires src.Valid()
    ensures Orderly(r.trace) && StagesWithin(r.trace, 2, 5) && FailsWithLastError(r)
    ensures |r.trace| > 0 && r.trace[0] == Call(DispatchOp(desc), src.remote.dispatch(name, desc))
    ensures src.remote.dispatch(name, desc).Some? ==>
      r.result == Failure(src.remote.dispatch(name, desc).value) && |r.trace| == 1
    ensures r.result.Success? ==>
      && AllSucceeded(r.trace)
      && |r.trace| > 0
      && r.trace[|r.trace| - 1].op.CacheGetOp?
      && r.result == src.opt.cacheGet(r.trace[|r.trace| - 1].op.chainID)
  {
    var c := Call(DispatchOp(desc), src.remote.dispatch(name, desc));
    if c.error.Some? then Run(Failure(c.error.value), [c])
    else
      var g := UnpackAndGet(src, desc);
      JoinTraces([c], g.trace);
      Run(g.result, [c] + g.trace)
  }

  /** Obtain a fetcher for the resolved name, then walk the graph and unpack. */
  function FetchAndUnpack(src: ImageSource, name: string, desc: Descriptor): (r: Run<ImmutableRef>)
    requires src.Valid()
    ensures Orderly(r.trace) && StagesWithin(r.trace, 1, 5) && FailsWithLastError(r)
    ensures |r.trace| > 0 && r.trace[0] == Call(FetcherOp(name), src.remote.fetcher(name))
    ensures src.remote.fetcher(name).Some? ==>
      r.result == Failure(src.remote.fetcher(name).value) && |r.trace| == 1
    ensures r.result.Success? ==>
      && AllSucceeded(r.trace)
      && |r.trace| > 0
      && r.trace[|r.trace| - 1].op.CacheGetOp?
      && r.result == src.opt.cacheGet(r.trace[|r.trace| - 1].op.chainID)
  {
    var c := Call(FetcherOp(name), src.remote.fetcher(name));
    if c.error.Some? then Run(Failure(c.error.value), [c])
    else
      var d := DispatchAndUnpack(src, name, desc);
      JoinTraces([c], d.trace);
      Run(d.result, [c] + d.trace)
  }

  /**
   Pull: only image identifiers are accepted; then resolve, obtain a fetcher,
   walk the content graph, unpack, and ask the cache for the unpacked chain.
   The first failure ends the pull with its error.
   */
  function Pull(src: ImageSource, id: Identifier): (r: Run<ImmutableRef>)
    requires src.Valid()
    ensures id.OtherIdentifier? ==> r == Run(Failure(InvalidIdentifier), [])
    ensures id.ImageIdentifier? ==>
      var resolved := src.remote.resolve(id.reference);
      && |r.trace| > 0 && r.trace[0] == Call(ResolveOp(id.reference), resolved.ErrorOf())
      && (resolved.Failure? ==> r.result == Failure(resolved.error) && |r.trace| == 1)
      && (resolved.Success? ==> |r.trace| > 1 && r.trace[1].op == FetcherOp(resolved.value.0))
    ensures Orderly(r.trace) && FailsWithLastError(r)
    ensures r.result.Success? ==>
      && AllSucceeded(r.trace)
      && |r.trace| > 0
      && r.trace[|r.trace| - 1].op.CacheGetOp?
      && r.result == src.opt.cacheGet(r.trace[|r.trace| - 1].op.chainID)
  {
    match id
    case OtherIdentifier(_) => Run(Failure(InvalidIdentifier), [])
    case ImageIdentifier(reference) =>
      var resolved := src.remote.resolve(reference);
      var c := Call(ResolveOp(reference), resolved.ErrorOf());
      match resolved
      case Failure(e) => Run(Failure(e), [c])
      case Success((name, desc)) =>
        var f := FetchAndUnpack(src, name, desc);
        JoinTraces([c], f.trace);
        Run(f.result, [c] + f.trace)
  }

  /** No call of the pull reached layer application, the mapping or the cache. */
  predicate NothingUnpacked(trace: seq<Call>) {
    forall i :: 0 <= i < |trace| ==> Stage(trace[i].op) <= 2
  }

  /**
   A failure to resolve, to obtain a fetcher or to walk the content graph ends
   the pull with that failure, before any layer is applied or mapped.
   */
  lemma PullAbortsBeforeUnpack(src: ImageSource, reference: string)
    requires src.Valid()
    requires var resolved := src.remote.resolve(reference);
      || resolved.Failure?
      || src.remote.fetcher(resolved.value.0).Some?
      || src.remote.dispatch(resolved.value.0, resolved.value.1).Some?
    ensures var r := Pull(src, ImageIdentifier(reference));
      && r.result.Failure?
      && NothingUnpacked(r.trace)
      && r.trace[|r.trace| - 1].error == Some(r.result.error)
  {
  }

  /**
   An image whose config lists a different number of diff IDs than its
   manifest lists layers fails to pull with MismatchedLayers, and no layer is
   applied or mapped.
   */
  lemma PullMismatchedLayers(src: ImageSource, reference: string)
    requires src.Valid()
    requires src.remote.resolve(reference).Success?
    requires var (name, desc) := src.remote.resolve(reference).value;
      && src.remote.fetcher(name).None?
      && src.remote.dispatch(name, desc).None?
      && Decode(src.opt.contentStore, src.unmarshal, desc).Success?
      && |Decode(src.opt.contentStore, src.unmarshal, desc).value.1|
         != |Decode(src.opt.contentStore, src.unmarshal, desc).value.0.layers|
    ensures Pull(src, ImageIdentifier(reference)).result == Failure(MismatchedLayers)
    ensures NothingUnpacked(Pull(src, ImageIdentifier(reference)).trace)
  {
  }

  /**
   A successful pull resolved, fetched and walked the image, unpacked it, and
   returns the cache's reference for the chain ID the unpack produced.
   */
  lemma PullSucceeds(src: ImageSource, id: Identifier)
    requires src.Valid()
    requires Pull(src, id).result.Success?
    ensures id.ImageIdentifier? && src.remote.resolve(id.reference).Success?
    ensures var (name, desc) := src.remote.resolve(id.reference).value;
      var u := Unpack(src, desc);
      && u.result.Success?
      && Pull(src, id).trace ==
           [Call(ResolveOp(id.reference), None), Call(FetcherOp(name), None), Call(DispatchOp(desc), None)]
           + u.trace + [Call(CacheGetOp(u.result.value), None)]
      && Pull(src, id).result == src.opt.cacheGet(u.result.value)
  {
  }

  /**
   Once resolve, the fetcher and the graph walk succeed, the pull is the
   unpack followed, if the unpack succeeds, by the cache lookup of its chain
   ID: the unpack's error, the lookup's error or the lookup's reference is
   the pull's result.
   */
  lemma PullStages(src: ImageSource, reference: string)
    requires src.Valid()
    requires src.remote.resolve(reference).Success?
    requires var (name, desc) := src.remote.resolve(reference).value;
      src.remote.fetcher(name).None? && src.remote.dispatch(name, desc).None?
    ensures var (name, desc) := src.remote.resolve(reference).value;
      var u := Unpack(src, desc);
      var pre := [Call(ResolveOp(reference), None), Call(FetcherOp(name), None), Call(DispatchOp(desc), None)];
      Pull(src, ImageIdentifier(reference)) ==
        if u.result.Failure? then Run(Failure(u.result.error), pre + u.trace)
        else Run(src.opt.cacheGet(u.result.value),
                 pre + u.trace + [Call(CacheGetOp(u.result.value), src.opt.cacheGet(u.result.value).ErrorOf())])
  {
  }

  /**
   A manifest or config that cannot be read or decoded fails the pull with
   the wrapped read, decode or rootfs error, and no layer is applied or mapped.
   */
  lemma PullLayerError(src: ImageSource, reference: string)
    requires src.Valid()
    requires src.remote.resolve(reference).Success?
    requires var (name, desc) := src.remote.resolve(reference).value;
      && src.remote.fetcher(name).None?
      && src.remote.dispatch(name, desc).None?
      && Decode(src.opt.contentStore, src.unmarshal, desc).Failure?
    ensures var desc := src.remote.resolve(reference).value.1;
      Pull(src, ImageIdentifier(reference)).result == Failure(Decode(src.opt.contentStore, src.unmarshal, desc).error)
    ensures NothingUnpacked(Pull(src, ImageIdentifier(reference)).trace)
  {
    PullStages(src, reference);
  }
}
