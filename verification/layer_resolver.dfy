/**
 Layer resolution: pairs the manifest's compressed layer blobs with the image
 config's diff IDs, index by index, after checking that both lists agree in
 length.
 */
module LayerResolver {
  import opened Wrappers
  import opened Digests
  import opened Oci
  import opened Errors

  /** Read access to the content store, as the resolution step uses it. */
  datatype Provider = Provider(
    /** The bytes of the blob with the given digest. */
    readBlob: Digest -> Result<Bytes, Error>,
    /** The diff IDs listed in the rootfs section of the image's config. */
    rootFS: Descriptor -> Result<seq<Digest>, Error>
  )

  /** Decodes a manifest from its JSON bytes. */
  type Unmarshal = Bytes -> Result<Manifest, Error>

  /**
   Reads and decodes the manifest, then reads the config's diff IDs; the first
   step that fails decides the error, wrapped with the step's message.
   */
  function Decode(p: Provider, unmarshal: Unmarshal, desc: Descriptor): Result<(Manifest, seq<Digest>), Error>
  {
    match p.readBlob(desc.digest)
    case Failure(e) => Failure(Wrapped(ReadManifestContext, e))
    case Success(bytes) =>
      match unmarshal(bytes)
      case Failure(e) => Failure(Wrapped(UnmarshalContext, e))
      case Success(manifest) =>
        match p.rootFS(desc)
        case Failure(e) => Failure(Wrapped(RootFSContext, e))
        case Success(diffIDs) => Success((manifest, diffIDs))
  }

  /**
   Decoding succeeds exactly when the manifest blob can be read and decoded
   and the config's rootfs can be read; otherwise the first failing step's
   error is returned, wrapped with that step's message.
   */
  lemma DecodeSteps(p: Provider, unmarshal: Unmarshal, desc: Descriptor)
    ensures Decode(p, unmarshal, desc).Success? <==>
      && p.readBlob(desc.digest).Success?
      && unmarshal(p.readBlob(desc.digest).value).Success?
      && p.rootFS(desc).Success?
    ensures Decode(p, unmarshal, desc).Success? ==>
      Decode(p, unmarshal, desc).value == (unmarshal(p.readBlob(desc.digest).value).value, p.rootFS(desc).value)
    ensures p.readBlob(desc.digest).Failure? ==>
      Decode(p, unmarshal, desc) == Failure(Wrapped(ReadManifestContext, p.readBlob(desc.digest).error))
    ensures p.readBlob(desc.digest).Success? && unmarshal(p.readBlob(desc.digest).value).Failure? ==>
      Decode(p, unmarshal, desc) == Failure(Wrapped(UnmarshalContext, unmarshal(p.readBlob(desc.digest).value).error))
    ensures p.readBlob(desc.digest).Success? && unmarshal(p.readBlob(desc.digest).value).Success? && p.rootFS(desc).Failure? ==>
      Decode(p, unmarshal, desc) == Failure(Wrapped(RootFSContext, p.rootFS(desc).error))
  {
  }

  /** Layer i joins diff ID i, under the generic layer media type, with blob i. */
  function PairLayers(diffIDs: seq<Digest>, blobs: seq<Descriptor>): (layers: seq<Layer>)
    requires |diffIDs| == |blobs|
    ensures |layers| == |diffIDs|
    ensures forall i :: 0 <= i < |layers| ==> layers[i].diff == DiffDescriptor(diffIDs[i])
    ensures forall i :: 0 <= i < |layers| ==> layers[i].blob == blobs[i]
    decreases |diffIDs|
  {
    if |diffIDs| == 0 then []
    else [Layer(DiffDescriptor(diffIDs[0]), blobs[0])] + PairLayers(diffIDs[1..], blobs[1..])
  }

  /** The ordered layer list of the image whose manifest is `desc`. */
  function GetLayers(p: Provider, unmarshal: Unmarshal, desc: Descriptor): (r: Result<seq<Layer>, Error>)
    ensures Decode(p, unmarshal, desc).Failure? ==> r == Failure(Decode(p, unmarshal, desc).error)
    ensures Decode(p, unmarshal, desc).Success? ==>
      var (manifest, diffIDs) := Decode(p, unmarshal, desc).value;
      && (|diffIDs| != |manifest.layers| <==> r == Failure(MismatchedLayers))
      && (|diffIDs| == |manifest.layers| <==> r.Success?)
      && (r.Success? ==>
            && |r.value| == |diffIDs| == |manifest.layers|
            && (forall i :: 0 <= i < |r.value| ==> r.value[i].diff.digest == diffIDs[i])
            && (forall i :: 0 <= i < |r.value| ==> r.value[i].blob == manifest.layers[i])
            && (forall i :: 0 <= i < |r.value| ==> r.value[i].diff.mediaType == MediaTypeImageLayer))
  {
    match Decode(p, unmarshal, desc)
    case Failure(e) => Failure(e)
    case Success((manifest, diffIDs)) =>
      if |diffIDs| != |manifest.layers| then Failure(MismatchedLayers)
      else Success(PairLayers(diffIDs, manifest.layers))
  }

  /** Normalised layers: each diff has the generic media type and no recorded size. */
  predicate Normalised(layers: seq<Layer>) {
    forall i :: 0 <= i < |layers| ==> layers[i].diff == DiffDescriptor(layers[i].diff.digest)
  }

  /** Splitting a resolved layer list gives back the diff IDs and the manifest layers. */
  lemma GetLayersRoundTrip(p: Provider, unmarshal: Unmarshal, desc: Descriptor)
    requires GetLayers(p, unmarshal, desc).Success?
    ensures Decode(p, unmarshal, desc).Success?
    ensures DiffDigests(GetLayers(p, unmarshal, desc).value) == Decode(p, unmarshal, desc).value.1
    ensures Blobs(GetLayers(p, unmarshal, desc).value) == Decode(p, unmarshal, desc).value.0.layers
    ensures Normalised(GetLayers(p, unmarshal, desc).value)
  {
  }

  /** Pairing is inverse to splitting for normalised layer lists. */
  lemma PairLayersOfSplit(layers: seq<Layer>)
    requires Normalised(layers)
    ensures PairLayers(DiffDigests(layers), Blobs(layers)) == layers
  {
  }
}
