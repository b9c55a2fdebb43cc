# Docker-image source of the build cache: a Dafny model

This project models the image source of BuildKit's container-image puller
(`source/containerimage/pull.go`). A pull turns an image reference into a
cached, read-only root filesystem:

1. `NewSource` builds the source. It refuses a snapshotter that cannot
   record chain-to-blob associations (the `blobmapper` capability).
2. `Pull` accepts only image identifiers. It resolves the reference, obtains
   a fetcher, walks the manifest/config/layer graph into the content store,
   unpacks the image and asks the cache accessor for the resulting chain.
3. `unpack` resolves the layer list (`getLayers`), applies the layers
   (`rootfs.ApplyLayers`), then records the blob mapping (`fillBlobMapping`).
4. `getLayers` reads the manifest and the config's diff IDs and checks that
   they agree in number. It then pairs them index by index into
   `Layer{Diff, Blob}`. Every diff gets the generic layer media type.
5. `fillBlobMapping` walks the layers in order. It extends a chain of diff IDs
   and computes the chain ID of the prefix so far. It calls
   `SetBlob(chainID, blob digest)` once per layer and stops at the first
   error.

The chain ID is the "Layer ChainID" of the OCI image format:
`ChainID([d]) = d` and `ChainID(p + [d]) = H(ChainID(p) + " " + d)`. The
empty chain has the empty digest. `H` is a parameter and stays
uninterpreted.

Modules, one per concern:

- `Wrappers` (wrappers.dfy): `Option` and `Result`.
- `Errors` (errors.dfy): the errors a pull can end with. It has three
  errors of the source's own, wrapped collaborator errors and collaborator
  errors passed through unchanged.
- `Digests` (digests.dfy): `ChainID` and its injectivity under stated
  hypotheses about `H`.
- `Oci` (oci.dfy): `Descriptor`, `Manifest`, `Layer`, the layer media type.
- `LayerResolver` (layer_resolver.dfy): `getLayers`.
- `BlobMapping` (blob_mapping.dfy): `fillBlobMapping` and the store it fills.
- `ImageSource` (image_source.dfy): `NewSource`, `unpack` and `Pull`.

External collaborators are function-valued fields of the source. These are
the resolver, the fetcher, the graph walk, the blob reader, the config's
rootfs reader, the manifest decoder, layer application, `SetBlob`, the cache
accessor and the digest function. Each fallible one returns a `Result` or an
`Option<Error>`. `SetBlob` may answer differently depending on the writes
the mapping pass has already made. Every call the pipeline makes to the
resolver, fetcher, graph walk, applier, `SetBlob` and cache is recorded in a
trace together with the error it returned. Content-store reads are
side-effect free and are not traced.

Two facts about the code shape the model:

- All layers are applied in one call before any mapping entry is written,
  in a separate pass. A failed application therefore leaves no mapping
  entries at all.
- Collaborator errors pass through unchanged. Only the three read/decode
  failures of `getLayers` are wrapped. The code's own errors are an invalid
  identifier, a missing blob mapping and the layer-count mismatch.

## Model

| member | source | states |
|---|---|---|
| Digests.ChainID | source/containerimage/pull.go:119-120 | The OCI Layer ChainID of the diff IDs so far, as `identity.ChainID` computes it; its property is `ChainIDInjective` |
| Digests.ChainIDInjective | source/containerimage/pull.go:119-120 | With a collision-free `H` and space-free diff IDs, none of which is the digest of a chain step `x + " " + d`, equal chain IDs of non-empty stacks mean equal stacks; so reordering or truncating a stack changes its identity |
| Digests.PrefixChainIDsDistinct | source/containerimage/pull.go:117-124 | Under the same hypotheses, two different non-empty prefixes of one stack have different chain IDs |
| LayerResolver.DecodeSteps | source/containerimage/pull.go:129-141 | Decoding succeeds exactly when the manifest read, the manifest decode and the rootfs lookup all succeed, and then returns their values; otherwise the first failing step's error is returned wrapped with that step's message |
| LayerResolver.PairLayers | source/containerimage/pull.go:145-153 | Layer `i` holds diff ID `i` under the generic layer media type, and manifest blob `i`; the result is exactly as long as the inputs |
| LayerResolver.GetLayers | source/containerimage/pull.go:128-155 | A failed read, decode or rootfs lookup is returned wrapped; otherwise a count mismatch is an error and never a padded or truncated list, and success pairs diff IDs and blobs index by index with the layer media type |
| LayerResolver.GetLayersRoundTrip | source/containerimage/pull.go:142-153 | Splitting a resolved layer list gives back exactly the config's diff IDs and the manifest's layers, and every diff is normalised |
| LayerResolver.PairLayersOfSplit | source/containerimage/pull.go:145-153 | Pairing is the inverse of splitting for any normalised layer list |
| BlobMapping.FirstRejected | source/containerimage/pull.go:121-123 | The index found is the first write the snapshotter rejects: all earlier writes are accepted and that one is not |
| BlobMapping.FirstRejectedAt | source/containerimage/pull.go:121-123 | Any index before which all writes are accepted and at which one is rejected is the one the search finds |
| BlobMapping.FillFrom | source/containerimage/pull.go:118-124 | Continuing from the owed writes already made, with the diff IDs covered so far as the chain, the loop issues the owed writes up to and including the first rejected one |
| BlobMapping.FillBlobMapping | source/containerimage/pull.go:116-126 | The writes are the owed writes, in layer order, keyed by the chain ID of each prefix. Writing stops at the first rejection, which is returned. Without a rejection there is one write per layer and the pass succeeds |
| BlobMapping.FillStopsAtFirstRejection | source/containerimage/pull.go:121-123 | If writes `0..k-1` are accepted and write `k` is rejected, exactly writes `0..k` are issued and the error is write `k`'s rejection |
| BlobMapping.FillAllAccepted | source/containerimage/pull.go:118-125 | If every owed write is accepted, all of them are issued in order and the pass succeeds |
| BlobMapping.FillNoLayers | source/containerimage/pull.go:116-125 | An image without layers issues no writes and succeeds |
| BlobMapping.SharedPrefixSameKey | source/containerimage/pull.go:119-121 | Two passes whose layer lists share the diff IDs of layers `0..i` write the same key at position `i` |
| BlobMapping.OwedKeysDistinct | source/containerimage/pull.go:118-121 | Under the digest hypotheses, the keys of the owed writes are pairwise distinct, so no mapping write overwrites an earlier one |
| BlobMapping.StoreOwed | source/containerimage/pull.go:118-124 | Applying all owed writes to a store makes each prefix chain ID resolve to its layer's blob digest, and adds no other key |
| BlobMapping.MappingComplete | source/containerimage/pull.go:116-125 | After a successful pass over N layers, the store gains exactly the N prefix chain IDs, each mapped to the digest of the blob of the prefix's last layer |
| BlobMapping.TwoLayerImage | source/containerimage/pull.go:116-125 | For layers `[L0, L1]` with diff IDs `[D0, D1]`, the pass writes `D0 -> L0` and then `H(D0 + " " + D1) -> L1` |
| ImageSource.NewSource | source/containerimage/pull.go:42-55 | Construction fails exactly when the snapshotter lacks blob mapping, with that error; every source it builds has the capability |
| ImageSource.FillAnswers | source/containerimage/pull.go:121-123 | Every SetBlob call of a pass except the last succeeded; the last one failed with the pass's error, or succeeded if the pass did |
| ImageSource.Unpack | source/containerimage/pull.go:98-114 | The unpack trace is ordered: apply, then SetBlob calls only after a successful apply. It stops at the first failing call and fails with that call's error |
| ImageSource.UnpackStopsOnLayerError | source/containerimage/pull.go:99-102 | If the layers cannot be resolved, nothing is applied and nothing is mapped, and that error is returned |
| ImageSource.UnpackStopsOnApplyError | source/containerimage/pull.go:104-107 | If application fails, its error is returned and no SetBlob is issued |
| ImageSource.UnpackStopsOnMappingError | source/containerimage/pull.go:109-111 | If the snapshotter rejects a mapping write, unpack fails with that rejection; its trace is the successful apply followed by every SetBlob call of the pass, the accepted earlier writes included |
| ImageSource.UnpackCompletes | source/containerimage/pull.go:98-113 | If the layers resolve, application succeeds and every mapping write is accepted, unpack succeeds with the applier's chain ID after the apply and all owed SetBlob calls |
| ImageSource.UnpackSucceeds | source/containerimage/pull.go:104-113 | A successful unpack applied the resolved layers, issued the owed SetBlob for every layer in order, all accepted, and returns the applier's chain ID |
| ImageSource.UnpackTopKeyIsResult | source/containerimage/pull.go:104-113 | When the applier returns the chain ID of the layers it applied, the last mapping key equals the chain ID the unpack returns |
| ImageSource.UnpackAndGet | source/containerimage/pull.go:90-95 | Unpack then cache lookup: the trace is ordered and stops at the first failure; on success every call succeeded and the result is the cache's answer for the looked-up chain ID |
| ImageSource.DispatchAndUnpack | source/containerimage/pull.go:86-95 | A failed graph walk ends with its error and nothing else runs; otherwise the same ordering and success facts hold |
| ImageSource.FetchAndUnpack | source/containerimage/pull.go:74-95 | A failure to get a fetcher ends with its error and nothing else runs; otherwise the same ordering and success facts hold |
| ImageSource.Pull | source/containerimage/pull.go:61-96 | A non-image identifier fails with no call made. Otherwise resolution comes first and calls run stage by stage. Mapping writes follow a successful apply. The pull stops at and fails with the first failing call. Success returns the cache's reference for the final chain ID |
| ImageSource.PullStages | source/containerimage/pull.go:86-95 | Once resolve, fetcher and graph walk succeed, the pull fails with the unpack's error if it fails, and otherwise returns the cache's answer for the unpacked chain ID, with the lookup as the last call |
| ImageSource.PullLayerError | source/containerimage/pull.go:90-93 | A manifest or config that cannot be read or decoded fails the pull with the wrapped error, and no layer is applied or mapped |
| ImageSource.PullAbortsBeforeUnpack | source/containerimage/pull.go:70-88 | A resolve, fetcher or graph-walk failure ends the pull with that error before any layer is applied, mapped or looked up |
| ImageSource.PullMismatchedLayers | source/containerimage/pull.go:99-101 | A layer-count mismatch between config and manifest fails the pull with the mismatch error before any snapshot or mapping work |
| ImageSource.PullSucceeds | source/containerimage/pull.go:61-96 | A successful pull is exactly resolve, fetcher, graph walk, a successful unpack and a cache lookup of the unpacked chain ID, whose answer it returns |

## Left out

- Network I/O: `docker.NewResolver`, `http.DefaultClient`, `Resolve` and
  `Fetcher` are fallible function parameters. The fetcher is reduced to
  whether one could be obtained.
- The content-graph walk (`images.Dispatch`, `FetchHandler`,
  `ChildrenHandler`) is one fallible step. Its skip-if-present fetching and
  child discovery belong to containerd, whose source is not part of this
  model.
- JSON decoding of the manifest, `content.ReadBlob` and `image.RootFS` are
  fallible function parameters. The wrap messages are kept as constants, but
  the `"context: cause"` text formatting of wrapped errors is not modelled.
- `rootfs.ApplyLayers`, the snapshotter, the applier and the cache accessor
  are abstract functions. Skipping an existing snapshot during application
  happens inside them and is not modelled. `UnpackTopKeyIsResult` states its
  conclusion only for an applier that returns the chain ID of what it applied.
- The digest algorithm is uninterpreted. `ChainIDInjective`,
  `PrefixChainIDsDistinct`, `OwedKeysDistinct`, `StoreOwed` and
  `MappingComplete` assume that the digest is collision-free, that diff IDs
  contain no space, and that no diff ID is the digest of a chain step
  `x + " " + d`. A real diff ID digests an uncompressed tar, which is never
  such a string, so collision freedom gives the last condition. Collision
  freedom itself is the usual idealisation of SHA-256, not a proved fact.
- Descriptor fields other than media type, digest and size (URLs,
  annotations, platform) and the manifest's schema version are not modelled.
  The manifest's config descriptor is carried but not used, as in the code.
- `context` cancellation is not modelled.
- `ID()` only returns the scheme constant of another package. It is not
  modelled.
- `GetBlob` of the blob-mapping interface is never called by this code. It is
  not modelled.
- `Unpack` and `Pull` require a source built by `NewSource` (one whose
  snapshotter has blob mapping). The code's type assertion at each `SetBlob`
  relies on the same fact.
- cmd/buildd/main_standalone.go is process wiring that forwards to another
  package. It is not part of this model.
- Concurrency between pulls is not modelled. `SharedPrefixSameKey` states
  only that passes sharing a base write the same keys.
