/** The OCI image shapes the pull works with. */
module Oci {
  import opened Digests

  type Bytes = seq<bv8>

  /** Media type given to every uncompressed layer diff. */
  const MediaTypeImageLayer: string := "application/vnd.oci.image.layer.v1.tar"

  /** A content-addressed reference to a blob. */
  datatype Descriptor = Descriptor(mediaType: string, digest: Digest, size: int)

  /** A decoded image manifest: a config blob and the ordered layer blobs. */
  datatype Manifest = Manifest(config: Descriptor, layers: seq<Descriptor>)

  /** One layer: its uncompressed diff and the compressed blob that carries it. */
  datatype Layer = Layer(diff: Descriptor, blob: Descriptor)

  /** The descriptor of an uncompressed diff known only by its diff ID. */
  function DiffDescriptor(d: Digest): Descriptor {
    Descriptor(MediaTypeImageLayer, d, 0)
  }

  /** The diff IDs of a layer list, in order. */
  function DiffDigests(layers: seq<Layer>): seq<Digest> {
    seq(|layers|, i requires 0 <= i < |layers| => layers[i].diff.digest)
  }

  /** The blob descriptors of a layer list, in order. */
  function Blobs(layers: seq<Layer>): seq<Descriptor> {
    seq(|layers|, i requires 0 <= i < |layers| => layers[i].blob)
  }
}
