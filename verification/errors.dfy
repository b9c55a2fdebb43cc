/** The errors an image pull can end with. */
module Errors {

  datatype Error =
      /** The source identifier is not an image identifier. */
    | InvalidIdentifier
      /** The snapshotter cannot record chain-to-blob associations. */
    | MissingBlobMapping
      /** The config's diff IDs and the manifest's layers differ in number. */
    | MismatchedLayers
      /** A collaborator's error with a message naming the failing step. */
    | Wrapped(context: string, cause: Error)
      /** An error returned by a collaborator, passed through unchanged. */
    | External(message: string)

  const ReadManifestContext: string := "failed to read manifest blob"
  const UnmarshalContext: string := "failed to unmarshal manifest"
  const RootFSContext: string := "failed to resolve rootfs"
}
