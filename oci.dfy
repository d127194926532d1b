/**
 * The part of the OCI Image Format Specification the handlers look at: descriptors,
 * the image manifest and image index media types, and the pre-defined title annotation.
 */
module Oci {

  const MediaTypeImageManifest: string := "application/vnd.oci.image.manifest.v1+json"
  const MediaTypeImageIndex: string := "application/vnd.oci.image.index.v1+json"
  const MediaTypeImageConfig: string := "application/vnd.oci.image.config.v1+json"
  const MediaTypeImageLayer: string := "application/vnd.oci.image.layer.v1.tar"

  /** The pre-defined annotation key holding a human-readable title (annotations.md). */
  const AnnotationTitle: string := "org.opencontainers.image.title"

  /** A content descriptor; the digest is kept in its string form. */
  datatype Descriptor = Descriptor(
    mediaType: string,
    digest: string,
    size: nat,
    annotations: map<string, string>)

  /** The title annotation, or "" when absent (a Go lookup in a nil or missing map entry). */
  function Title(d: Descriptor): string
  {
    if AnnotationTitle in d.annotations then d.annotations[AnnotationTitle] else ""
  }

  /** Only image manifests and image indexes reference other content. */
  predicate MayHaveSuccessors(mediaType: string)
  {
    mediaType == MediaTypeImageManifest || mediaType == MediaTypeImageIndex
  }
}
