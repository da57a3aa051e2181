/**
 * What the image uploaders know about a chosen file, and the browser work they delegate.
 * Canvas compression and `FileReader.readAsDataURL` are not modelled: a caller-supplied
 * `process` function says what size the compressed file has and whether reading it as a data
 * URL succeeds.
 */
module UploadFiles {
  import opened Wrappers
  import opened JsValues

  datatype FileInfo = FileInfo(name: string, mimeType: string, size: nat)

  /**
   * What compressing and reading a file leads to: the compressed file's size and its data URL
   * (`None` when the reader fails), or `NeverDecodes` when the browser cannot load the file as
   * an image. Compression waits only for the image's load event, so in that case its promise
   * never settles and the handler awaiting it never resumes.
   */
  datatype Processed = Processed(size: nat, dataUrl: Option<string>) | NeverDecodes

  /** The largest compressed file either uploader accepts: 3 MiB. */
  const MaxCompressedBytes := 3 * 1024 * 1024

  /** `file.type.startsWith('image/')`. */
  predicate IsImage(f: FileInfo) {
    StartsWith(f.mimeType, "image/")
  }

  function TooLargeAlert(f: FileInfo): string {
    "File " + f.name + " could not be compressed enough. Please use a smaller image."
  }
}
