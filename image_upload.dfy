/**
 * The single-image uploader: only the first chosen file counts; it must be an image and fit
 * within 3 MiB once compressed before anything changes. The preview shows the original file,
 * while the callback receives the compressed file's data URL.
 */
module ImageUpload {
  import opened Wrappers
  import opened JsValues
  import opened UploadFiles

  const NotAnImageAlert := "Please upload an image file"
  const FailureAlert := "Failed to process image. Please try again."

  class ImageUploadState {
    /** The preview image; "" shows none. */
    var previewUrl: string
    var uploading: bool
    var alerts: seq<string>
    /** The values passed to `onImageChange`, in order. */
    var emitted: seq<string>
    /** The file input's value was reset. */
    var inputCleared: bool

    constructor (currentImageUrl: Option<string>)
      ensures previewUrl == currentImageUrl.GetOr("")
      ensures !uploading && alerts == [] && emitted == [] && !inputCleared
    {
      previewUrl := currentImageUrl.GetOr("");
      uploading := false;
      alerts := [];
      emitted := [];
      inputCleared := false;
    }

    /**
     * `handleFiles`, with `objectUrl` standing for `URL.createObjectURL`. The result says whether
     * the upload got past the checks (and so set, then reset, `uploading`). A file that never
     * loads as an image leaves the handler waiting before anything is shown.
     */
    method HandleFiles(files: seq<FileInfo>, process: FileInfo -> Processed, objectUrl: FileInfo -> string)
      returns (started: bool)
      modifies this
      ensures started <==>
        |files| > 0 && IsImage(files[0]) && process(files[0]).Processed?
        && process(files[0]).size <= MaxCompressedBytes
      ensures |files| == 0 ==>
        previewUrl == old(previewUrl) && alerts == old(alerts) && emitted == old(emitted)
      ensures |files| > 0 && !IsImage(files[0]) ==>
        previewUrl == old(previewUrl) && emitted == old(emitted) && alerts == old(alerts) + [NotAnImageAlert]
      ensures |files| > 0 && IsImage(files[0]) && process(files[0]).NeverDecodes? ==>
        previewUrl == old(previewUrl) && emitted == old(emitted) && alerts == old(alerts)
      ensures |files| > 0 && IsImage(files[0]) && process(files[0]).Processed? && !started ==>
        previewUrl == old(previewUrl) && emitted == old(emitted)
        && alerts == old(alerts) + [TooLargeAlert(files[0])]
      ensures started ==>
        previewUrl == objectUrl(files[0])
        && match process(files[0]).dataUrl
           case Some(url) => emitted == old(emitted) + [url] && alerts == old(alerts)
           case None => emitted == old(emitted) && alerts == old(alerts) + [FailureAlert]
      ensures uploading == if started then false else old(uploading)
      ensures inputCleared == old(inputCleared)
    {
      started := false;
      if |files| == 0 {
        return;
      }
      var file := files[0];
      if !IsImage(file) {
        alerts := alerts + [NotAnImageAlert];
        return;
      }
      var processed := process(file);
      if processed.NeverDecodes? {
        // the compression never settles: the handler stops here, having changed nothing
        return;
      }
      if processed.size > MaxCompressedBytes {
        alerts := alerts + [TooLargeAlert(file)];
        return;
      }
      started := true;
      uploading := true;
      previewUrl := objectUrl(file);
      match processed.dataUrl {
        case Some(url) => emitted := emitted + [url];
        case None => alerts := alerts + [FailureAlert];
      }
      uploading := false;
    }

    /** `removeImage`: no preview, "" reported to the form, and the input reset. */
    method RemoveImage()
      modifies this
      ensures previewUrl == "" && emitted == old(emitted) + [""] && inputCleared
      ensures alerts == old(alerts) && uploading == old(uploading)
    {
      previewUrl := "";
      emitted := emitted + [""];
      inputCleared := true;
    }
  }
}
