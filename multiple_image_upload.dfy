/**
 * The multi-photo uploader of the listing forms: a bounded list of data-URL images, filled
 * from a batch of chosen files (non-images and files still too large after compression are
 * skipped) and trimmed one position at a time.
 */
module MultipleImageUpload {
  import opened Wrappers
  import opened JsValues
  import opened UploadFiles

  const DefaultMaxImages := 10
  const FailureAlert := "Failed to process some images. Please try again."

  /**
   * How the loop ends: it ran over every file, a read failed (which aborts the batch), or an
   * image never loaded, so the awaited compression never settles and the loop waits forever.
   */
  datatype Halt = Finished | ReadFailed | Waiting

  /** The loop's outcome: the images read, the alerts shown, and how it ended. */
  datatype Batch = Batch(images: seq<string>, alerts: seq<string>, halt: Halt)

  /** One file of the loop, after the ones before it produced `b`. */
  function Step(b: Batch, f: FileInfo, process: FileInfo -> Processed): Batch {
    if !IsImage(f) then b
    else match process(f)
      case NeverDecodes => Batch(b.images, b.alerts, Waiting)
      case Processed(size, dataUrl) =>
        if size > MaxCompressedBytes then Batch(b.images, b.alerts + [TooLargeAlert(f)], Finished)
        else match dataUrl
          case Some(url) => Batch(b.images + [url], b.alerts, Finished)
          case None => Batch(b.images, b.alerts, ReadFailed)
  }

  /** The loop over `files` in order; nothing after a failed read or a stalled image is looked at. */
  function Collect(files: seq<FileInfo>, process: FileInfo -> Processed): Batch {
    if files == [] then Batch([], [], Finished)
    else
      var before := Collect(files[..|files| - 1], process);
      if before.halt != Finished then before else Step(before, files[|files| - 1], process)
  }

  /** A file's contribution when the batch goes through: its data URL if it is an image that loads and fits. */
  predicate Accepted(f: FileInfo, process: FileInfo -> Processed) {
    IsImage(f) && process(f).Processed? && process(f).size <= MaxCompressedBytes && process(f).dataUrl.Some?
  }

  /** The images the batch would add if it went through: the accepted files' data URLs, in order. */
  function AcceptedUrls(files: seq<FileInfo>, process: FileInfo -> Processed): (urls: seq<string>)
    ensures |urls| <= |files|
  {
    if files == [] then []
    else
      var last := files[|files| - 1];
      AcceptedUrls(files[..|files| - 1], process)
        + (if Accepted(last, process) then [process(last).dataUrl.value] else [])
  }

  /** A batch that goes through adds exactly the accepted files' data URLs, in input order. */
  lemma {:induction false} CollectAddsAccepted(files: seq<FileInfo>, process: FileInfo -> Processed)
    ensures Collect(files, process).halt == Finished ==> Collect(files, process).images == AcceptedUrls(files, process)
  {
    if files != [] {
      CollectAddsAccepted(files[..|files| - 1], process);
    }
  }

  /**
   * The batch waits forever exactly when some image never loads and every image before it
   * was read or skipped for its size.
   */
  lemma {:induction false} WaitsOnUndecodable(files: seq<FileInfo>, process: FileInfo -> Processed)
    ensures Collect(files, process).halt == Waiting <==>
      exists k :: 0 <= k < |files| && IsImage(files[k]) && process(files[k]).NeverDecodes?
        && Collect(files[..k], process).halt == Finished
  {
    if files != [] {
      var n := |files| - 1;
      var init := files[..n];
      WaitsOnUndecodable(init, process);
      assert forall k :: 0 <= k < n ==> init[k] == files[k] && init[..k] == files[..k];
      if Collect(files, process).halt == Waiting {
        if Collect(init, process).halt == Waiting {
          var k :| 0 <= k < |init| && IsImage(init[k]) && process(init[k]).NeverDecodes?
            && Collect(init[..k], process).halt == Finished;
          assert files[k] == init[k] && files[..k] == init[..k];
        } else {
          assert files[..n] == init;
        }
      } else {
        forall k | 0 <= k < |files| && IsImage(files[k]) && process(files[k]).NeverDecodes?
          ensures Collect(files[..k], process).halt != Finished
        {
          if k < n {
            assert init[k] == files[k] && init[..k] == files[..k];
          } else {
            assert files[..k] == init;
          }
        }
      }
    }
  }

  /** Once a read has failed or an image has stalled, the outcome no longer changes. */
  lemma {:induction false} HaltIsFinal(files: seq<FileInfo>, i: nat, process: FileInfo -> Processed)
    requires i <= |files| && Collect(files[..i], process).halt != Finished
    ensures Collect(files, process) == Collect(files[..i], process)
    decreases |files| - i
  {
    if i < |files| {
      assert files[..i + 1][..i] == files[..i];
      HaltIsFinal(files, i + 1, process);
    } else {
      assert files[..i] == files;
    }
  }

  /** The `for` loop of `handleFiles`, up to the first failed read or stalled image. */
  method CollectImages(files: seq<FileInfo>, process: FileInfo -> Processed) returns (b: Batch)
    ensures b == Collect(files, process)
  {
    b := Batch([], [], Finished);
    var i := 0;
    while i < |files| && b.halt == Finished
      invariant 0 <= i <= |files|
      invariant b == Collect(files[..i], process)
    {
      assert files[..i + 1][..i] == files[..i];
      b := Step(b, files[i], process);
      i := i + 1;
    }
    if b.halt != Finished {
      HaltIsFinal(files, i, process);
    } else {
      assert files[..i] == files;
    }
  }

  /** `images.filter((_, i) => i !== index)`. */
  function RemoveAt(s: seq<string>, index: int): (r: seq<string>)
    ensures 0 <= index < |s| ==> r == s[..index] + s[index + 1..]
    ensures !(0 <= index < |s|) ==> r == s
  {
    if s == [] then []
    else
      var rest := RemoveAt(s[1..], index - 1);
      if index == 0 then rest else [s[0]] + rest
  }

  class MultipleImageUploadState {
    var images: seq<string>
    var uploading: bool
    var alerts: seq<string>
    /** The lists passed to `onImagesChange`, in order. */
    var changes: seq<seq<string>>
    const maxImages: int

    constructor (currentImages: seq<string>, maxImages: int)
      ensures images == currentImages && this.maxImages == maxImages
      ensures !uploading && alerts == [] && changes == []
    {
      images := currentImages;
      this.maxImages := maxImages;
      uploading := false;
      alerts := [];
      changes := [];
    }

    /**
     * `handleFiles`. An empty batch does nothing; a full list only alerts. Otherwise the first
     * `maxImages - |images|` files are processed and, when the loop goes through, the images read
     * are appended and reported; a failed read alerts and leaves the list alone. An image that
     * never loads leaves the handler waiting: the list is unchanged and `uploading` stays set.
     */
    method HandleFiles(files: seq<FileInfo>, process: FileInfo -> Processed)
      modifies this
      ensures |files| == 0 ==>
        images == old(images) && alerts == old(alerts) && changes == old(changes) && uploading == old(uploading)
      ensures |files| > 0 && maxImages - |old(images)| <= 0 ==>
        images == old(images) && changes == old(changes) && uploading == old(uploading)
        && alerts == old(alerts) + ["Maximum " + IntToString(maxImages) + " images allowed"]
      ensures |files| > 0 && maxImages - |old(images)| > 0 ==>
        var slots := maxImages - |old(images)|;
        var b := Collect(files[..if slots < |files| then slots else |files|], process);
        alerts == old(alerts) + b.alerts + (if b.halt == ReadFailed then [FailureAlert] else [])
        && uploading == (b.halt == Waiting)
        && (b.halt != Finished ==> images == old(images) && changes == old(changes))
        && (b.halt == Finished ==> images == old(images) + b.images && changes == old(changes) + [images])
      ensures images[..|old(images)|] == old(images)
      ensures |old(images)| < maxImages ==> |images| <= maxImages
    {
      if |files| == 0 {
        return;
      }
      var remainingSlots := maxImages - |images|;
      if remainingSlots <= 0 {
        alerts := alerts + ["Maximum " + IntToString(maxImages) + " images allowed"];
        return;
      }
      var toProcess := files[..if remainingSlots < |files| then remainingSlots else |files|];
      uploading := true;
      var b := CollectImages(toProcess, process);
      alerts := alerts + b.alerts;
      match b.halt {
        case Waiting =>
          // the awaited compression never settles: nothing after it runs
          return;
        case ReadFailed =>
          alerts := alerts + [FailureAlert];
        case Finished =>
          CollectAddsAccepted(toProcess, process);
          images := images + b.images;
          changes := changes + [images];
      }
      uploading := false;
    }

    /** `removeImage`: the image at `index` goes, the rest keep their order, and the new list is reported. */
    method RemoveImage(index: int)
      modifies this
      ensures images == RemoveAt(old(images), index)
      ensures 0 <= index < |old(images)| ==> |images| == |old(images)| - 1
      ensures changes == old(changes) + [images]
      ensures alerts == old(alerts) && uploading == old(uploading)
    {
      images := RemoveAt(images, index);
      changes := changes + [images];
    }
  }
}
