/**
 * The profile picture uploader shared by dealers and individual users. A chosen file is
 * checked (size first, then type); an accepted file is sent to cloud storage through a signed
 * URL the server hands out, and the stored location (the URL without its query string) is
 * then recorded against the dealer or the user. Every failure after the checks ends in one
 * error toast, and the busy flag is cleared whatever happens.
 *
 * The three network calls are parameters: the reply to the upload-URL request, whether the
 * storage PUT came back `ok`, and the reply to the profile update with the
 * `profilePicturePath` it carries.
 */
module ProfilePictureUploader {
  import opened Wrappers
  import opened JsValues
  import opened Toasts
  import opened UploadFiles

  datatype UserType = DealerAccount | IndividualAccount

  /** 5 MiB, the largest file accepted before any upload starts. */
  const MaxFileBytes := 5242880

  const UploadUrlEndpoint := "/api/profile-picture/upload-url"
  const DealerPictureEndpoint := "/api/dealers/profile-picture"
  const UserPictureEndpoint := "/api/users/profile-picture"

  const TooLargeToast := Toast("File too large", "Please select an image under 5MB", true)
  const WrongTypeToast := Toast("Invalid file type", "Please select an image file", true)
  const SuccessToast := Toast("Success", "Profile picture updated successfully!", false)
  const ErrorToast := Toast("Upload Error", "Failed to upload profile picture. Please try again.", true)

  /**
   * A request the uploader sends: its verb, its URL and its named fields (the JSON body of an
   * API call, or the headers of the storage upload, whose body is the file itself).
   */
  datatype Request = Request(verb: string, url: string, fields: seq<(string, string)>)

  /** What the checks decide about the chosen files. */
  datatype Check = NoFile | TooLarge | NotAnImage | Accepted

  function CheckFile(files: seq<FileInfo>): (c: Check)
    ensures c == NoFile <==> |files| == 0
    ensures c == TooLarge <==> |files| > 0 && files[0].size > MaxFileBytes
    ensures c == NotAnImage <==> |files| > 0 && files[0].size <= MaxFileBytes && !IsImage(files[0])
    ensures c == Accepted <==> |files| > 0 && files[0].size <= MaxFileBytes && IsImage(files[0])
  {
    if |files| == 0 then NoFile
    else if files[0].size > MaxFileBytes then TooLarge
    else if !IsImage(files[0]) then NotAnImage
    else Accepted
  }

  /** `url.split('?')[0]`: everything before the first question mark. */
  function StripQuery(url: string): (r: string)
    ensures r <= url
    ensures '?' !in r
    ensures '?' !in url ==> r == url
    ensures |r| < |url| ==> url[|r|] == '?'
  {
    if url == [] then []
    else if url[0] == '?' then []
    else [url[0]] + StripQuery(url[1..])
  }

  /**
   * The three properties above pin `StripQuery` down: the only prefix without a question mark
   * that ends at the end of the URL or at a question mark is the first segment.
   */
  lemma StripQueryIsFirstSegment(url: string, r: string)
    requires r <= url && '?' !in r
    requires |r| < |url| ==> url[|r|] == '?'
    ensures StripQuery(url) == r
  {
    var s := StripQuery(url);
    LongerPrefixHoldsMark(url, s, r);
    LongerPrefixHoldsMark(url, r, s);
  }

  /** A prefix that reaches past a position holding a question mark contains one. */
  lemma LongerPrefixHoldsMark(url: string, p: string, q: string)
    requires p <= url
    requires |q| < |url| ==> url[|q|] == '?'
    ensures |q| < |p| ==> '?' in p
  {
    if |q| < |p| {
      assert p[|q|] == url[|q|];
    }
  }

  /** A signed URL loses exactly its query string. */
  lemma StripQueryOfSignedUrl(base: string, query: string)
    requires '?' !in base
    ensures StripQuery(base + "?" + query) == base
  {
    var url := base + "?" + query;
    assert base <= url;
    assert |base| < |url| && url[|base|] == '?';
    StripQueryIsFirstSegment(url, base);
  }

  /** The profile update a successful storage upload leads to, or `None` when it is refused. */
  function ProfileUpdate(userType: UserType, userEmail: Option<string>, uploadUrl: string): (r: Option<Request>)
    ensures r.None? <==> userType == IndividualAccount && !TruthyString(userEmail)
    ensures r.Some? ==>
      r.value.verb == "PUT"
      && |r.value.fields| > 0 && r.value.fields[0] == ("profilePictureURL", StripQuery(uploadUrl))
    ensures r.Some? && userType == DealerAccount ==>
      r.value.url == DealerPictureEndpoint && |r.value.fields| == 1
    ensures r.Some? && userType == IndividualAccount ==>
      r.value.url == UserPictureEndpoint && r.value.fields == [r.value.fields[0], ("userEmail", userEmail.value)]
  {
    match userType
    case DealerAccount =>
      Some(Request("PUT", DealerPictureEndpoint, [("profilePictureURL", StripQuery(uploadUrl))]))
    case IndividualAccount =>
      if !TruthyString(userEmail) then None
      else Some(Request("PUT", UserPictureEndpoint,
                        [("profilePictureURL", StripQuery(uploadUrl)), ("userEmail", userEmail.value)]))
  }

  /** What one accepted file leads to: the requests sent, the closing toast, the path handed on. */
  datatype Attempt = Attempt(requests: seq<Request>, toast: Toast, completed: Option<string>)

  /** The work after the checks pass: the `try`/`catch` of the handler. */
  function Upload(userType: UserType, userEmail: Option<string>, hasCallback: bool, file: FileInfo,
                  uploadUrl: Reply<string>, stored: bool, update: Reply<Option<string>>): (a: Attempt)
    ensures 1 <= |a.requests| <= 3 && a.requests[0] == Request("POST", UploadUrlEndpoint, [])
    ensures |a.requests| >= 2 <==> uploadUrl.Ok?
    ensures |a.requests| >= 2 ==>
      a.requests[1] == Request("PUT", uploadUrl.body, [("Content-Type", file.mimeType)])
    ensures |a.requests| == 3 <==>
      uploadUrl.Ok? && stored && ProfileUpdate(userType, userEmail, uploadUrl.body).Some?
    ensures |a.requests| == 3 ==> a.requests[2] == ProfileUpdate(userType, userEmail, uploadUrl.body).value
    ensures a.toast == SuccessToast <==> |a.requests| == 3 && update.Ok?
    ensures a.toast != SuccessToast ==> a.toast == ErrorToast
    ensures a.completed.Some? <==>
      a.toast == SuccessToast && hasCallback && TruthyString(update.body)
    ensures a.completed.Some? ==> Some(a.completed.value) == update.body
  {
    var first := Request("POST", UploadUrlEndpoint, []);
    if !uploadUrl.Ok? then Attempt([first], ErrorToast, None)
    else
      var put := Request("PUT", uploadUrl.body, [("Content-Type", file.mimeType)]);
      var req := ProfileUpdate(userType, userEmail, uploadUrl.body);
      if !stored || req.None? then Attempt([first, put], ErrorToast, None)
      else if !update.Ok? then Attempt([first, put, req.value], ErrorToast, None)
      else Attempt([first, put, req.value], SuccessToast,
                   if hasCallback && TruthyString(update.body) then update.body else None)
  }

  /**
   * An individual user without an email still has the file stored, but nothing is recorded
   * against any profile and the attempt ends in the error toast.
   */
  lemma MissingEmailStoresButNeverRecords(userEmail: Option<string>, hasCallback: bool, file: FileInfo,
                                          url: string, update: Reply<Option<string>>)
    requires !TruthyString(userEmail)
    ensures var a := Upload(IndividualAccount, userEmail, hasCallback, file, Ok(url), true, update);
      a.requests == [Request("POST", UploadUrlEndpoint, []), Request("PUT", url, [("Content-Type", file.mimeType)])]
      && a.toast == ErrorToast && a.completed.None?
  {
  }

  /**
   * What gets recorded against the profile is the stored object's address: the signed URL the
   * server handed out, without its signature.
   */
  lemma RecordedUrlIsUnsigned(userType: UserType, userEmail: Option<string>, hasCallback: bool,
                              file: FileInfo, base: string, signature: string, update: Reply<Option<string>>)
    requires '?' !in base
    requires userType == DealerAccount || TruthyString(userEmail)
    ensures var a := Upload(userType, userEmail, hasCallback, file, Ok(base + "?" + signature), true, update);
      |a.requests| == 3 && a.requests[2].fields[0] == ("profilePictureURL", base)
  {
    StripQueryOfSignedUrl(base, signature);
  }

  /** The button's caption when no children replace it. */
  function ButtonCaption(isUploading: bool): (caption: string)
    ensures caption == "Uploading..." <==> isUploading
  {
    if isUploading then "Uploading..." else "Update Profile Picture"
  }

  class ProfilePictureUploaderState {
    const userType: UserType
    const userEmail: Option<string>
    /** Whether the parent passed `onUploadComplete`. */
    const hasCallback: bool

    /** Disables the input and the button. */
    var isUploading: bool
    var toasts: seq<Toast>
    var requests: seq<Request>
    /** The paths passed to `onUploadComplete`, in order. */
    var completed: seq<string>

    constructor (userType: UserType, userEmail: Option<string>, hasCallback: bool)
      ensures this.userType == userType && this.userEmail == userEmail && this.hasCallback == hasCallback
      ensures !isUploading && toasts == [] && requests == [] && completed == []
    {
      this.userType := userType;
      this.userEmail := userEmail;
      this.hasCallback := hasCallback;
      isUploading := false;
      toasts := [];
      requests := [];
      completed := [];
    }

    /** `handleFileChange`, run to completion. */
    method HandleFileChange(files: seq<FileInfo>, uploadUrl: Reply<string>, stored: bool,
                            update: Reply<Option<string>>)
      modifies this
      ensures CheckFile(files) == NoFile ==>
        isUploading == old(isUploading) && toasts == old(toasts)
        && requests == old(requests) && completed == old(completed)
      ensures CheckFile(files) == TooLarge ==>
        isUploading == old(isUploading) && toasts == old(toasts) + [TooLargeToast]
        && requests == old(requests) && completed == old(completed)
      ensures CheckFile(files) == NotAnImage ==>
        isUploading == old(isUploading) && toasts == old(toasts) + [WrongTypeToast]
        && requests == old(requests) && completed == old(completed)
      ensures CheckFile(files) == Accepted ==>
        var a := Upload(userType, userEmail, hasCallback, files[0], uploadUrl, stored, update);
        !isUploading
        && requests == old(requests) + a.requests
        && toasts == old(toasts) + [a.toast]
        && completed == old(completed) + (if a.completed.Some? then [a.completed.value] else [])
    {
      match CheckFile(files)
      case NoFile =>
      case TooLarge =>
        toasts := toasts + [TooLargeToast];
      case NotAnImage =>
        toasts := toasts + [WrongTypeToast];
      case Accepted =>
        var file := files[0];
        ghost var a := Upload(userType, userEmail, hasCallback, file, uploadUrl, stored, update);
        isUploading := true;
        // try
        requests := requests + [Request("POST", UploadUrlEndpoint, [])];
        var failed := true;
        if uploadUrl.Ok? {
          var url := uploadUrl.body;
          requests := requests + [Request("PUT", url, [("Content-Type", file.mimeType)])];
          if stored {
            var req := ProfileUpdate(userType, userEmail, url);
            if req.Some? {
              requests := requests + [req.value];
              if update.Ok? {
                failed := false;
                toasts := toasts + [SuccessToast];
                if hasCallback && TruthyString(update.body) {
                  completed := completed + [update.body.value];
                }
              }
            }
          }
        }
        // catch
        if failed {
          toasts := toasts + [ErrorToast];
        }
        // finally
        isUploading := false;
    }
  }
}
