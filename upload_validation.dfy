/** The checks the face-swap and outfit-merge controllers run on uploaded
    multipart files before handing them to a service. Both controllers carry
    the same private image check; it is defined once here. */
module UploadValidation {
  import opened Wrappers
  import opened JavaText

  /** What the checks look at in a MultipartFile: its declared content type
      (absent when the client sent none) and its size in bytes. A file is
      empty when it has no content. */
  datatype Upload = Upload(contentType: Option<string>, size: nat, originalFilename: Option<string>)
  {
    predicate IsEmpty() { size == 0 }
  }

  const MaxVideoBytes: nat := 100 * 1024 * 1024
  const MaxImageBytes: nat := 5 * 1024 * 1024

  predicate HasTypePrefix(f: Upload, prefix: string) {
    f.contentType.Some? && StartsWith(f.contentType.value, prefix)
  }

  /** An acceptable target video: non-empty, of a video/ type, at most 100 MiB. */
  predicate IsAcceptableVideo(f: Upload) {
    !f.IsEmpty() && HasTypePrefix(f, "video/") && f.size <= MaxVideoBytes
  }

  /** An acceptable image: of an image/ type and at most 5 MiB. */
  predicate IsAcceptableImage(f: Upload) {
    HasTypePrefix(f, "image/") && f.size <= MaxImageBytes
  }

  /** validateFileVideo: the three checks in order, the first failing one
      decides the message. */
  function ValidateFileVideo(v: Upload): (r: Outcome)
    ensures r.Pass? <==> IsAcceptableVideo(v)
    ensures v.IsEmpty() ==> r == Fail("Target video is required")
    ensures !v.IsEmpty() && !HasTypePrefix(v, "video/") ==> r == Fail("Target file must be a video")
    ensures !v.IsEmpty() && HasTypePrefix(v, "video/") && v.size > MaxVideoBytes
            ==> r == Fail("File size must be less than 100MB")
  {
    if v.IsEmpty() then Fail("Target video is required")
    else if v.contentType.None? || !StartsWith(v.contentType.value, "video/") then Fail("Target file must be a video")
    else if v.size > MaxVideoBytes then Fail("File size must be less than 100MB")
    else Pass
  }

  /** The body of the for-each loop of validateFilesImage, for one file. */
  function CheckImage(f: Upload): (r: Outcome)
    ensures r.Pass? <==> IsAcceptableImage(f)
    ensures !HasTypePrefix(f, "image/") ==> r == Fail("Source file must be an image")
    ensures HasTypePrefix(f, "image/") && f.size > MaxImageBytes ==> r == Fail("File size must be less than 5MB")
  {
    if f.contentType.None? || !StartsWith(f.contentType.value, "image/") then Fail("Source file must be an image")
    else if f.size > MaxImageBytes then Fail("File size must be less than 5MB")
    else Pass
  }

  /** The for-each loop over the files: the first file that fails decides. */
  function CheckEachImage(files: seq<Upload>): (r: Outcome)
    ensures r.Pass? <==> forall k :: 0 <= k < |files| ==> IsAcceptableImage(files[k])
    ensures r.Fail? ==> exists k :: 0 <= k < |files| && r == CheckImage(files[k])
                          && (forall j :: 0 <= j < k ==> IsAcceptableImage(files[j]))
  {
    if files == [] then Pass
    else if CheckImage(files[0]).Fail? then CheckImage(files[0])
    else
      var rest := CheckEachImage(files[1..]);
      assert forall j :: 1 <= j < |files| ==> files[j] == files[1..][j - 1];
      rest
  }

  /** validateFilesImage: an empty list is refused, then every file must be
      an acceptable image. */
  function ValidateFilesImage(files: seq<Upload>): (r: Outcome)
    ensures r.Pass? <==> files != [] && forall k :: 0 <= k < |files| ==> IsAcceptableImage(files[k])
    ensures files == [] ==> r == Fail("Source image is required")
    ensures files != [] && r.Fail? ==>
              exists k :: 0 <= k < |files| && r == CheckImage(files[k])
                && (forall j :: 0 <= j < k ==> IsAcceptableImage(files[j]))
  {
    if files == [] then Fail("Source image is required") else CheckEachImage(files)
  }

  /** The size limits are inclusive: a video of exactly 100 MiB and an image
      of exactly 5 MiB pass. */
  lemma LimitsAreInclusive(ct: string, name: Option<string>)
    ensures ValidateFileVideo(Upload(Some("video/" + ct), MaxVideoBytes, name)) == Pass
    ensures ValidateFileVideo(Upload(Some("video/" + ct), MaxVideoBytes + 1, name)).Fail?
    ensures ValidateFilesImage([Upload(Some("image/" + ct), MaxImageBytes, name)]) == Pass
    ensures ValidateFilesImage([Upload(Some("image/" + ct), MaxImageBytes + 1, name)]).Fail?
  {
    assert StartsWith("video/" + ct, "video/");
    assert StartsWith("image/" + ct, "image/");
  }
}
