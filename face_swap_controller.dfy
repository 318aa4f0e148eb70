/** The two face-swap endpoints: each validates its uploads in a fixed order
    and, when every check passes, builds the request it hands to the face-swap
    service. A failed check surfaces as the error of the first check that
    failed. */
module FaceSwapController {
  import opened Wrappers
  import opened UploadValidation

  datatype SingleRequest = SingleRequest(sourceImage: Upload, targetVideo: Upload, userName: string, title: Option<string>)
  datatype MultiRequest = MultiRequest(srcImages: seq<Upload>, dstImages: seq<Upload>, targetVideo: Upload, userName: string)

  /** processSingleFaceSwap up to the service call: the image (as a one-file
      list) is checked before the video, and the title is passed through. */
  function ProcessSingle(sourceImage: Upload, targetVideo: Upload, userName: string, title: Option<string>): (r: Result<SingleRequest>)
    ensures r.Ok? <==> IsAcceptableImage(sourceImage) && IsAcceptableVideo(targetVideo)
    ensures !IsAcceptableImage(sourceImage) ==> r == Err(CheckImage(sourceImage).error)
    ensures IsAcceptableImage(sourceImage) && !IsAcceptableVideo(targetVideo)
            ==> r == Err(ValidateFileVideo(targetVideo).error)
    ensures r.Ok? ==> r.value == SingleRequest(sourceImage, targetVideo, userName, title)
  {
    var images := ValidateFilesImage([sourceImage]);
    if images.Fail? then Err(images.error)
    else
      var video := ValidateFileVideo(targetVideo);
      if video.Fail? then Err(video.error)
      else Ok(SingleRequest(sourceImage, targetVideo, userName, title))
  }

  /** processMultiFaceSwap up to the service call: the video first, then the
      source list, then the destination list; the request has no title. */
  function ProcessMulti(srcImages: seq<Upload>, dstImages: seq<Upload>, targetVideo: Upload, userName: string): (r: Result<MultiRequest>)
    ensures r.Ok? <==> IsAcceptableVideo(targetVideo)
                       && ValidateFilesImage(srcImages).Pass? && ValidateFilesImage(dstImages).Pass?
    ensures !IsAcceptableVideo(targetVideo) ==> r == Err(ValidateFileVideo(targetVideo).error)
    ensures IsAcceptableVideo(targetVideo) && ValidateFilesImage(srcImages).Fail?
            ==> r == Err(ValidateFilesImage(srcImages).error)
    ensures IsAcceptableVideo(targetVideo) && ValidateFilesImage(srcImages).Pass? && ValidateFilesImage(dstImages).Fail?
            ==> r == Err(ValidateFilesImage(dstImages).error)
    ensures r.Ok? ==> r.value == MultiRequest(srcImages, dstImages, targetVideo, userName)
  {
    var video := ValidateFileVideo(targetVideo);
    if video.Fail? then Err(video.error)
    else if ValidateFilesImage(srcImages).Fail? then Err(ValidateFilesImage(srcImages).error)
    else if ValidateFilesImage(dstImages).Fail? then Err(ValidateFilesImage(dstImages).error)
    else Ok(MultiRequest(srcImages, dstImages, targetVideo, userName))
  }

  /** The order matters: when both the image and the video are bad, the
      single endpoint reports the image and the multi endpoint the video. */
  lemma {:induction false} OrderDecidesTheError(image: Upload, video: Upload, user: string)
    requires !IsAcceptableImage(image) && video.IsEmpty()
    ensures ProcessSingle(image, video, user, None).error == CheckImage(image).error
    ensures ProcessMulti([image], [image], video, user) == Err("Target video is required")
  {
  }
}
