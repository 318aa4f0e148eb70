/** The outfit-merge endpoints: merge validates the two images and maps any
    failure, including a failed validation, to an unsuccessful response;
    getData and getById do the same with a fixed message; deleteById lets a
    failure through. */
module OutfitMergeController {
  import opened Wrappers
  import opened UploadValidation

  /** The response envelope: success flag, optional message, optional data.
      The builder's default for `success` is true. */
  datatype ApiResponse<T> = ApiResponse(success: bool, message: Option<string>, data: Option<T>)

  /** The list [garment, model] passed to the controller's own copy of the
      image check. */
  function ValidateGarmentAndModel(garment: Upload, model: Upload): (r: Outcome)
    ensures r.Pass? <==> IsAcceptableImage(garment) && IsAcceptableImage(model)
    ensures !IsAcceptableImage(garment) ==> r == CheckImage(garment)
    ensures IsAcceptableImage(garment) && !IsAcceptableImage(model) ==> r == CheckImage(model)
  {
    var files := [garment, model];
    assert files[0] == garment && files[1] == model;
    ValidateFilesImage(files)
  }

  /** merge: the service is only reached when both images pass; `service` is
      what the service call returns or throws. Every failure becomes
      success=false with neither message nor data. */
  function Merge<T>(garment: Upload, model: Upload, service: Result<T>): (r: ApiResponse<T>)
    ensures r.success <==> IsAcceptableImage(garment) && IsAcceptableImage(model) && service.Ok?
    ensures r.success ==> r.data == Some(service.value) && r.message.None?
    ensures !r.success ==> r == ApiResponse(false, None, None)
  {
    if ValidateGarmentAndModel(garment, model).Fail? then ApiResponse(false, None, None)
    else if service.Err? then ApiResponse(false, None, None)
    else ApiResponse(true, None, Some(service.value))
  }

  const FetchSucceeded := "Get Outfit Merge Project successful"
  const FetchFailed := "Get Outfit Merge Project failled"

  /** getData and getById: the same wrapping around the service lookup. */
  function WrapFetch<T>(service: Result<T>): (r: ApiResponse<T>)
    ensures r.success <==> service.Ok?
    ensures service.Ok? ==> r == ApiResponse(true, Some(FetchSucceeded), Some(service.value))
    ensures service.Err? ==> r == ApiResponse(false, Some(FetchFailed), None)
  {
    match service
    case Ok(v) => ApiResponse(true, Some(FetchSucceeded), Some(v))
    case Err(_) => ApiResponse(false, Some(FetchFailed), None)
  }

  /** deleteById: no try/catch, so a failed delete is an error of the whole
      request rather than a success=false response. */
  function DeleteById(deleted: Outcome): (r: Result<ApiResponse<string>>)
    ensures r.Ok? <==> deleted.Pass?
    ensures deleted.Fail? ==> r == Err(deleted.error)
    ensures r.Ok? ==> r.value.success && r.value.message == Some("Delete successful") && r.value.data.None?
  {
    match deleted
    case Pass => Ok(ApiResponse(true, Some("Delete successful"), None))
    case Fail(e) => Err(e)
  }
}
