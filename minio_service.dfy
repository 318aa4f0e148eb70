/** The object-storage wrapper: argument validators, the bucket-name rule,
    and the order in which an upload validates, creates its bucket, stores
    the object and returns a presigned URL. The storage client is modelled by
    the buckets and objects it holds; how each of its calls ends (normally,
    with an unchecked exception, or with a checked one) is passed in. */
module MinioService {
  import opened Wrappers
  import opened JavaText

  /** What the validators ask of a java.io.File. */
  datatype LocalFile = LocalFile(exists_: bool, isFile: bool, length: nat)

  /** A presigned GET URL, by what it grants access to. */
  datatype PresignedUrl = PresignedUrl(bucket: string, objectName: string, expiryHours: int)

  predicate IsLowerAlnum(c: char) {
    ('a' <= c <= 'z') || ('0' <= c <= '9')
  }

  /** The pattern ^[a-z0-9][a-z0-9.-]*[a-z0-9]$ matched against the whole name. */
  predicate MatchesBucketPattern(s: string) {
    |s| >= 2 && IsLowerAlnum(s[0]) && IsLowerAlnum(s[|s| - 1])
    && forall i :: 0 < i < |s| - 1 ==> IsLowerAlnum(s[i]) || s[i] == '.' || s[i] == '-'
  }

  /** StringUtils.isBlank: null, empty or only white space. */
  predicate IsBlankOrNull(s: Option<string>) {
    s.None? || IsBlank(s.value)
  }

  /** validateBucketName. A name that matches the pattern is never blank, so
      the accepted names are exactly the pattern's names of length 3 to 63. */
  function ValidateBucketName(name: Option<string>): (r: Outcome)
    ensures r.Pass? <==> name.Some? && 3 <= |name.value| <= 63 && MatchesBucketPattern(name.value)
    ensures IsBlankOrNull(name) ==> r == Fail("Bucket name cannot be null or empty")
    ensures !IsBlankOrNull(name) && !(3 <= |name.value| <= 63) ==> r == Fail("Bucket name must be between 3 and 63 characters")
  {
    if IsBlankOrNull(name) then Fail("Bucket name cannot be null or empty")
    else if |name.value| < 3 || |name.value| > 63 then Fail("Bucket name must be between 3 and 63 characters")
    else if !MatchesBucketPattern(name.value) then Fail("Invalid bucket name format")
    else
      assert !IsJavaWhitespace(name.value[0]);
      Pass
  }

  /** validateExpiryHours: exactly 1 to 168 hours (seven days). */
  function ValidateExpiryHours(hours: int): (r: Outcome)
    ensures r.Pass? <==> 1 <= hours <= 168
    ensures r.Fail? ==> r.error == "Expiry hours must be between 1 and 168 (7 days)"
  {
    if hours <= 0 || hours > 168 then Fail("Expiry hours must be between 1 and 168 (7 days)") else Pass
  }

  /** validateUploadParameters: the file (present, existing, regular), then
      its length, then the object name, then the bucket. */
  function ValidateUploadParameters(file: Option<LocalFile>, fileName: Option<string>, bucket: Option<string>): (r: Outcome)
    ensures r.Pass? <==> file.Some? && file.value.exists_ && file.value.isFile && file.value.length > 0
                         && !IsBlankOrNull(fileName) && ValidateBucketName(bucket).Pass?
    ensures (file.None? || !file.value.exists_ || !file.value.isFile) ==> r == Fail("File must be a valid existing file")
    ensures file.Some? && file.value.exists_ && file.value.isFile && file.value.length == 0 ==> r == Fail("File cannot be empty")
    ensures file.Some? && file.value.exists_ && file.value.isFile && file.value.length > 0 && IsBlankOrNull(fileName)
            ==> r == Fail("File name cannot be null or empty")
    ensures file.Some? && file.value.exists_ && file.value.isFile && file.value.length > 0 && !IsBlankOrNull(fileName)
            ==> r == ValidateBucketName(bucket)
  {
    if file.None? || !file.value.exists_ || !file.value.isFile then Fail("File must be a valid existing file")
    else if file.value.length == 0 then Fail("File cannot be empty")
    else if IsBlankOrNull(fileName) then Fail("File name cannot be null or empty")
    else ValidateBucketName(bucket)
  }

  /** validateStreamUploadParameters: the stream, the object name, the content
      type, then the bucket. */
  function ValidateStreamUploadParameters(hasStream: bool, fileName: Option<string>, bucket: Option<string>, contentType: Option<string>): (r: Outcome)
    ensures r.Pass? <==> hasStream && !IsBlankOrNull(fileName) && !IsBlankOrNull(contentType) && ValidateBucketName(bucket).Pass?
    ensures !hasStream ==> r == Fail("InputStream cannot be null")
    ensures hasStream && IsBlankOrNull(fileName) ==> r == Fail("File name cannot be null or empty")
    ensures hasStream && !IsBlankOrNull(fileName) && IsBlankOrNull(contentType) ==> r == Fail("Content type cannot be null or empty")
    ensures hasStream && !IsBlankOrNull(fileName) && !IsBlankOrNull(contentType) ==> r == ValidateBucketName(bucket)
  {
    if !hasStream then Fail("InputStream cannot be null")
    else if IsBlankOrNull(fileName) then Fail("File name cannot be null or empty")
    else if IsBlankOrNull(contentType) then Fail("Content type cannot be null or empty")
    else ValidateBucketName(bucket)
  }

  // ---- the client's calls and the wrapper's catch clauses ----

  /** How one call of the storage client ends. `Unchecked` is a
      RuntimeException with its message; `Checked` any other exception. */
  datatype SdkCall = Succeeds | Unchecked(message: string) | Checked

  /** The ends of the calls one operation makes: bucketExists, makeBucket,
      the upload (uploadObject or putObject) and getPresignedObjectUrl. */
  datatype ClientCalls = ClientCalls(bucketExists: SdkCall, makeBucket: SdkCall, store: SdkCall, presign: SdkCall)

  /** What the try block of createBucketIfNotExists throws, given whether the
      bucket is already there; None when it completes. A RuntimeException
      and any other exception are wrapped with different messages. */
  function BucketStep(name: string, present: bool, c: ClientCalls): (r: Option<string>)
    ensures r.None? <==> c.bucketExists.Succeeds? && (present || c.makeBucket.Succeeds?)
    ensures r.Some? ==> r.value in {"Failed to create bucket: " + name, "Unexpected error creating bucket: " + name}
    ensures r.Some? && r.value == "Failed to create bucket: " + name
            <==> c.bucketExists.Unchecked? || (c.bucketExists.Succeeds? && !present && c.makeBucket.Unchecked?)
  {
    var call := if !c.bucketExists.Succeeds? || present then c.bucketExists else c.makeBucket;
    if call.Unchecked? then Some("Failed to create bucket: " + name)
    else if call.Checked? then Some("Unexpected error creating bucket: " + name)
    else None
  }

  /** The try block shared by the two uploads of a file: make sure of the
      bucket, store, presign. A RuntimeException (which every exception of
      the bucket step and of presigning has become) passes through with its
      own message; any other exception of the store is wrapped with
      `checkedPrefix`. */
  function UploadResult(fileName: string, bucket: string, expiryHours: int, present: bool, c: ClientCalls,
                        checkedPrefix: string): (r: Result<PresignedUrl>)
    ensures r.Ok? <==> BucketStep(bucket, present, c).None? && c.store.Succeeds? && c.presign.Succeeds?
    ensures r.Ok? ==> r.value == PresignedUrl(bucket, fileName, expiryHours)
    ensures BucketStep(bucket, present, c).Some? ==> r == Err(BucketStep(bucket, present, c).value)
    ensures BucketStep(bucket, present, c).None? && c.store.Checked? ==> r == Err(checkedPrefix + fileName)
    ensures BucketStep(bucket, present, c).None? && c.store.Unchecked? ==> r == Err(c.store.message)
    ensures BucketStep(bucket, present, c).None? && c.store.Succeeds? && !c.presign.Succeeds?
            ==> r == Err("Failed to generate presigned URL")
  {
    match BucketStep(bucket, present, c)
    case Some(m) => Err(m)
    case None =>
      if c.store.Unchecked? then Err(c.store.message)
      else if c.store.Checked? then Err(checkedPrefix + fileName)
      else if !c.presign.Succeeds? then Err("Failed to generate presigned URL")
      else Ok(PresignedUrl(bucket, fileName, expiryHours))
  }

  /** The stream upload catches every exception of its try block, whatever
      its kind, and wraps it with one message. */
  function StreamUploadResult(fileName: string, bucket: string, expiryHours: int, present: bool, c: ClientCalls)
    : (r: Result<PresignedUrl>)
    ensures r.Ok? <==> BucketStep(bucket, present, c).None? && c.store.Succeeds? && c.presign.Succeeds?
    ensures r.Ok? ==> r.value == PresignedUrl(bucket, fileName, expiryHours)
    ensures r.Err? ==> r.error == "Failed to upload file from stream: " + fileName
  {
    match UploadResult(fileName, bucket, expiryHours, present, c, "")
    case Ok(url) => Ok(url)
    case Err(_) => Err("Failed to upload file from stream: " + fileName)
  }

  /** The bucket is there after the bucket step when it was there before or
      the step completed; no other bucket changes. */
  function BucketsAfter(buckets: set<string>, name: string, c: ClientCalls): (r: set<string>)
    ensures name in r <==> name in buckets || BucketStep(name, name in buckets, c).None?
    ensures r - {name} == buckets - {name}
  {
    if BucketStep(name, name in buckets, c).None? then buckets + {name} else buckets
  }

  /** The object is stored once the bucket step completed and the store call
      returned, whether or not presigning then fails. */
  function ObjectsAfter(objects: set<(string, string)>, buckets: set<string>, name: string, fileName: string, c: ClientCalls)
    : (r: set<(string, string)>)
    ensures (name, fileName) in r <==> (name, fileName) in objects || (BucketStep(name, name in buckets, c).None? && c.store.Succeeds?)
    ensures r - {(name, fileName)} == objects - {(name, fileName)}
  {
    if BucketStep(name, name in buckets, c).None? && c.store.Succeeds? then objects + {(name, fileName)} else objects
  }

  /** A successful upload leaves its object in an existing bucket. */
  lemma SuccessfulUploadIsStored(objects: set<(string, string)>, buckets: set<string>, name: string, fileName: string,
                                 expiryHours: int, c: ClientCalls, prefix: string)
    requires UploadResult(fileName, name, expiryHours, name in buckets, c, prefix).Ok?
    ensures (name, fileName) in ObjectsAfter(objects, buckets, name, fileName, c)
    ensures name in BucketsAfter(buckets, name, c)
  {
  }

  /** The storage behind the client: its buckets and the (bucket, object)
      pairs stored in them. */
  class ObjectStore {
    var buckets: set<string>
    var objects: set<(string, string)>
    const defaultExpiryHours: int

    constructor (defaultExpiryHours: int)
      ensures buckets == {} && objects == {} && this.defaultExpiryHours == defaultExpiryHours
    {
      buckets := {};
      objects := {};
      this.defaultExpiryHours := defaultExpiryHours;
    }

    /** Every stored object lies in an existing bucket. */
    predicate Valid()
      reads this
    {
      forall o :: o in objects ==> o.0 in buckets
    }

    /** createBucketIfNotExists: validate the name, then ask whether the
        bucket exists and make it when it does not. `Ok(created)` tells
        whether makeBucket ran. */
    method CreateBucketIfNotExists(bucket: Option<string>, c: ClientCalls) returns (r: Result<bool>)
      requires Valid()
      modifies this`buckets
      ensures Valid()
      ensures ValidateBucketName(bucket).Fail? ==> r == Err(ValidateBucketName(bucket).error) && buckets == old(buckets)
      ensures ValidateBucketName(bucket).Pass? ==>
                && buckets == BucketsAfter(old(buckets), bucket.value, c)
                && r == match BucketStep(bucket.value, bucket.value in old(buckets), c)
                        case Some(m) => Err(m)
                        case None => Ok(bucket.value !in old(buckets))
    {
      var check := ValidateBucketName(bucket);
      if check.Fail? {
        return Err(check.error);
      }
      var name := bucket.value;
      if c.bucketExists.Unchecked? {
        return Err("Failed to create bucket: " + name);
      } else if c.bucketExists.Checked? {
        return Err("Unexpected error creating bucket: " + name);
      }
      var exists_ := name in buckets;
      if !exists_ {
        if c.makeBucket.Unchecked? {
          return Err("Failed to create bucket: " + name);
        } else if c.makeBucket.Checked? {
          return Err("Unexpected error creating bucket: " + name);
        }
        buckets := buckets + {name};
      }
      return Ok(!exists_);
    }

    /** The try block after the bucket step: store, then presign. */
    method StoreAndPresign(bucket: string, fileName: string, expiryHours: int, c: ClientCalls, checkedPrefix: string,
                           step: Result<bool>)
      returns (r: Result<PresignedUrl>)
      requires Valid() && (step.Ok? ==> bucket in buckets)
      modifies this`objects
      ensures Valid()
      ensures step.Err? ==> r == Err(step.error) && objects == old(objects)
      ensures step.Ok? ==>
                && objects == (if c.store.Succeeds? then old(objects) + {(bucket, fileName)} else old(objects))
                && r == (if c.store.Unchecked? then Err(c.store.message)
                         else if c.store.Checked? then Err(checkedPrefix + fileName)
                         else if !c.presign.Succeeds? then Err("Failed to generate presigned URL")
                         else Ok(PresignedUrl(bucket, fileName, expiryHours)))
    {
      if step.Err? {
        return Err(step.error);
      }
      if c.store.Unchecked? {
        return Err(c.store.message);
      } else if c.store.Checked? {
        return Err(checkedPrefix + fileName);
      }
      objects := objects + {(bucket, fileName)};
      if !c.presign.Succeeds? {
        return Err("Failed to generate presigned URL");
      }
      r := Ok(PresignedUrl(bucket, fileName, expiryHours));
    }

    /** uploadFile(file, fileName, bucketName): validate, make sure the bucket
        exists, store, and presign with the configured default expiry. A
        checked exception of the store is wrapped; RuntimeExceptions pass. */
    method UploadFile(file: Option<LocalFile>, fileName: Option<string>, bucket: Option<string>, c: ClientCalls)
      returns (r: Result<PresignedUrl>)
      requires Valid()
      modifies this`buckets, this`objects
      ensures Valid()
      ensures ValidateUploadParameters(file, fileName, bucket).Fail? ==>
                r == Err(ValidateUploadParameters(file, fileName, bucket).error)
                && buckets == old(buckets) && objects == old(objects)
      ensures ValidateUploadParameters(file, fileName, bucket).Pass? ==>
                && r == UploadResult(fileName.value, bucket.value, defaultExpiryHours, bucket.value in old(buckets), c,
                                     "Unexpected error uploading file: ")
                && buckets == BucketsAfter(old(buckets), bucket.value, c)
                && objects == ObjectsAfter(old(objects), old(buckets), bucket.value, fileName.value, c)
    {
      var check := ValidateUploadParameters(file, fileName, bucket);
      if check.Fail? {
        return Err(check.error);
      }
      var step := CreateBucketIfNotExists(bucket, c);
      r := StoreAndPresign(bucket.value, fileName.value, defaultExpiryHours, c, "Unexpected error uploading file: ", step);
    }

    /** uploadFile with a custom expiry: the parameters and then the expiry
        are validated before the bucket is touched; a checked exception of
        the store is wrapped with its own message. */
    method UploadFileWithExpiry(file: Option<LocalFile>, fileName: Option<string>, bucket: Option<string>, expiryHours: int,
                                c: ClientCalls)
      returns (r: Result<PresignedUrl>)
      requires Valid()
      modifies this`buckets, this`objects
      ensures Valid()
      ensures ValidateUploadParameters(file, fileName, bucket).Fail? ==>
                r == Err(ValidateUploadParameters(file, fileName, bucket).error)
      ensures ValidateUploadParameters(file, fileName, bucket).Pass? && ValidateExpiryHours(expiryHours).Fail? ==>
                r == Err(ValidateExpiryHours(expiryHours).error)
      ensures ValidateUploadParameters(file, fileName, bucket).Fail? || ValidateExpiryHours(expiryHours).Fail? ==>
                buckets == old(buckets) && objects == old(objects)
      ensures ValidateUploadParameters(file, fileName, bucket).Pass? && ValidateExpiryHours(expiryHours).Pass? ==>
                && r == UploadResult(fileName.value, bucket.value, expiryHours, bucket.value in old(buckets), c,
                                     "Failed to upload file: ")
                && buckets == BucketsAfter(old(buckets), bucket.value, c)
                && objects == ObjectsAfter(old(objects), old(buckets), bucket.value, fileName.value, c)
    {
      var check := ValidateUploadParameters(file, fileName, bucket);
      if check.Fail? {
        return Err(check.error);
      }
      var expiry := ValidateExpiryHours(expiryHours);
      if expiry.Fail? {
        return Err(expiry.error);
      }
      var step := CreateBucketIfNotExists(bucket, c);
      r := StoreAndPresign(bucket.value, fileName.value, expiryHours, c, "Failed to upload file: ", step);
    }

    /** uploadFile from a stream: the stream checks, then bucket, store and
        presign, where every exception becomes one wrapped message. */
    method UploadStream(hasStream: bool, fileName: Option<string>, bucket: Option<string>, contentType: Option<string>,
                        c: ClientCalls)
      returns (r: Result<PresignedUrl>)
      requires Valid()
      modifies this`buckets, this`objects
      ensures Valid()
      ensures ValidateStreamUploadParameters(hasStream, fileName, bucket, contentType).Fail? ==>
                r == Err(ValidateStreamUploadParameters(hasStream, fileName, bucket, contentType).error)
                && buckets == old(buckets) && objects == old(objects)
      ensures ValidateStreamUploadParameters(hasStream, fileName, bucket, contentType).Pass? ==>
                && r == StreamUploadResult(fileName.value, bucket.value, defaultExpiryHours, bucket.value in old(buckets), c)
                && buckets == BucketsAfter(old(buckets), bucket.value, c)
                && objects == ObjectsAfter(old(objects), old(buckets), bucket.value, fileName.value, c)
    {
      var check := ValidateStreamUploadParameters(hasStream, fileName, bucket, contentType);
      if check.Fail? {
        return Err(check.error);
      }
      var step := CreateBucketIfNotExists(bucket, c);
      var inner := StoreAndPresign(bucket.value, fileName.value, defaultExpiryHours, c, "", step);
      if inner.Err? {
        return Err("Failed to upload file from stream: " + fileName.value);
      }
      r := inner;
    }
  }

  /** Some names on either side of the rule. */
  lemma BucketNameExamples()
    ensures ValidateBucketName(Some("a-1")).Pass?
    ensures ValidateBucketName(Some("-ab")) == Fail("Invalid bucket name format")
    ensures ValidateBucketName(Some("ab")) == Fail("Bucket name must be between 3 and 63 characters")
  {
    var good := "a-1";
    assert MatchesBucketPattern(good) by {
      assert good[1] == '-';
    }
    assert !IsJavaWhitespace("-ab"[0]);
    assert !IsJavaWhitespace("ab"[0]);
  }
}
