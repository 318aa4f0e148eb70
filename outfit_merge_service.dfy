/** The outfit-merge service: a merge job creates a FitRoom task, stores the
    two input images, polls the task's status a bounded number of times,
    and on completion downloads the result with a bounded, linearly backed
    off retry. The provider's replies, the image uploads and the clock are
    parameters; the waits are returned as the milliseconds they last. */
module OutfitMergeService {
  import opened Wrappers
  import opened JavaText

  /** The entity's status enum, with its spelling. */
  datatype OutfitMergeStatus = DRAFT | PROCCESSING | COMPLETED | FAILED

  function StatusName(s: OutfitMergeStatus): string {
    match s
    case DRAFT => "DRAFT"
    case PROCCESSING => "PROCCESSING"
    case COMPLETED => "COMPLETED"
    case FAILED => "FAILED"
  }

  const MaxTries: nat := 20
  const DelayMs: nat := 3000
  const DownloadRetryCount: nat := 3
  const DownloadDelayMs: nat := 2000

  /** A JSON object reply, as the text of each of its fields. */
  type Json = map<string, string>

  /** The helpful message of the NullPointerException thrown by reading a
      field that a JSON reply does not have. */
  const MissingFieldMessage: string :=
    "Cannot invoke \"com.fasterxml.jackson.databind.JsonNode.asText()\" because the return value of \"com.fasterxml.jackson.databind.JsonNode.get(String)\" is null"

  /** A stored image: its URL and its Cloudinary public id (which may be
      null). */
  datatype MediaRef = MediaRef(url: string, publicId: Option<string>)

  /** The fields of an OutfitMerge as one value. */
  datatype MergeRecord = MergeRecord(
    id: int,
    garmentImage: Option<MediaRef>,
    modelImage: Option<MediaRef>,
    resultImage: Option<MediaRef>,
    timeProcessing: Option<int>,
    modelAi: string,
    errorMessage: Option<string>,
    status: OutfitMergeStatus,
    createdAt: int)

  /** createOutfitMerge: a DRAFT record for the FitRoom model. */
  function NewMerge(id: int, createdAt: int): (m: MergeRecord)
    ensures m.status == DRAFT && m.modelAi == "FitRoom" && m.id == id && m.createdAt == createdAt
    ensures m.garmentImage.None? && m.modelImage.None? && m.resultImage.None?
    ensures m.timeProcessing.None? && m.errorMessage.None?
  {
    MergeRecord(id, None, None, None, None, "FitRoom", None, DRAFT, createdAt)
  }

  class OutfitMergeJob {
    var id: int
    var garmentImage: Option<MediaRef>
    var modelImage: Option<MediaRef>
    var resultImage: Option<MediaRef>
    var timeProcessing: Option<int>
    var modelAi: string
    var errorMessage: Option<string>
    var status: OutfitMergeStatus
    var createdAt: int

    constructor(id: int, createdAt: int)
      ensures Snapshot() == NewMerge(id, createdAt)
    {
      this.id := id;
      garmentImage := None;
      modelImage := None;
      resultImage := None;
      timeProcessing := None;
      modelAi := "FitRoom";
      errorMessage := None;
      status := DRAFT;
      this.createdAt := createdAt;
    }

    function Snapshot(): MergeRecord
      reads this
    {
      MergeRecord(id, garmentImage, modelImage, resultImage, timeProcessing, modelAi, errorMessage,
                  status, createdAt)
    }
  }

  // ---------------------------------------------------------------------
  // Storing images
  // ---------------------------------------------------------------------

  /** What uploading an image did: stored it, failed with an IOException,
      or failed with another exception. */
  datatype UploadReply = Stored(file: MediaRef) | UploadIOFailed(message: string) | UploadFailed(message: string)

  /** saveMediafile: the stored image, or the error that surfaces; an
      IOException is rethrown with a prefix. */
  function SaveMediaFile(reply: UploadReply): (r: Result<MediaRef>)
    ensures r.Ok? <==> reply.Stored?
    ensures r.Ok? ==> r.value == reply.file
    ensures reply.UploadIOFailed? ==> r.error == "Failed to save media file: " + reply.message
    ensures reply.UploadFailed? ==> r.error == reply.message
  {
    match reply
    case Stored(f) => Ok(f)
    case UploadIOFailed(m) => Err("Failed to save media file: " + m)
    case UploadFailed(m) => Err(m)
  }

  // ---------------------------------------------------------------------
  // Task creation
  // ---------------------------------------------------------------------

  /** What the create-task call did: answered, with a 2xx code or not and a
      body or none, or threw. */
  datatype CreateReply = CreateAnswered(successful: bool, body: Option<Json>) | CreateThrew(message: string)

  /** isTaskCreatedSuccessfully, with the exceptions it and the call can
      raise: true exactly for a 2xx reply whose body's status is
      "CREATED". */
  function TaskCreated(reply: CreateReply): (r: Result<bool>)
    ensures r == Ok(true) <==>
              reply.CreateAnswered? && reply.successful && reply.body.Some?
              && "status" in reply.body.value && reply.body.value["status"] == "CREATED"
    ensures r.Err? <==> (reply.CreateThrew?
                         || (reply.successful && reply.body.Some? && "status" !in reply.body.value))
    ensures reply.CreateThrew? ==> r == Err(reply.message)
    ensures reply.CreateAnswered? && r.Err? ==> r.error == MissingFieldMessage
  {
    match reply
    case CreateThrew(m) => Err(m)
    case CreateAnswered(ok, body) =>
      if !ok || body.None? then Ok(false)
      else if "status" !in body.value then Err(MissingFieldMessage)
      else Ok(body.value["status"] == "CREATED")
  }

  // ---------------------------------------------------------------------
  // Handlers of a finished poll
  // ---------------------------------------------------------------------

  /** What one attempt to download the result did. */
  datatype DownloadReply = Fetched(successful: bool, body: Option<string>) | DownloadThrew

  predicate Downloaded(d: DownloadReply) {
    d.Fetched? && d.successful && d.body.Some?
  }

  /** The body downloadResultWithRetry returns from attempt k on: the first
      2xx non-null body, or null after the last attempt. */
  function DownloadFrom(downloads: seq<DownloadReply>, k: nat): (r: Option<string>)
    requires |downloads| == DownloadRetryCount && k <= DownloadRetryCount
    ensures r.Some? <==> exists j :: k <= j < DownloadRetryCount && Downloaded(downloads[j])
    ensures r.Some? ==> exists j :: k <= j < DownloadRetryCount && Downloaded(downloads[j])
                                   && downloads[j].body == r
                                   && forall i :: k <= i < j ==> !Downloaded(downloads[i])
    decreases DownloadRetryCount - k
  {
    if k == DownloadRetryCount then None
    else if Downloaded(downloads[k]) then downloads[k].body
    else DownloadFrom(downloads, k + 1)
  }

  /** The number of download attempts made: up to the first success, at
      most three. */
  function DownloadAttempts(downloads: seq<DownloadReply>, k: nat): (n: nat)
    requires |downloads| == DownloadRetryCount && k <= DownloadRetryCount
    ensures k <= n <= DownloadRetryCount
    ensures k < DownloadRetryCount ==> k < n
    ensures forall i :: k <= i < n - 1 ==> !Downloaded(downloads[i])
    ensures DownloadFrom(downloads, k).Some? <==> n > k && Downloaded(downloads[n - 1])
    decreases DownloadRetryCount - k
  {
    if k == DownloadRetryCount then k
    else if Downloaded(downloads[k]) then k + 1
    else DownloadAttempts(downloads, k + 1)
  }

  /** The waits before the first n attempts: 2000 ms times the attempt's
      number. */
  function Backoff(n: nat): (w: seq<nat>)
    ensures |w| == n
    ensures forall k :: 0 <= k < n ==> w[k] == DownloadDelayMs * (k + 1)
  {
    if n == 0 then [] else Backoff(n - 1) + [DownloadDelayMs * n]
  }

  function Sum(w: seq<nat>): nat {
    if w == [] then 0 else Sum(w[..|w| - 1]) + w[|w| - 1]
  }

  /** The waits add up to at most 12 s, reached when every attempt fails. */
  lemma DownloadWaitBound(downloads: seq<DownloadReply>)
    requires |downloads| == DownloadRetryCount
    ensures Sum(Backoff(DownloadAttempts(downloads, 0))) <= 12000
    ensures DownloadFrom(downloads, 0).None? ==> Sum(Backoff(DownloadAttempts(downloads, 0))) == 12000
  {
    assert Backoff(1) == [2000];
    assert Backoff(2) == [2000, 4000];
    assert Backoff(3) == [2000, 4000, 6000];
    assert Sum([2000, 4000]) == 6000 by {
      assert [2000, 4000][..1] == [2000];
      assert [2000][..0] == [];
    }
    assert Sum([2000, 4000, 6000]) == 12000 by {
      assert [2000, 4000, 6000][..2] == [2000, 4000];
    }
    assert Sum([2000]) == 2000 by {
      assert [2000][..0] == [];
    }
  }

  /** downloadResultWithRetry: waits 2000·k ms before attempt k and returns
      the first 2xx non-null body, or nothing after three attempts. */
  method DownloadResultWithRetry(downloads: seq<DownloadReply>) returns (bytes: Option<string>, waits: seq<nat>)
    requires |downloads| == DownloadRetryCount
    ensures bytes == DownloadFrom(downloads, 0)
    ensures waits == Backoff(DownloadAttempts(downloads, 0))
  {
    waits := [];
    var retry := 0;
    while retry < DownloadRetryCount
      invariant 0 <= retry <= DownloadRetryCount
      invariant DownloadFrom(downloads, retry) == DownloadFrom(downloads, 0)
      invariant DownloadAttempts(downloads, retry) == DownloadAttempts(downloads, 0)
      invariant waits == Backoff(retry)
    {
      waits := waits + [DownloadDelayMs * (retry + 1)];
      var fileDown := downloads[retry];
      if fileDown.Fetched? && fileDown.successful && fileDown.body.Some? {
        return fileDown.body, waits;
      }
      retry := retry + 1;
    }
    bytes := None;
  }

  const DownloadGaveUpMessage: string := "Failed to download result image after multiple attempts"

  /** handleCompletedTask: a downloaded and stored result completes the
      job; no download URL, a download that never succeeds, or a failing
      upload fails it; the processing time is set on every path. */
  function AfterCompleted(m: MergeRecord, body: Json, downloads: seq<DownloadReply>, upload: UploadReply, now: int)
    : (r: MergeRecord)
    requires |downloads| == DownloadRetryCount
    ensures r.timeProcessing == Some(now - m.createdAt)
    ensures r.status == COMPLETED || r.status == FAILED
    ensures r.status == COMPLETED <==>
              "download_signed_url" in body && DownloadFrom(downloads, 0).Some? && upload.Stored?
    ensures r.status == COMPLETED ==> r.resultImage == Some(upload.file) && r.errorMessage == m.errorMessage
    ensures "download_signed_url" !in body ==> r.errorMessage == Some("Download failed: " + MissingFieldMessage)
    ensures "download_signed_url" in body && DownloadFrom(downloads, 0).None? ==>
              r.errorMessage == Some(DownloadGaveUpMessage)
    ensures "download_signed_url" in body && DownloadFrom(downloads, 0).Some? && !upload.Stored? ==>
              r.errorMessage == Some("Download failed: " + SaveMediaFile(upload).error)
    ensures r.status == FAILED ==> r.resultImage == m.resultImage
    ensures r.id == m.id && r.garmentImage == m.garmentImage && r.modelImage == m.modelImage
    ensures r.modelAi == m.modelAi && r.createdAt == m.createdAt
  {
    var timed := m.(timeProcessing := Some(now - m.createdAt));
    if "download_signed_url" !in body then
      timed.(status := FAILED, errorMessage := Some("Download failed: " + MissingFieldMessage))
    else if DownloadFrom(downloads, 0).None? then
      timed.(status := FAILED, errorMessage := Some(DownloadGaveUpMessage))
    else
      match SaveMediaFile(upload)
      case Ok(f) => timed.(status := COMPLETED, resultImage := Some(f))
      case Err(e) => timed.(status := FAILED, errorMessage := Some("Download failed: " + e))
  }

  /** handleFailedTask: FAILED with the provider's error, or "Unknown
      error". */
  function AfterFailed(m: MergeRecord, body: Json, now: int): (r: MergeRecord)
    ensures r.status == FAILED && r.timeProcessing == Some(now - m.createdAt)
    ensures "error" in body ==> r.errorMessage == Some(body["error"])
    ensures "error" !in body ==> r.errorMessage == Some("Unknown error")
    ensures r.resultImage == m.resultImage && r.garmentImage == m.garmentImage && r.modelImage == m.modelImage
  {
    m.(status := FAILED,
       errorMessage := Some(if "error" in body then body["error"] else "Unknown error"),
       timeProcessing := Some(now - m.createdAt))
  }

  const TimeoutMessage: string := "Task timeout after 20 attempts"

  /** handleTaskTimeout. */
  function AfterTimeout(m: MergeRecord, now: int): (r: MergeRecord)
    ensures r.status == FAILED && r.errorMessage == Some("Task timeout after 20 attempts")
    ensures r.timeProcessing == Some(now - m.createdAt)
    ensures r.resultImage == m.resultImage && r.garmentImage == m.garmentImage && r.modelImage == m.modelImage
  {
    assert NatToString(MaxTries) == "20" by {
      assert NatToString(20) == NatToString(2) + [DigitChar(0)];
    }
    assert "Task timeout after " + "20" + " attempts" == "Task timeout after 20 attempts";
    m.(status := FAILED, errorMessage := Some("Task timeout after " + NatToString(MaxTries) + " attempts"),
       timeProcessing := Some(now - m.createdAt))
  }

  // ---------------------------------------------------------------------
  // Polling
  // ---------------------------------------------------------------------

  /** What one status check did: answered with a body or none, or threw. */
  datatype CheckReply = CheckAnswered(body: Option<Json>) | CheckThrew

  /** How processTask reads a check: a null body, an exception (also the
      one raised by a body without a status field), or a status. */
  datatype CheckView = NullBody | Threw | Status(status: string, body: Json)

  function View(c: CheckReply): CheckView {
    match c
    case CheckThrew => Threw
    case CheckAnswered(body) =>
      if body.None? then NullBody
      else if "status" !in body.value then Threw
      else Status(body.value["status"], body.value)
  }

  predicate Terminal(v: CheckView) {
    v.Status? && (v.status == "COMPLETED" || v.status == "FAILED")
  }

  /** Only a non-null, non-terminal status is followed by the 3 s wait. */
  predicate Sleeps(v: CheckView) {
    v.Status? && !Terminal(v)
  }

  /** How polling ends: at the first COMPLETED or FAILED status, with a
      timeout when the last check throws, or with nothing decided. */
  datatype PollEnd = Completed(at: nat, body: Json) | ProviderFailed(at: nat, body: Json) | TimedOut | GaveUp

  /** The end of polling from check i on. */
  function PollFrom(checks: seq<CheckReply>, i: nat): (e: PollEnd)
    requires |checks| == MaxTries && i <= MaxTries
    ensures e.Completed? ==> i <= e.at < MaxTries && View(checks[e.at]) == Status("COMPLETED", e.body)
    ensures e.ProviderFailed? ==> i <= e.at < MaxTries && View(checks[e.at]) == Status("FAILED", e.body)
    ensures e.Completed? || e.ProviderFailed? ==> forall j :: i <= j < e.at ==> !Terminal(View(checks[j]))
    ensures e.TimedOut? || e.GaveUp? ==> forall j :: i <= j < MaxTries ==> !Terminal(View(checks[j]))
    ensures e.TimedOut? <==> ((forall j :: i <= j < MaxTries ==> !Terminal(View(checks[j])))
                              && i < MaxTries && View(checks[MaxTries - 1]) == Threw)
    decreases MaxTries - i
  {
    if i == MaxTries then GaveUp
    else match View(checks[i])
      case NullBody => PollFrom(checks, i + 1)
      case Threw => if i == MaxTries - 1 then TimedOut else PollFrom(checks, i + 1)
      case Status(s, body) =>
        if s == "COMPLETED" then Completed(i, body)
        else if s == "FAILED" then ProviderFailed(i, body)
        else PollFrom(checks, i + 1)
  }

  /** The number of checks made: up to the terminal one, at most twenty. */
  function ChecksMade(e: PollEnd): (n: nat)
    ensures n <= MaxTries || e.Completed? || e.ProviderFailed?
  {
    match e
    case Completed(at, _) => at + 1
    case ProviderFailed(at, _) => at + 1
    case _ => MaxTries
  }

  /** Polling never makes more than twenty checks. */
  lemma AtMostMaxTries(checks: seq<CheckReply>)
    requires |checks| == MaxTries
    ensures 1 <= ChecksMade(PollFrom(checks, 0)) <= MaxTries
  {
  }

  /** The number of 3 s waits among the first n checks. */
  function SleepCount(checks: seq<CheckReply>, n: nat): (c: nat)
    requires n <= |checks|
    ensures c <= n
  {
    if n == 0 then 0 else SleepCount(checks, n - 1) + (if Sleeps(View(checks[n - 1])) then 1 else 0)
  }

  /** Null bodies and exceptions do not wait: polling waits at most once
      per non-terminal status it reads. */
  lemma {:induction false} OnlyStatusesWait(checks: seq<CheckReply>, n: nat)
    requires n <= |checks|
    requires forall j :: 0 <= j < n ==> !View(checks[j]).Status?
    ensures SleepCount(checks, n) == 0
  {
    if n > 0 {
      OnlyStatusesWait(checks, n - 1);
    }
  }

  /** The record after polling ends as `e`: the handler of a terminal
      status or of the timeout runs, and sets the processing time; a poll
      that decides nothing changes nothing. */
  function AfterEnd(m: MergeRecord, e: PollEnd, downloads: seq<DownloadReply>, upload: UploadReply, now: int)
    : (r: MergeRecord)
    requires |downloads| == DownloadRetryCount
    ensures e.GaveUp? ==> r == m
    ensures !e.GaveUp? ==> r.timeProcessing == Some(now - m.createdAt) && (r.status == COMPLETED || r.status == FAILED)
    ensures r.status == COMPLETED ==> e.Completed? || m.status == COMPLETED
    ensures r.garmentImage == m.garmentImage && r.modelImage == m.modelImage && r.id == m.id
  {
    match e
    case Completed(_, body) => AfterCompleted(m, body, downloads, upload, now)
    case ProviderFailed(_, body) => AfterFailed(m, body, now)
    case TimedOut => AfterTimeout(m, now)
    case GaveUp => m
  }

  /** The record after processTask. */
  function AfterPoll(m: MergeRecord, checks: seq<CheckReply>, downloads: seq<DownloadReply>, upload: UploadReply, now: int)
    : MergeRecord
    requires |checks| == MaxTries && |downloads| == DownloadRetryCount
  {
    AfterEnd(m, PollFrom(checks, 0), downloads, upload, now)
  }

  /** The timeout is recorded only when the twentieth check throws; twenty
      undecided checks that end otherwise leave the record as it was. */
  lemma TimeoutOnlyOnLastThrow(m: MergeRecord, checks: seq<CheckReply>, downloads: seq<DownloadReply>,
                               upload: UploadReply, now: int)
    requires |checks| == MaxTries && |downloads| == DownloadRetryCount
    requires forall j :: 0 <= j < MaxTries ==> !Terminal(View(checks[j]))
    ensures View(checks[MaxTries - 1]) == Threw ==> AfterPoll(m, checks, downloads, upload, now) == AfterTimeout(m, now)
    ensures View(checks[MaxTries - 1]) != Threw ==> AfterPoll(m, checks, downloads, upload, now) == m
  {
  }

  /** A FAILED provider status makes no download: the record does not
      depend on the download or upload replies. */
  lemma ProviderFailureDownloadsNothing(m: MergeRecord, checks: seq<CheckReply>,
                                        d1: seq<DownloadReply>, u1: UploadReply,
                                        d2: seq<DownloadReply>, u2: UploadReply, now: int)
    requires |checks| == MaxTries && |d1| == DownloadRetryCount && |d2| == DownloadRetryCount
    requires PollFrom(checks, 0).ProviderFailed?
    ensures AfterPoll(m, checks, d1, u1, now) == AfterPoll(m, checks, d2, u2, now)
    ensures AfterPoll(m, checks, d1, u1, now).status == FAILED
  {
  }

  /** handleCompletedTask on the job. */
  method HandleCompletedTask(om: OutfitMergeJob, body: Json, downloads: seq<DownloadReply>, upload: UploadReply, now: int)
    requires |downloads| == DownloadRetryCount
    modifies om
    ensures om.Snapshot() == AfterCompleted(old(om.Snapshot()), body, downloads, upload, now)
  {
    if "download_signed_url" !in body {
      om.status := FAILED;
      om.errorMessage := Some("Download failed: " + MissingFieldMessage);
    } else {
      var resultBytes, _ := DownloadResultWithRetry(downloads);
      if resultBytes.Some? {
        match SaveMediaFile(upload) {
          case Ok(f) =>
            om.status := COMPLETED;
            om.resultImage := Some(f);
          case Err(e) =>
            om.status := FAILED;
            om.errorMessage := Some("Download failed: " + e);
        }
      } else {
        om.status := FAILED;
        om.errorMessage := Some(DownloadGaveUpMessage);
      }
    }
    om.timeProcessing := Some(now - om.createdAt);
  }

  /** handleFailedTask on the job. */
  method HandleFailedTask(om: OutfitMergeJob, body: Json, now: int)
    modifies om
    ensures om.Snapshot() == AfterFailed(old(om.Snapshot()), body, now)
  {
    om.status := FAILED;
    om.errorMessage := Some(if "error" in body then body["error"] else "Unknown error");
    om.timeProcessing := Some(now - om.createdAt);
  }

  /** handleTaskTimeout on the job. */
  method HandleTaskTimeout(om: OutfitMergeJob, now: int)
    modifies om
    ensures om.Snapshot() == AfterTimeout(old(om.Snapshot()), now)
  {
    om.status := FAILED;
    om.errorMessage := Some("Task timeout after " + NatToString(MaxTries) + " attempts");
    om.timeProcessing := Some(now - om.createdAt);
  }

  /** processTask: at most twenty checks, stopping at the first terminal
      status; returns the milliseconds spent in the 3 s waits. */
  method ProcessTask(om: OutfitMergeJob, checks: seq<CheckReply>, downloads: seq<DownloadReply>, upload: UploadReply, now: int)
    returns (waitedMs: nat)
    requires |checks| == MaxTries && |downloads| == DownloadRetryCount
    modifies om
    ensures om.Snapshot() == AfterPoll(old(om.Snapshot()), checks, downloads, upload, now)
    ensures waitedMs == DelayMs * SleepCount(checks, ChecksMade(PollFrom(checks, 0)))
  {
    waitedMs := 0;
    for i := 0 to MaxTries
      invariant i < MaxTries ==> om.Snapshot() == old(om.Snapshot()) && PollFrom(checks, i) == PollFrom(checks, 0)
      invariant i == MaxTries ==> om.Snapshot() == AfterPoll(old(om.Snapshot()), checks, downloads, upload, now)
                                  && (PollFrom(checks, 0).TimedOut? || PollFrom(checks, 0).GaveUp?)
      invariant waitedMs == DelayMs * SleepCount(checks, i)
    {
      var v := View(checks[i]);
      match v {
        case NullBody =>
          continue;
        case Threw =>
          if i == MaxTries - 1 {
            HandleTaskTimeout(om, now);
          }
        case Status(status, body) =>
          if status == "COMPLETED" {
            HandleCompletedTask(om, body, downloads, upload, now);
            break;
          } else if status == "FAILED" {
            HandleFailedTask(om, body, now);
            break;
          }
          waitedMs := waitedMs + DelayMs;
      }
    }
  }

  // ---------------------------------------------------------------------
  // merge and delete
  // ---------------------------------------------------------------------

  datatype OutfitMergeResponse = OutfitMergeResponse(
    jobId: Option<int>,
    status: string,
    outputUrl: Option<string>,
    errorMessage: Option<string>)

  /** buildFailedResponse. */
  function FailedResponse(message: string): OutfitMergeResponse {
    OutfitMergeResponse(None, "FAILED", None, Some(message))
  }

  /** buildSuccessResponse. */
  function SuccessResponse(m: MergeRecord): OutfitMergeResponse {
    OutfitMergeResponse(Some(m.id), StatusName(m.status),
                        if m.resultImage.Some? then Some(m.resultImage.value.url) else None,
                        m.errorMessage)
  }

  const CreateFailedMessage: string := "Failed to create task"

  /** The error that ends merge before polling, if any: the create call or
      its check threw, the task was not created, an input image could not
      be stored, or the reply has no task id. */
  function MergeStopsWith(create: CreateReply, garment: UploadReply, model: UploadReply): (r: Option<string>)
    ensures TaskCreated(create).Err? ==> r == Some(TaskCreated(create).error)
    ensures TaskCreated(create) == Ok(false) ==> r == Some(CreateFailedMessage)
    ensures r.None? <==> (TaskCreated(create) == Ok(true) && garment.Stored? && model.Stored?
                          && "task_id" in create.body.value)
  {
    match TaskCreated(create)
    case Err(e) => Some(e)
    case Ok(created) =>
      if !created then Some(CreateFailedMessage)
      else if SaveMediaFile(garment).Err? then Some(SaveMediaFile(garment).error)
      else if SaveMediaFile(model).Err? then Some(SaveMediaFile(model).error)
      else if "task_id" !in create.body.value then Some(MissingFieldMessage)
      else None
  }

  /** The record merge leaves: DRAFT until the task is created and both
      images are stored; then the images, PROCCESSING, and the result of
      polling when the reply carries a task id. */
  function MergeRecordAfter(id: int, createdAt: int, create: CreateReply, garment: UploadReply, model: UploadReply,
                            checks: seq<CheckReply>, downloads: seq<DownloadReply>, upload: UploadReply, now: int)
    : (r: MergeRecord)
    requires |checks| == MaxTries && |downloads| == DownloadRetryCount
    ensures !(TaskCreated(create) == Ok(true) && garment.Stored? && model.Stored?) ==> r == NewMerge(id, createdAt)
    ensures TaskCreated(create) == Ok(true) && garment.Stored? && model.Stored? ==>
              r.garmentImage == Some(garment.file) && r.modelImage == Some(model.file)
    ensures MergeStopsWith(create, garment, model).None? && PollFrom(checks, 0).GaveUp? ==> r.status == PROCCESSING
  {
    var draft := NewMerge(id, createdAt);
    if !(TaskCreated(create) == Ok(true) && garment.Stored? && model.Stored?) then draft
    else
      var stored := draft.(garmentImage := Some(garment.file), modelImage := Some(model.file), status := PROCCESSING);
      if "task_id" !in create.body.value then stored
      else AfterPoll(stored, checks, downloads, upload, now)
  }

  /** What merge answers once the user is found. */
  function MergeReply(id: int, createdAt: int, create: CreateReply, garment: UploadReply, model: UploadReply,
                      checks: seq<CheckReply>, downloads: seq<DownloadReply>, upload: UploadReply, now: int)
    : (r: OutfitMergeResponse)
    requires |checks| == MaxTries && |downloads| == DownloadRetryCount
    ensures MergeStopsWith(create, garment, model).Some? ==>
              r == FailedResponse(MergeStopsWith(create, garment, model).value)
    ensures MergeStopsWith(create, garment, model).None? ==>
              r == SuccessResponse(MergeRecordAfter(id, createdAt, create, garment, model, checks, downloads, upload, now))
  {
    match MergeStopsWith(create, garment, model)
    case Some(e) => FailedResponse(e)
    case None => SuccessResponse(MergeRecordAfter(id, createdAt, create, garment, model, checks, downloads, upload, now))
  }

  /** A task that is not created leaves a DRAFT record with no images and
      answers FAILED without a job id. */
  lemma CreationFailureKeepsDraft(id: int, createdAt: int, create: CreateReply, garment: UploadReply, model: UploadReply,
                                  checks: seq<CheckReply>, downloads: seq<DownloadReply>, upload: UploadReply, now: int)
    requires |checks| == MaxTries && |downloads| == DownloadRetryCount
    requires TaskCreated(create) != Ok(true)
    ensures MergeRecordAfter(id, createdAt, create, garment, model, checks, downloads, upload, now).status == DRAFT
    ensures MergeRecordAfter(id, createdAt, create, garment, model, checks, downloads, upload, now).garmentImage.None?
    ensures MergeReply(id, createdAt, create, garment, model, checks, downloads, upload, now).status == "FAILED"
    ensures MergeReply(id, createdAt, create, garment, model, checks, downloads, upload, now).jobId.None?
  {
  }

  /** A completed merge answers with the stored result's URL. */
  lemma CompletedMergeReturnsResult(id: int, createdAt: int, create: CreateReply, garment: UploadReply, model: UploadReply,
                                    checks: seq<CheckReply>, downloads: seq<DownloadReply>, upload: UploadReply, now: int)
    requires |checks| == MaxTries && |downloads| == DownloadRetryCount
    requires MergeStopsWith(create, garment, model).None?
    requires MergeRecordAfter(id, createdAt, create, garment, model, checks, downloads, upload, now).status == COMPLETED
    ensures MergeReply(id, createdAt, create, garment, model, checks, downloads, upload, now).outputUrl == Some(upload.file.url)
    ensures MergeReply(id, createdAt, create, garment, model, checks, downloads, upload, now).status == "COMPLETED"
    ensures MergeReply(id, createdAt, create, garment, model, checks, downloads, upload, now).jobId == Some(id)
  {
    var stored := NewMerge(id, createdAt).(garmentImage := Some(garment.file), modelImage := Some(model.file),
                                            status := PROCCESSING);
    assert MergeRecordAfter(id, createdAt, create, garment, model, checks, downloads, upload, now)
           == AfterPoll(stored, checks, downloads, upload, now);
  }

  /** merge: a missing user escapes as an exception; otherwise the new
      record and the response. */
  method Merge(userFound: bool, id: int, createdAt: int, create: CreateReply, garment: UploadReply, model: UploadReply,
               checks: seq<CheckReply>, downloads: seq<DownloadReply>, upload: UploadReply, now: int)
    returns (r: Result<OutfitMergeResponse>, om: Option<OutfitMergeJob>)
    requires |checks| == MaxTries && |downloads| == DownloadRetryCount
    ensures !userFound ==> r == Err("User not found") && om.None?
    ensures userFound ==> r == Ok(MergeReply(id, createdAt, create, garment, model, checks, downloads, upload, now))
                          && om.Some? && fresh(om.value)
                          && om.value.Snapshot()
                             == MergeRecordAfter(id, createdAt, create, garment, model, checks, downloads, upload, now)
  {
    if !userFound {
      return Err("User not found"), None;
    }
    var job := new OutfitMergeJob(id, createdAt);
    om := Some(job);
    var created := TaskCreated(create);
    if created.Err? {
      return Ok(FailedResponse(created.error)), om;
    }
    if !created.value {
      return Ok(FailedResponse(CreateFailedMessage)), om;
    }
    var garmentFile := SaveMediaFile(garment);
    if garmentFile.Err? {
      return Ok(FailedResponse(garmentFile.error)), om;
    }
    var modelFile := SaveMediaFile(model);
    if modelFile.Err? {
      return Ok(FailedResponse(modelFile.error)), om;
    }
    job.garmentImage := Some(garmentFile.value);
    job.modelImage := Some(modelFile.value);
    job.status := PROCCESSING;
    if "task_id" !in create.body.value {
      return Ok(FailedResponse(MissingFieldMessage)), om;
    }
    var _ := ProcessTask(job, checks, downloads, upload, now);
    r := Ok(SuccessResponse(job.Snapshot()));
  }

  /** The public ids delete schedules for removal: those of the garment,
      model and result images, in that order, skipping missing images and
      missing ids. */
  function PublicIds(m: MergeRecord): (ids: seq<string>)
    ensures |ids| <= 3
    ensures forall img :: img in [m.garmentImage, m.modelImage, m.resultImage] && img.Some? && img.value.publicId.Some?
              ==> img.value.publicId.value in ids
    ensures forall x :: x in ids ==> exists img :: img in [m.garmentImage, m.modelImage, m.resultImage]
                                                && img.Some? && img.value.publicId == Some(x)
  {
    IdOf(m.garmentImage) + IdOf(m.modelImage) + IdOf(m.resultImage)
  }

  function IdOf(img: Option<MediaRef>): (r: seq<string>)
    ensures |r| <= 1
    ensures r == [] <==> img.None? || img.value.publicId.None?
    ensures r != [] ==> r == [img.value.publicId.value]
  {
    if img.Some? && img.value.publicId.Some? then [img.value.publicId.value] else []
  }

  /** delete: a missing record is an error; otherwise the ids to delete
      after the commit. */
  function Delete(id: int, found: Option<MergeRecord>): (r: Result<seq<string>>)
    ensures found.None? ==> r == Err("Outfit Merge not found: " + IntToString(id))
    ensures found.Some? ==> r == Ok(PublicIds(found.value))
  {
    if found.None? then Err("Outfit Merge not found: " + IntToString(id)) else Ok(PublicIds(found.value))
  }
}
