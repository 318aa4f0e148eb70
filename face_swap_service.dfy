/** The face-swap service: the FaceSwap project record that processing
    updates, the temporary files a request stages on disk, the in-memory
    registry of running jobs, and the steps that move between them. The
    FastAPI call, the Cloudinary upload and the clock are parameters; the
    asynchronous execution is modelled as the sequence of its steps. */
module FaceSwapService {
  import opened Wrappers
  import opened JavaText

  datatype FaceSwapStatus = DRAFT | PROCESSING | COMPLETED | FAILED | PUBLISHED | ARCHIVED | DELETED

  /** FaceSwapStatus.name(). */
  function StatusName(s: FaceSwapStatus): string {
    match s
    case DRAFT => "DRAFT"
    case PROCESSING => "PROCESSING"
    case COMPLETED => "COMPLETED"
    case FAILED => "FAILED"
    case PUBLISHED => "PUBLISHED"
    case ARCHIVED => "ARCHIVED"
    case DELETED => "DELETED"
  }

  /** The two request kinds; SwapTypeName gives the constant stored in the
      project's swapType. */
  datatype SwapType = SINGLE | MULTI

  function SwapTypeName(t: SwapType): string {
    match t
    case SINGLE => "SINGLE"
    case MULTI => "MULTI"
  }

  // ---------------------------------------------------------------------
  // File extensions of uploaded files
  // ---------------------------------------------------------------------

  /** String.lastIndexOf(c): the index of the last occurrence, or -1. */
  function LastIndexOf(s: string, c: char): (r: int)
    ensures -1 <= r < |s|
    ensures r >= 0 ==> s[r] == c
    ensures forall i :: r < i < |s| ==> s[i] != c
  {
    if s == [] then -1
    else if s[|s| - 1] == c then |s| - 1
    else LastIndexOf(s[..|s| - 1], c)
  }

  /** getFileExtension: the suffix from the last '.' of the name when that
      dot is not the first character; ".tmp" for a missing name, a name
      without a dot, or a name whose only dot leads it. */
  function GetFileExtension(filename: Option<string>): (ext: string)
    ensures filename.None? ==> ext == ".tmp"
    ensures filename.Some? && (forall i :: 0 < i < |filename.value| ==> filename.value[i] != '.')
            ==> ext == ".tmp"
    ensures filename.Some? && (exists i :: 0 < i < |filename.value| && filename.value[i] == '.')
            ==> 0 < |ext| < |filename.value|
                && ext == filename.value[|filename.value| - |ext|..]
                && ext[0] == '.'
                && (forall i :: 0 < i < |ext| ==> ext[i] != '.')
  {
    if filename.None? then ".tmp"
    else
      var lastDot := LastIndexOf(filename.value, '.');
      if lastDot > 0 then filename.value[lastDot..] else ".tmp"
  }

  // ---------------------------------------------------------------------
  // Temporary files
  // ---------------------------------------------------------------------

  /** A temporary file, named by the order in which it was created. */
  type FileId = nat

  function OptionSet(f: Option<FileId>): set<FileId> {
    if f.Some? then {f.value} else {}
  }

  function ListSet(fs: Option<seq<FileId>>): set<FileId> {
    if fs.Some? then set f | f in fs.value else {}
  }

  /** The files created between two points of the creation counter. */
  function Range(lo: nat, hi: nat): (r: set<FileId>)
    ensures forall f :: f in r <==> lo <= f < hi
    decreases hi
  {
    if hi <= lo then {} else Range(lo, hi - 1) + {hi - 1}
  }

  /** The ids lo, lo + 1, ..., lo + n - 1 in creation order. */
  function Ids(lo: nat, n: nat): (r: seq<FileId>)
    ensures |r| == n
    ensures forall i :: 0 <= i < n ==> r[i] == lo + i
  {
    seq(n, i requires 0 <= i < n => lo + i)
  }

  lemma IdsCover(lo: nat, n: nat)
    ensures ListSet(Some(Ids(lo, n))) == Range(lo, lo + n)
  {
    var ids := Ids(lo, n);
    forall f | f in Range(lo, lo + n)
      ensures f in ids
    {
      assert ids[f - lo] == f;
    }
  }

  /** The temporary-file directory: the files that exist and the counter
      that names the next file created. */
  class TempDir {
    var files: set<FileId>
    var next: FileId

    /** Every existing file was created earlier. */
    predicate Valid()
      reads this
    {
      forall f :: f in files ==> f < next
    }

    constructor()
      ensures files == {} && next == 0 && Valid()
    {
      files := {};
      next := 0;
    }

    /** File.createTempFile: a new file, distinct from every existing one. */
    method CreateTempFile() returns (f: FileId)
      requires Valid()
      modifies this
      ensures Valid()
      ensures f == old(next) && next == old(next) + 1
      ensures f !in old(files) && files == old(files) + {f}
    {
      f := next;
      files := files + {f};
      next := next + 1;
    }

    /** deleteQuietly: deletes the file when there is one and it exists, and
        does nothing otherwise; so deleting twice is the same as once. */
    method DeleteQuietly(f: Option<FileId>)
      requires Valid()
      modifies this
      ensures Valid() && next == old(next)
      ensures files == old(files) - OptionSet(f)
    {
      if f.Some? && f.value in files {
        files := files - {f.value};
      }
    }

    /** files.forEach(this::deleteQuietly) on a list that may be null. */
    method DeleteEach(fs: Option<seq<FileId>>)
      requires Valid()
      modifies this
      ensures Valid() && next == old(next)
      ensures files == old(files) - ListSet(fs)
    {
      if fs.Some? {
        var i := 0;
        while i < |fs.value|
          invariant 0 <= i <= |fs.value|
          invariant Valid() && next == old(next)
          invariant files == old(files) - set f | f in fs.value[..i]
        {
          DeleteQuietly(Some(fs.value[i]));
          assert fs.value[..i + 1] == fs.value[..i] + [fs.value[i]];
          i := i + 1;
        }
        assert fs.value[..i] == fs.value;
      }
    }

    /** Deletes every file created from counter value lo on. */
    method DeleteFrom(lo: nat)
      requires Valid()
      modifies this
      ensures Valid() && next == old(next)
      ensures files == old(files) - Range(lo, next)
    {
      if next <= lo {
        assert Range(lo, next) == {};
        return;
      }
      var f := lo;
      while f < next
        invariant lo <= f <= next
        invariant Valid() && next == old(next)
        invariant files == old(files) - Range(lo, f)
        decreases next - f
      {
        DeleteQuietly(Some(f));
        assert Range(lo, f + 1) == Range(lo, f) + {f};
        f := f + 1;
      }
    }
  }

  /** The temporary files staged for one job: the video, the image of a
      single swap, and the source and destination lists of a multi swap. */
  datatype Staged = Staged(video: FileId, single: Option<FileId>, src: Option<seq<FileId>>, dst: Option<seq<FileId>>)

  function StagedSet(s: Staged): set<FileId> {
    {s.video} + OptionSet(s.single) + ListSet(s.src) + ListSet(s.dst)
  }

  /** The cleanup block shared by processWithSavedFiles, the failure
      handler of the job and the IOException handler of job start: every
      staged file that exists is deleted. */
  method CleanUp(dir: TempDir, staged: Staged)
    requires dir.Valid()
    modifies dir
    ensures dir.Valid() && dir.next == old(dir.next)
    ensures dir.files == old(dir.files) - StagedSet(staged)
  {
    dir.DeleteQuietly(Some(staged.video));
    dir.DeleteQuietly(staged.single);
    dir.DeleteEach(staged.src);
    dir.DeleteEach(staged.dst);
  }

  // ---------------------------------------------------------------------
  // The project record
  // ---------------------------------------------------------------------

  /** The fields of a FaceSwap that the service sets, as one value; the
      result video, a MediaFile, is represented by its URL. */
  datatype ProjectRecord = ProjectRecord(
    title: string,
    status: FaceSwapStatus,
    aiModelVersion: string,
    processingTimeMs: Option<int>,
    resultVideoUrl: Option<string>,
    swapType: Option<string>,
    completedAt: Option<int>,
    errorMessage: Option<string>)

  const AiModelVersion: string := "SimSwap-v1.0"

  /** createProject: the given title, or "Face Swap" followed by the current
      time; DRAFT; the SimSwap model version; no result yet. */
  function NewProject(title: Option<string>, nowText: string): (p: ProjectRecord)
    ensures p.status == DRAFT && p.aiModelVersion == "SimSwap-v1.0"
    ensures title.Some? ==> p.title == title.value
    ensures title.None? ==> StartsWith(p.title, "Face Swap") && p.title[9..] == nowText
    ensures p.processingTimeMs.None? && p.resultVideoUrl.None? && p.swapType.None?
    ensures p.completedAt.None? && p.errorMessage.None?
  {
    ProjectRecord(title.GetOr("Face Swap" + nowText), DRAFT, AiModelVersion, None, None, None, None, None)
  }

  class FaceSwapProject {
    var title: string
    var status: FaceSwapStatus
    var aiModelVersion: string
    var processingTimeMs: Option<int>
    var resultVideoUrl: Option<string>
    var swapType: Option<string>
    var completedAt: Option<int>
    var errorMessage: Option<string>

    constructor(title: Option<string>, nowText: string)
      ensures Snapshot() == NewProject(title, nowText)
    {
      this.title := title.GetOr("Face Swap" + nowText);
      status := DRAFT;
      aiModelVersion := AiModelVersion;
      processingTimeMs := None;
      resultVideoUrl := None;
      swapType := None;
      completedAt := None;
      errorMessage := None;
    }

    function Snapshot(): ProjectRecord
      reads this
    {
      ProjectRecord(title, status, aiModelVersion, processingTimeMs, resultVideoUrl, swapType,
                    completedAt, errorMessage)
    }

    /** updateProjectWithSuccess. */
    method UpdateWithSuccess(url: string, now: int, elapsed: int)
      modifies this
      ensures Snapshot() == old(Snapshot()).(status := COMPLETED, completedAt := Some(now),
                                             processingTimeMs := Some(elapsed), resultVideoUrl := Some(url))
    {
      status := COMPLETED;
      completedAt := Some(now);
      processingTimeMs := Some(elapsed);
      resultVideoUrl := Some(url);
    }

    /** updateProjectStatus. */
    method UpdateStatus(s: FaceSwapStatus)
      modifies this
      ensures Snapshot() == old(Snapshot()).(status := s)
    {
      status := s;
    }
  }

  // ---------------------------------------------------------------------
  // Processing one job
  // ---------------------------------------------------------------------

  /** What the FastAPI swap endpoint did: answered with a 2xx code or not,
      or threw (with the exception's message, which may be null). */
  datatype ApiReply = Answered(successful: bool) | ApiThrew(message: Option<string>)

  /** What uploading the result video did: stored it at a URL, or threw. */
  datatype UploadReply = Uploaded(url: string) | UploadThrew(message: Option<string>)

  datatype FaceSwapResponse = FaceSwapResponse(
    jobId: int,
    status: string,
    outputUrl: Option<string>,
    processingTimeMs: Option<int>,
    message: Option<string>,
    errorMessage: Option<string>)

  /** buildResponse. */
  function BuildResponse(id: int, status: string, message: string): FaceSwapResponse {
    FaceSwapResponse(id, status, None, None, Some(message), None)
  }

  const CompletedMessage: string := "Face swap completed successfully"
  const ProcessingFailedMessage: string := "Face swap processing failed"

  /** The project after processWithSavedFiles: the swap type is recorded;
      a 2xx reply whose upload succeeds completes the project with its
      result, time and completion instant; a non-2xx reply fails it; an
      exception records its message and fails it. */
  function AfterProcessing(p: ProjectRecord, t: SwapType, api: ApiReply, upload: UploadReply,
                           now: int, elapsed: int): (r: ProjectRecord)
    ensures r.status == COMPLETED || r.status == FAILED
    ensures r.status == COMPLETED <==> api == Answered(true) && upload.Uploaded?
    ensures r.status == COMPLETED ==>
              r.resultVideoUrl == Some(upload.url) && r.completedAt == Some(now)
              && r.processingTimeMs == Some(elapsed) && r.errorMessage == p.errorMessage
    ensures r.status == FAILED ==>
              r.resultVideoUrl == p.resultVideoUrl && r.completedAt == p.completedAt
              && r.processingTimeMs == p.processingTimeMs
    ensures api.ApiThrew? ==> r.errorMessage == api.message
    ensures api == Answered(true) && upload.UploadThrew? ==> r.errorMessage == upload.message
    ensures api == Answered(false) ==> r.errorMessage == p.errorMessage
    ensures r.swapType == Some(SwapTypeName(t))
    ensures r.title == p.title && r.aiModelVersion == p.aiModelVersion
  {
    var typed := p.(swapType := Some(SwapTypeName(t)));
    match api
    case ApiThrew(m) => typed.(errorMessage := m, status := FAILED)
    case Answered(ok) =>
      if !ok then typed.(status := FAILED)
      else
        match upload
        case UploadThrew(m) => typed.(errorMessage := m, status := FAILED)
        case Uploaded(url) =>
          typed.(status := COMPLETED, completedAt := Some(now), processingTimeMs := Some(elapsed),
                 resultVideoUrl := Some(url))
  }

  /** What processWithSavedFiles returns: the result on a 2xx reply, a
      FAILED response (still saying "completed successfully") on any other
      code, and the wrapping exception when the call or the upload threw. */
  function ProcessingReply(id: int, api: ApiReply, upload: UploadReply, elapsed: int): (r: Result<FaceSwapResponse>)
    ensures r.Err? <==> api.ApiThrew? || (api == Answered(true) && upload.UploadThrew?)
    ensures r.Err? ==> r.error == ProcessingFailedMessage
    ensures r.Ok? ==> r.value.jobId == id && r.value.message == Some(CompletedMessage)
    ensures r.Ok? ==> (r.value.status == "COMPLETED" <==> api == Answered(true))
    ensures r.Ok? && api == Answered(true) ==>
              r.value.outputUrl == Some(upload.url) && r.value.processingTimeMs == Some(elapsed)
    ensures api == Answered(false) ==> r == Ok(BuildResponse(id, "FAILED", CompletedMessage))
  {
    match api
    case ApiThrew(_) => Err(ProcessingFailedMessage)
    case Answered(ok) =>
      if !ok then Ok(BuildResponse(id, "FAILED", CompletedMessage))
      else
        match upload
        case UploadThrew(_) => Err(ProcessingFailedMessage)
        case Uploaded(url) =>
          Ok(FaceSwapResponse(id, "COMPLETED", Some(url), Some(elapsed), Some(CompletedMessage), None))
  }

  /** A reply that is returned names the status the project was left in,
      and a completed reply carries the project's result URL. */
  lemma ReplyMatchesProject(p: ProjectRecord, id: int, t: SwapType, api: ApiReply, upload: UploadReply,
                            now: int, elapsed: int)
    requires ProcessingReply(id, api, upload, elapsed).Ok?
    ensures ProcessingReply(id, api, upload, elapsed).value.status
            == StatusName(AfterProcessing(p, t, api, upload, now, elapsed).status)
    ensures AfterProcessing(p, t, api, upload, now, elapsed).status == COMPLETED ==>
              ProcessingReply(id, api, upload, elapsed).value.outputUrl
              == AfterProcessing(p, t, api, upload, now, elapsed).resultVideoUrl
  {
  }

  /** processWithSavedFiles: calls the swap endpoint, uploads the result,
      updates the project, and on every exit deletes all staged files. */
  method ProcessWithSavedFiles(project: FaceSwapProject, dir: TempDir, id: int, t: SwapType, staged: Staged,
                               api: ApiReply, upload: UploadReply, now: int, elapsed: int)
    returns (r: Result<FaceSwapResponse>)
    requires dir.Valid()
    modifies project, dir
    ensures project.Snapshot() == AfterProcessing(old(project.Snapshot()), t, api, upload, now, elapsed)
    ensures r == ProcessingReply(id, api, upload, elapsed)
    ensures dir.Valid() && dir.next == old(dir.next)
    ensures dir.files == old(dir.files) - StagedSet(staged)
  {
    project.swapType := Some(SwapTypeName(t));
    match api {
      case ApiThrew(m) =>
        project.errorMessage := m;
        project.UpdateStatus(FAILED);
        r := Err(ProcessingFailedMessage);
      case Answered(ok) =>
        if ok {
          match upload {
            case UploadThrew(m) =>
              project.errorMessage := m;
              project.UpdateStatus(FAILED);
              r := Err(ProcessingFailedMessage);
            case Uploaded(url) =>
              project.UpdateWithSuccess(url, now, elapsed);
              r := Ok(FaceSwapResponse(id, "COMPLETED", Some(url), Some(elapsed), Some(CompletedMessage), None));
          }
        } else {
          project.UpdateStatus(FAILED);
          r := Ok(BuildResponse(id, "FAILED", CompletedMessage));
        }
    }
    CleanUp(dir, staged);
  }

  // ---------------------------------------------------------------------
  // The registry of running jobs
  // ---------------------------------------------------------------------

  /** A registered job: still running, or finished with its response. */
  datatype TaskState = Pending | Done(result: FaceSwapResponse)

  type Tasks = map<int, TaskState>

  const ProjectNotFoundMessage: string := "Project not found"
  const ResultVideoNullMessage: string :=
    "Cannot invoke \"com.nckh.entity.MediaFile.getFileUrl()\" because the return value of \"com.nckh.entity.FaceSwap.getResultVideo()\" is null"
  const StillProcessingMessage: string := "Face swap is still processing..."
  const StartedMessage: string := "Face swap is processing..."

  /** The answer built from the stored project when no job is registered:
      an error for a missing project, a null-dereference for one without a
      result video, and otherwise its status, result URL and error. */
  function StoredStatus(id: int, stored: Option<ProjectRecord>): (r: Result<FaceSwapResponse>)
    ensures stored.None? ==> r == Err(ProjectNotFoundMessage)
    ensures stored.Some? && stored.value.resultVideoUrl.None? ==> r == Err(ResultVideoNullMessage)
    ensures stored.Some? && stored.value.resultVideoUrl.Some? ==>
              r.Ok? && r.value.jobId == id && r.value.status == StatusName(stored.value.status)
              && r.value.outputUrl == stored.value.resultVideoUrl
              && r.value.errorMessage == stored.value.errorMessage
  {
    match stored
    case None => Err(ProjectNotFoundMessage)
    case Some(p) =>
      if p.resultVideoUrl.None? then Err(ResultVideoNullMessage)
      else Ok(FaceSwapResponse(id, StatusName(p.status), p.resultVideoUrl, None, None, p.errorMessage))
  }

  /** The answer of getProcessingStatus. */
  function QueryReply(tasks: Tasks, id: int, stored: Option<ProjectRecord>): Result<FaceSwapResponse> {
    if id !in tasks then StoredStatus(id, stored)
    else match tasks[id]
      case Done(result) => Ok(result)
      case Pending => Ok(BuildResponse(id, "PROCESSING", StillProcessingMessage))
  }

  /** The registry after getProcessingStatus: a finished entry is removed. */
  function AfterQuery(tasks: Tasks, id: int): Tasks {
    if id in tasks && tasks[id].Done? then tasks - {id} else tasks
  }

  /** The registry after cancelProcessing: a running entry is removed. */
  function AfterCancel(tasks: Tasks, id: int): Tasks {
    if id in tasks && tasks[id].Pending? then tasks - {id} else tasks
  }

  /** The registry after a job finishes with `result`: the entry, when it
      is still there, becomes finished. */
  function AfterRecord(tasks: Tasks, id: int, result: FaceSwapResponse): Tasks {
    if id in tasks then tasks[id := Done(result)] else tasks
  }

  /** Querying a running job reports PROCESSING and changes nothing. */
  lemma PendingQueryKeepsEntry(tasks: Tasks, id: int, stored: Option<ProjectRecord>)
    requires id in tasks && tasks[id].Pending?
    ensures AfterQuery(tasks, id) == tasks
    ensures QueryReply(tasks, id, stored) == Ok(BuildResponse(id, "PROCESSING", StillProcessingMessage))
  {
  }

  /** Querying a finished job returns its result once; the next query
      answers from the stored project. */
  lemma DoneQueryFallsBack(tasks: Tasks, id: int, stored: Option<ProjectRecord>)
    requires id in tasks && tasks[id].Done?
    ensures QueryReply(tasks, id, stored) == Ok(tasks[id].result)
    ensures QueryReply(AfterQuery(tasks, id), id, stored) == StoredStatus(id, stored)
  {
  }

  /** A query touches only its own entry. */
  lemma QueryTouchesOnlyItsEntry(tasks: Tasks, id: int, other: int)
    requires other != id
    ensures other in AfterQuery(tasks, id) <==> other in tasks
    ensures other in tasks ==> AfterQuery(tasks, id)[other] == tasks[other]
  {
  }

  /** Cancelling never removes a finished job nor touches other entries,
      and cancelling twice is cancelling once. */
  lemma CancelKeepsFinished(tasks: Tasks, id: int)
    ensures forall k :: k in tasks && (k != id || tasks[k].Done?) ==>
              k in AfterCancel(tasks, id) && AfterCancel(tasks, id)[k] == tasks[k]
    ensures forall k :: k in AfterCancel(tasks, id) ==> k in tasks
    ensures AfterCancel(AfterCancel(tasks, id), id) == AfterCancel(tasks, id)
  {
  }

  /** After cancelling a running job, its status is read from the stored
      project, and a result that arrives later is not recorded. */
  lemma CancelledJobIsForgotten(tasks: Tasks, id: int, stored: Option<ProjectRecord>, result: FaceSwapResponse)
    requires id in tasks && tasks[id].Pending?
    ensures QueryReply(AfterCancel(tasks, id), id, stored) == StoredStatus(id, stored)
    ensures AfterRecord(AfterCancel(tasks, id), id, result) == AfterCancel(tasks, id)
  {
  }

  /** A recorded result is what the next query returns. */
  lemma RecordedResultIsReturned(tasks: Tasks, id: int, result: FaceSwapResponse, stored: Option<ProjectRecord>)
    requires id in tasks
    ensures QueryReply(AfterRecord(tasks, id, result), id, stored) == Ok(result)
    ensures id !in AfterQuery(AfterRecord(tasks, id, result), id)
  {
  }

  /** The processingTasks map. */
  class Registry {
    var tasks: Tasks

    constructor()
      ensures tasks == map[]
    {
      tasks := map[];
    }

    /** processingTasks.put of a started job. */
    method Register(id: int)
      modifies this
      ensures tasks == old(tasks)[id := Pending]
    {
      tasks := tasks[id := Pending];
    }

    /** Completion of a job's future. */
    method RecordResult(id: int, result: FaceSwapResponse)
      modifies this
      ensures tasks == AfterRecord(old(tasks), id, result)
    {
      if id in tasks {
        tasks := tasks[id := Done(result)];
      }
    }

    /** getProcessingStatus, given the repository's lookup of the project. */
    method GetProcessingStatus(id: int, stored: Option<ProjectRecord>) returns (r: Result<FaceSwapResponse>)
      modifies this
      ensures r == QueryReply(old(tasks), id, stored)
      ensures tasks == AfterQuery(old(tasks), id)
    {
      if id !in tasks {
        r := StoredStatus(id, stored);
      } else {
        match tasks[id] {
          case Done(result) =>
            tasks := tasks - {id};
            r := Ok(result);
          case Pending =>
            r := Ok(BuildResponse(id, "PROCESSING", StillProcessingMessage));
        }
      }
    }

    /** cancelProcessing. The stored project is not touched. */
    method CancelProcessing(id: int)
      modifies this
      ensures tasks == AfterCancel(old(tasks), id)
    {
      if id in tasks && tasks[id].Pending? {
        tasks := tasks - {id};
      }
    }
  }

  // ---------------------------------------------------------------------
  // A job from start to finish
  // ---------------------------------------------------------------------

  /** The response the job's future completes with: the processing reply,
      or, when processing threw, the failure handler's response, whose
      message is that of the wrapping completion exception. */
  function JobResult(id: int, processed: Result<FaceSwapResponse>): FaceSwapResponse {
    match processed
    case Ok(response) => response
    case Err(e) => BuildResponse(id, "FAILED", "Face swap processing failed: java.lang.RuntimeException: " + e)
  }

  /** Whatever the job does, the response it completes with names the
      status it left the project in. */
  lemma JobResultMatchesProject(p: ProjectRecord, id: int, t: SwapType, api: ApiReply, upload: UploadReply,
                                now: int, elapsed: int)
    ensures JobResult(id, ProcessingReply(id, api, upload, elapsed)).status
            == StatusName(AfterProcessing(p, t, api, upload, now, elapsed).status)
  {
    if ProcessingReply(id, api, upload, elapsed).Ok? {
      ReplyMatchesProject(p, id, t, api, upload, now, elapsed);
    }
  }

  /** The stored status is never PROCESSING: a new project is DRAFT and a
      processed one is COMPLETED or FAILED. */
  lemma NeverStoredAsProcessing(title: Option<string>, nowText: string, t: SwapType, api: ApiReply,
                                upload: UploadReply, now: int, elapsed: int)
    ensures NewProject(title, nowText).status != PROCESSING
    ensures AfterProcessing(NewProject(title, nowText), t, api, upload, now, elapsed).status != PROCESSING
  {
  }

  /** The asynchronous job: processWithSavedFiles, then the failure
      handler when it threw (status FAILED again, files deleted again), and
      finally the completion of the registered future. */
  method RunJob(registry: Registry, project: FaceSwapProject, dir: TempDir, id: int, t: SwapType, staged: Staged,
                api: ApiReply, upload: UploadReply, now: int, elapsed: int)
    returns (result: FaceSwapResponse)
    requires dir.Valid()
    modifies registry, project, dir
    ensures project.Snapshot() == AfterProcessing(old(project.Snapshot()), t, api, upload, now, elapsed)
    ensures result == JobResult(id, ProcessingReply(id, api, upload, elapsed))
    ensures registry.tasks == AfterRecord(old(registry.tasks), id, result)
    ensures dir.Valid() && dir.files == old(dir.files) - StagedSet(staged)
  {
    var processed := ProcessWithSavedFiles(project, dir, id, t, staged, api, upload, now, elapsed);
    if processed.Err? {
      project.UpdateStatus(FAILED);
      CleanUp(dir, staged);
      result := BuildResponse(id, StatusName(project.status),
                              "Face swap processing failed: java.lang.RuntimeException: " + processed.error);
    } else {
      result := processed.value;
    }
    registry.RecordResult(id, result);
  }

  // ---------------------------------------------------------------------
  // Starting a job: staging the uploads as temporary files
  // ---------------------------------------------------------------------

  /** The uploads of a request are numbered in the order their temporary
      files are created: the video is 0, then the single image, or the
      source list followed by the destination list. `failAt`, when given,
      is the number of the first upload whose temporary file cannot be
      created. */
  function UploadCount(t: SwapType, srcCount: nat, dstCount: nat): nat {
    1 + (if t == SINGLE then 1 else srcCount + dstCount)
  }

  predicate StagingFails(t: SwapType, srcCount: nat, dstCount: nat, failAt: Option<nat>) {
    failAt.Some? && failAt.value < UploadCount(t, srcCount, dstCount)
  }

  /** The files left on disk when staging fails, as the code is written:
      the failure of the video itself leaves nothing, that of a single image
      is an IOException the handler cleans up after, but in a multi request
      the list helper rethrows it as an unchecked exception that the handler
      does not catch, so every file created before it stays. */
  function LeftBehindAsWritten(t: SwapType, srcCount: nat, dstCount: nat, failAt: Option<nat>): (n: nat)
    ensures n > 0 <==> t == MULTI && StagingFails(t, srcCount, dstCount, failAt) && failAt.value > 0
    ensures n > 0 ==> n == failAt.value
  {
    if t == MULTI && StagingFails(t, srcCount, dstCount, failAt) then failAt.value else 0
  }

  /** A multi request with one source and one destination image whose
      source image cannot be staged leaves the video's file behind. */
  lemma {:induction false} MultiStagingLeak()
    ensures LeftBehindAsWritten(MULTI, 1, 1, Some(1)) == 1
    ensures StagingFails(MULTI, 1, 1, Some(1))
  {
  }

  const TempFileFailureMessage: string := "Failed to create temp file"

  /** The error a staging failure surfaces as: the IOException's own
      message for the video and the single image, the wrapping unchecked
      exception's message for a list element. */
  function StagingError(t: SwapType, failAt: nat, ioMessage: string): string {
    if failAt == 0 || t == SINGLE then ioMessage else TempFileFailureMessage
  }

  /** createTempFile for upload number k. */
  method StageOne(dir: TempDir, k: nat, failAt: Option<nat>) returns (f: Option<FileId>)
    requires dir.Valid()
    modifies dir
    ensures dir.Valid()
    ensures f.None? <==> failAt == Some(k)
    ensures f.None? ==> dir.next == old(dir.next) && dir.files == old(dir.files)
    ensures f.Some? ==> f.value == old(dir.next) && dir.next == old(dir.next) + 1
                        && dir.files == old(dir.files) + {f.value}
  {
    if failAt == Some(k) {
      f := None;
    } else {
      var created := dir.CreateTempFile();
      f := Some(created);
    }
  }

  /** createTempFiles for `count` uploads numbered from `first`: stops at
      the first failure, keeping the files already created. */
  method StageList(dir: TempDir, first: nat, count: nat, failAt: Option<nat>) returns (fs: Option<seq<FileId>>)
    requires dir.Valid()
    modifies dir
    ensures dir.Valid() && dir.next >= old(dir.next)
    ensures dir.files == old(dir.files) + Range(old(dir.next), dir.next)
    ensures fs.None? <==> failAt.Some? && first <= failAt.value < first + count
    ensures fs.None? ==> dir.next == old(dir.next) + (failAt.value - first)
    ensures fs.Some? ==> dir.next == old(dir.next) + count && fs.value == Ids(old(dir.next), count)
  {
    var acc: seq<FileId> := [];
    var i := 0;
    while i < count
      invariant 0 <= i <= count
      invariant dir.Valid() && dir.next == old(dir.next) + i
      invariant dir.files == old(dir.files) + Range(old(dir.next), dir.next)
      invariant acc == Ids(old(dir.next), i)
      invariant !(failAt.Some? && first <= failAt.value < first + i)
    {
      var f := StageOne(dir, first + i, failAt);
      if f.None? {
        return None;
      }
      assert Range(old(dir.next), dir.next) == Range(old(dir.next), dir.next - 1) + {f.value};
      acc := acc + [f.value];
      i := i + 1;
    }
    fs := Some(acc);
  }

  /** The two createTempFiles calls of a multi request, after the video:
      the destination list is staged only when the source list was; on
      success the two lists hold every file created, in order. */
  method StageMulti(dir: TempDir, srcCount: nat, dstCount: nat, failAt: Option<nat>)
    returns (src: Option<seq<FileId>>, dst: Option<seq<FileId>>)
    requires dir.Valid()
    modifies dir
    ensures dir.Valid() && dir.next >= old(dir.next)
    ensures dir.files == old(dir.files) + Range(old(dir.next), dir.next)
    ensures dst.None? <==> failAt.Some? && 1 <= failAt.value < 1 + srcCount + dstCount
    ensures dst.None? ==> dir.next == old(dir.next) + (failAt.value - 1)
    ensures dst.Some? ==> src.Some? && dir.next == old(dir.next) + srcCount + dstCount
                          && ListSet(src) + ListSet(dst) == Range(old(dir.next), dir.next)
  {
    var start := dir.next;
    src := StageList(dir, 1, srcCount, failAt);
    if src.None? {
      return src, None;
    }
    dst := StageList(dir, 1 + srcCount, dstCount, failAt);
    if dst.Some? {
      IdsCover(start, srcCount);
      IdsCover(start + srcCount, dstCount);
    }
  }

  /** executeAsyncProcessing as written: stages the uploads and registers
      the job; a failing upload surfaces as an error, and only the files of
      a caught IOException are deleted. */
  method ExecuteAsyncProcessing(registry: Registry, dir: TempDir, id: int, t: SwapType,
                                srcCount: nat, dstCount: nat, failAt: Option<nat>, ioMessage: string)
    returns (r: Result<FaceSwapResponse>, staged: Option<Staged>)
    requires dir.Valid()
    modifies registry, dir
    ensures dir.Valid() && dir.next >= old(dir.next)
    ensures r.Ok? <==> !StagingFails(t, srcCount, dstCount, failAt)
    ensures r.Ok? ==> r.value == BuildResponse(id, "PROCESSING", StartedMessage)
                      && registry.tasks == old(registry.tasks)[id := Pending]
                      && staged.Some? && StagedSet(staged.value) !! old(dir.files)
                      && dir.files == old(dir.files) + StagedSet(staged.value)
    ensures r.Err? ==> r.error == StagingError(t, failAt.value, ioMessage)
                       && registry.tasks == old(registry.tasks) && staged.None?
                       && dir.files == old(dir.files)
                                       + Range(old(dir.next), old(dir.next) + LeftBehindAsWritten(t, srcCount, dstCount, failAt))
  {
    var start := dir.next;
    var video := StageOne(dir, 0, failAt);
    if video.None? {
      assert Range(start, start) == {};
      return Err(ioMessage), None;
    }
    if t == SINGLE {
      var image := StageOne(dir, 1, failAt);
      if image.None? {
        dir.DeleteQuietly(video);
        assert Range(start, start) == {};
        return Err(ioMessage), None;
      }
      staged := Some(Staged(video.value, image, None, None));
      assert StagedSet(staged.value) == {start, start + 1};
    } else {
      var src, dst := StageMulti(dir, srcCount, dstCount, failAt);
      if dst.None? {
        return Err(TempFileFailureMessage), None;
      }
      staged := Some(Staged(video.value, None, src, dst));
      assert StagedSet(staged.value) == {start} + Range(start + 1, dir.next);
    }
    registry.Register(id);
    r := Ok(BuildResponse(id, "PROCESSING", StartedMessage));
  }

  /** executeAsyncProcessing with the intended cleanup: any staging
      failure deletes every file created for the request. */
  method ExecuteAsyncProcessingCleaning(registry: Registry, dir: TempDir, id: int, t: SwapType,
                                        srcCount: nat, dstCount: nat, failAt: Option<nat>, ioMessage: string)
    returns (r: Result<FaceSwapResponse>, staged: Option<Staged>)
    requires dir.Valid()
    modifies registry, dir
    ensures dir.Valid() && dir.next >= old(dir.next)
    ensures r.Ok? <==> !StagingFails(t, srcCount, dstCount, failAt)
    ensures r.Ok? ==> r.value == BuildResponse(id, "PROCESSING", StartedMessage)
                      && registry.tasks == old(registry.tasks)[id := Pending]
                      && staged.Some? && StagedSet(staged.value) !! old(dir.files)
                      && dir.files == old(dir.files) + StagedSet(staged.value)
    ensures r.Err? ==> r.error == StagingError(t, failAt.value, ioMessage)
                       && registry.tasks == old(registry.tasks) && staged.None?
                       && dir.files == old(dir.files)
  {
    var start := dir.next;
    r, staged := ExecuteAsyncProcessing(registry, dir, id, t, srcCount, dstCount, failAt, ioMessage);
    if r.Err? {
      dir.DeleteFrom(start);
      assert old(dir.files) !! Range(start, dir.next);
    }
  }
}
