/** Music generation: the choice between the Suno and MusicGen providers by
    remaining credits, the duration estimate from the lyrics, and the
    lifecycle of a generation task with the Suno webhooks. Provider, upload
    and download replies are inputs; `now` is the clock; the Unicode letter
    class \p{L} is the parameter `isLetter`. */
module MusicService {
  import opened Wrappers
  import opened JavaText
  import opened SheetMusicEntity

  const MinimumCreditsRequired: int := 12
  const SunoDurationSeconds: int := 30

  datatype TaskStatus = PENDING | PROCESSING | DOWNLOADING | COMPLETED | FAILED

  datatype MusicProvider = SUNO | MUSICGEN

  // ---- provider choice ----

  /** What the credit endpoint answers: a number of credits, a body without
      "data", or a RestClientException. */
  datatype CreditsReply = Credits(n: int) | CreditsMissing | CreditsRestError

  /** getCredits: a RestClientException counts as no credits; a reply
      without data is an error that the caller does not catch. */
  function GetCredits(reply: CreditsReply): (r: Result<int>)
    ensures reply.CreditsRestError? ==> r == Ok(0)
    ensures reply.Credits? ==> r == Ok(reply.n)
    ensures reply.CreditsMissing? ==> r == Err("Invalid response when fetching credits")
  {
    match reply
    case Credits(n) => Ok(n)
    case CreditsMissing => Err("Invalid response when fetching credits")
    case CreditsRestError => Ok(0)
  }

  /** generateMusic's choice: Suno only with strictly more than twelve
      credits. */
  function ChooseProvider(credits: int): (p: MusicProvider)
    ensures p == SUNO <==> credits > MinimumCreditsRequired
  {
    if credits > MinimumCreditsRequired then SUNO else MUSICGEN
  }

  /** The model name stored on the sheet for each provider. */
  function ModelName(p: MusicProvider): string {
    match p
    case SUNO => "SUNO_V5"
    case MUSICGEN => "MUSICGEN"
  }

  /** Exactly twelve credits, or a failed credit lookup, selects MusicGen;
      thirteen selects Suno. */
  lemma ProviderThreshold()
    ensures ChooseProvider(MinimumCreditsRequired) == MUSICGEN
    ensures ChooseProvider(MinimumCreditsRequired + 1) == SUNO
    ensures ChooseProvider(GetCredits(CreditsRestError).value) == MUSICGEN
  {
  }

  // ---- duration estimate ----

  /** text.replaceAll("[^\\p{L}\\s]", ""): every character that is neither
      a letter nor \s is dropped. */
  function KeepLettersAndSpaces(s: string, isLetter: char -> bool): (r: string)
    ensures |r| <= |s|
    ensures forall i :: 0 <= i < |r| ==> isLetter(r[i]) || IsRegexSpace(r[i])
    ensures (forall i :: 0 <= i < |s| ==> isLetter(s[i]) || IsRegexSpace(s[i])) ==> r == s
    decreases |s|
  {
    if s == [] then ""
    else
      var rest := KeepLettersAndSpaces(s[1..], isLetter);
      var r := (if isLetter(s[0]) || IsRegexSpace(s[0]) then [s[0]] else "") + rest;
      assert forall i :: 1 <= i < |s| ==> s[1..][i - 1] == s[i];
      assert (forall i :: 0 <= i < |s| ==> isLetter(s[i]) || IsRegexSpace(s[i])) ==> s == [s[0]] + s[1..];
      r
  }

  /** countVietnameseSyllables: the number of words left once everything but
      letters and white space is removed, and 0 when nothing is left. */
  function CountVietnameseSyllables(text: string, isLetter: char -> bool): (r: nat)
    ensures r == |Words(Trim(KeepLettersAndSpaces(text, isLetter)))|
    ensures r == 0 <==> Trim(KeepLettersAndSpaces(text, isLetter)) == []
  {
    var cleaned := Trim(KeepLettersAndSpaces(text, isLetter));
    if cleaned == [] then 0
    else
      assert !IsRegexSpace(cleaned[0]);
      if forall i :: 0 <= i < |cleaned| ==> !IsRegexSpace(cleaned[i]) then
        WordsOfSpaceFree(cleaned);
        |SplitOnWhitespace(cleaned)|
      else
        |SplitOnWhitespace(cleaned)|
  }

  /** The seconds a line adds: nothing for a blank line, otherwise the
      syllable count times half a beat times 60/70 seconds per beat,
      truncated, that is floor(3 * syllables / 7). */
  function LineSeconds(line: string, isLetter: char -> bool): (r: int)
    ensures r >= 0
    ensures IsBlank(line) ==> r == 0
  {
    if IsBlank(line) then 0 else (CountVietnameseSyllables(line, isLetter) * 3) / 7
  }

  /** The sum over the lines, accumulated from the first line on. */
  function TotalSeconds(lines: seq<string>, isLetter: char -> bool): (r: int)
    ensures r >= 0
    decreases |lines|
  {
    if lines == [] then 0
    else TotalSeconds(lines[..|lines| - 1], isLetter) + LineSeconds(lines[|lines| - 1], isLetter)
  }

  lemma {:induction false} TotalSecondsAppend(a: seq<string>, b: seq<string>, isLetter: char -> bool)
    ensures TotalSeconds(a + b, isLetter) == TotalSeconds(a, isLetter) + TotalSeconds(b, isLetter)
    decreases |b|
  {
    if b == [] {
      assert a + b == a;
    } else {
      var b' := b[..|b| - 1];
      assert (a + b)[..|a + b| - 1] == a + b';
      TotalSecondsAppend(a, b', isLetter);
    }
  }

  /** Blank lines contribute nothing, wherever they stand. */
  lemma BlankLineAddsNothing(a: seq<string>, line: string, b: seq<string>, isLetter: char -> bool)
    requires IsBlank(line)
    ensures TotalSeconds(a + [line] + b, isLetter) == TotalSeconds(a + b, isLetter)
  {
    TotalSecondsAppend(a + [line], b, isLetter);
    TotalSecondsAppend(a, [line], isLetter);
    TotalSecondsAppend(a, b, isLetter);
    assert [line][..0] == [];
  }

  /** Math.max(15, Math.min(total, 60)). */
  function ClampDuration(total: int): (d: int)
    ensures 15 <= d <= 60
    ensures 15 <= total <= 60 ==> d == total
    ensures total < 15 ==> d == 15
    ensures total > 60 ==> d == 60
  {
    if total > 60 then 60 else if total < 15 then 15 else total
  }

  /** estimateDurationFromLyrics: the per-line seconds added up in a loop
      over the lines, then clamped to 15..60. */
  method EstimateDurationFromLyrics(lyrics: string, isLetter: char -> bool) returns (d: int)
    ensures d == ClampDuration(TotalSeconds(Lines(lyrics), isLetter))
    ensures 15 <= d <= 60
  {
    var lines := Lines(lyrics);
    var totalSeconds := 0;
    var i := 0;
    while i < |lines|
      invariant 0 <= i <= |lines|
      invariant totalSeconds == TotalSeconds(lines[..i], isLetter)
    {
      var line := lines[i];
      assert lines[..i + 1][..i] == lines[..i];
      if IsBlank(line) {
        i := i + 1;
        continue;
      }
      var syllables := CountVietnameseSyllables(line, isLetter);
      totalSeconds := totalSeconds + (syllables * 3) / 7;
      i := i + 1;
    }
    assert lines[..i] == lines;
    d := if totalSeconds > 60 then 60 else totalSeconds;
    d := if d < 15 then 15 else d;
  }

  // ---- the generation task ----

  /** The field values of a MusicGenTask, as one value. */
  datatype TaskRecord = TaskRecord(
    taskId: string,
    externalTaskId: Option<string>,
    status: TaskStatus,
    provider: MusicProvider,
    prompt: string,
    duration: int,
    audioUrl: Option<string>,
    errorMessage: Option<string>,
    createdAt: int,
    completedAt: Option<int>)

  /** A COMPLETED task has its audio on the sheet. Every operation below
      keeps this, and getTaskStatus relies on it. */
  predicate CompletedHasAudio(t: TaskRecord, s: SheetRecord) {
    t.status == COMPLETED ==> s.audioFileUrl.Some?
  }

  /** failMusicGenTask on the task and its sheet. */
  function FailTask(t: TaskRecord, s: SheetRecord, message: Option<string>, now: int): (r: (TaskRecord, SheetRecord))
    ensures r.0.status == FAILED && r.0.errorMessage == message && r.0.completedAt == Some(now)
    ensures r.1.status == MUSIC_FAILED
    ensures r.0.(status := t.status, errorMessage := t.errorMessage, completedAt := t.completedAt) == t
    ensures r.1.(status := s.status) == s
    ensures CompletedHasAudio(r.0, r.1)
  {
    (t.(status := FAILED, errorMessage := message, completedAt := Some(now)), s.(status := MUSIC_FAILED))
  }

  /** completeGenTask: with the upload's URL the task is COMPLETED and the
      sheet MUSIC_COMPLETED with that audio; a failed upload fails both. */
  function FinishTask(t: TaskRecord, s: SheetRecord, upload: Result<string>, now: int): (r: (TaskRecord, SheetRecord))
    ensures upload.Ok? ==> r.0.status == COMPLETED && r.0.completedAt == Some(now)
                           && r.1.status == MUSIC_COMPLETED && r.1.audioFileUrl == Some(upload.value)
                           && r.1.completedAt == Some(now) && r.1.processingTimeMs == Some(now - t.createdAt)
    ensures upload.Err? ==> r == FailTask(t, s, Some(upload.error), now)
    ensures CompletedHasAudio(r.0, r.1)
  {
    match upload
    case Ok(url) =>
      (t.(status := COMPLETED, completedAt := Some(now)),
       s.(status := MUSIC_COMPLETED, completedAt := Some(now), processingTimeMs := Some(now - t.createdAt),
          audioFileUrl := Some(url)))
    case Err(message) => FailTask(t, s, Some(message), now)
  }

  class MusicGenTask {
    const sheet: SheetMusic
    var taskId: string
    var externalTaskId: Option<string>
    var status: TaskStatus
    var provider: MusicProvider
    var prompt: string
    var duration: int
    var audioUrl: Option<string>
    var errorMessage: Option<string>
    var createdAt: int
    var completedAt: Option<int>

    /** createMusicGenTask: a PENDING task for the sheet. */
    constructor(sheet: SheetMusic, taskId: string, provider: MusicProvider, prompt: string, duration: int, now: int)
      ensures this.sheet == sheet
      ensures Snapshot() == TaskRecord(taskId, None, PENDING, provider, prompt, duration, None, None, now, None)
    {
      this.sheet := sheet;
      this.taskId := taskId;
      externalTaskId := None;
      status := PENDING;
      this.provider := provider;
      this.prompt := prompt;
      this.duration := duration;
      audioUrl := None;
      errorMessage := None;
      createdAt := now;
      completedAt := None;
    }

    function Snapshot(): TaskRecord
      reads this
    {
      TaskRecord(taskId, externalTaskId, status, provider, prompt, duration, audioUrl, errorMessage, createdAt, completedAt)
    }
  }

  /** failMusicGenTask. */
  method FailMusicGenTask(task: MusicGenTask, message: Option<string>, now: int)
    modifies task, task.sheet
    ensures (task.Snapshot(), task.sheet.Snapshot())
            == FailTask(old(task.Snapshot()), old(task.sheet.Snapshot()), message, now)
  {
    task.status := FAILED;
    task.errorMessage := message;
    task.completedAt := Some(now);
    var sheet := task.sheet;
    sheet.status := MUSIC_FAILED;
  }

  /** completeGenTask: `upload` is the audio upload's URL or the message of
      the exception it raised, which is handled by failing the task. */
  method CompleteGenTask(task: MusicGenTask, upload: Result<string>, now: int)
    modifies task, task.sheet
    ensures (task.Snapshot(), task.sheet.Snapshot())
            == FinishTask(old(task.Snapshot()), old(task.sheet.Snapshot()), upload, now)
  {
    if upload.Err? {
      FailMusicGenTask(task, Some(upload.error), now);
      return;
    }
    task.status := COMPLETED;
    task.completedAt := Some(now);
    var sheet := task.sheet;
    sheet.status := MUSIC_COMPLETED;
    sheet.completedAt := Some(now);
    sheet.processingTimeMs := Some(now - task.createdAt);
    sheet.audioFileUrl := Some(upload.value);
  }

  /** The response of a submission accepted by a provider. */
  datatype GenerateResponse = GenerateResponse(taskId: string, status: string, message: string)

  /** What Suno answers to a submission: a body, whose data.taskId may be
      missing, or a RestClientException with its message. */
  datatype SunoReply = SunoBody(externalTaskId: Option<string>) | SunoRestError(message: string)

  /** generateWithSunoAI: a task id from Suno moves the task to PROCESSING; a
      body without one is an error that leaves it PENDING; a
      RestClientException fails the task, then is rethrown. */
  method GenerateWithSunoAI(sheet: SheetMusic, taskId: string, prompt: string, reply: SunoReply, now: int)
    returns (task: MusicGenTask, r: Result<GenerateResponse>)
    ensures fresh(task) && task.sheet == sheet
    ensures var t0 := TaskRecord(taskId, None, PENDING, SUNO, prompt, SunoDurationSeconds, None, None, now, None);
            match reply
            case SunoBody(Some(id)) =>
              task.Snapshot() == t0.(externalTaskId := Some(id), status := PROCESSING)
              && r == Ok(GenerateResponse(taskId, "PROCESSING", "Music generation is processing with Suno AI..."))
            case SunoBody(None) =>
              task.Snapshot() == t0 && r == Err("Invalid response from Suno AI API")
            case SunoRestError(m) =>
              task.Snapshot() == t0.(status := FAILED, errorMessage := Some(m)) && r == Err("Failed to generate music")
  {
    task := new MusicGenTask(sheet, taskId, SUNO, prompt, SunoDurationSeconds, now);
    match reply {
      case SunoBody(externalTaskId) =>
        if externalTaskId.None? {
          return task, Err("Invalid response from Suno AI API");
        }
        task.externalTaskId := externalTaskId;
        task.status := PROCESSING;
        r := Ok(GenerateResponse(taskId, "PROCESSING", "Music generation is processing with Suno AI..."));
      case SunoRestError(m) =>
        task.status := FAILED;
        task.errorMessage := Some(m);
        r := Err("Failed to generate music");
    }
  }

  /** generateWithMusicGen: the task is PROCESSING as soon as it is created;
      the generation itself runs in the background (ProcessMusicGen). */
  method GenerateWithMusicGen(sheet: SheetMusic, taskId: string, prompt: string, duration: int, now: int)
    returns (task: MusicGenTask, r: GenerateResponse)
    ensures fresh(task) && task.sheet == sheet
    ensures task.Snapshot() == TaskRecord(taskId, None, PROCESSING, MUSICGEN, prompt, duration, None, None, now, None)
    ensures r == GenerateResponse(taskId, "PROCESSING", "Music generation is processing with MusicGen...")
  {
    task := new MusicGenTask(sheet, taskId, MUSICGEN, prompt, duration, now);
    task.status := PROCESSING;
    r := GenerateResponse(taskId, "PROCESSING", "Music generation is processing with MusicGen...");
  }

  /** The background part of processMusicGenAsync: `generated` is the
      MusicGen call's outcome (the audio is not modelled, only whether it
      came back), `upload` the upload's. */
  method ProcessMusicGen(task: MusicGenTask, generated: Outcome, upload: Result<string>, now: int)
    modifies task, task.sheet
    ensures generated.Pass? ==>
              (task.Snapshot(), task.sheet.Snapshot())
              == FinishTask(old(task.Snapshot()), old(task.sheet.Snapshot()), upload, now)
    ensures generated.Fail? ==>
              (task.Snapshot(), task.sheet.Snapshot())
              == FailTask(old(task.Snapshot()), old(task.sheet.Snapshot()), Some(generated.error), now)
  {
    if generated.Fail? {
      FailMusicGenTask(task, Some(generated.error), now);
    } else {
      CompleteGenTask(task, upload, now);
    }
  }

  /** The inputs generateMusic reads from its repositories: the lyrics'
      title and text when the lyrics exist. */
  datatype LyricsInput = LyricsInput(title: string, text: string)

  /** generateMusic: the user and the lyrics must exist; a new DRAFT sheet
      gets the estimated duration; the credits choose the provider, whose
      model name is stored on the sheet before submitting. */
  method GenerateMusic(userFound: bool, lyrics: Option<LyricsInput>, credits: CreditsReply, taskId: string,
                       prompt: string, suno: SunoReply, now: int, isLetter: char -> bool)
    returns (r: Result<GenerateResponse>, task: Option<MusicGenTask>)
    ensures !userFound ==> r == Err("User not found") && task.None?
    ensures userFound && lyrics.None? ==> r == Err("Lyrics not found") && task.None?
    ensures userFound && lyrics.Some? && credits.CreditsMissing? ==>
              r == Err("Invalid response when fetching credits") && task.None?
    ensures task.Some? ==>
              fresh(task.value) && fresh(task.value.sheet)
              && task.value.provider == ChooseProvider(GetCredits(credits).value)
              && task.value.sheet.musicModelAI == Some(ModelName(task.value.provider))
              && task.value.sheet.status == DRAFT
              && task.value.sheet.duration == ClampDuration(TotalSeconds(Lines(lyrics.value.text), isLetter))
    ensures task.Some? && task.value.provider == MUSICGEN ==>
              task.value.duration == task.value.sheet.duration && task.value.status == PROCESSING && r.Ok?
    ensures userFound && lyrics.Some? && !credits.CreditsMissing? <==> task.Some?
  {
    if !userFound {
      return Err("User not found"), None;
    }
    if lyrics.None? {
      return Err("Lyrics not found"), None;
    }
    var sheet := new SheetMusic(lyrics.value.title);
    var duration := EstimateDurationFromLyrics(lyrics.value.text, isLetter);
    sheet.duration := duration;
    var available := GetCredits(credits);
    if available.Err? {
      return Err(available.error), None;
    }
    if available.value > MinimumCreditsRequired {
      sheet.musicModelAI := Some("SUNO_V5");
      var t;
      t, r := GenerateWithSunoAI(sheet, taskId, prompt, suno, now);
      task := Some(t);
    } else {
      sheet.musicModelAI := Some("MUSICGEN");
      var t, response := GenerateWithMusicGen(sheet, taskId, prompt, duration, now);
      r := Ok(response);
      task := Some(t);
    }
  }

  // ---- Suno webhooks ----

  /** What downloadMusic does with the audio URL: the audio, an empty body,
      or a RestClientException. */
  datatype DownloadReply = Downloaded | EmptyBody | DownloadRestError

  /** The message of the exception downloadMusic raises. */
  function DownloadError(d: DownloadReply): string
    requires !d.Downloaded?
  {
    if d.EmptyBody? then "Empty response when downloading music" else "Failed to download music"
  }

  /** The message failMusicGenTask records when the callback's first audio
      entry cannot be used, or none when it can. */
  function AudioUrlProblem(audioUrls: seq<Option<string>>): (r: Option<string>)
    ensures r.None? <==> |audioUrls| > 0 && audioUrls[0].Some? && audioUrls[0].value != ""
    ensures audioUrls == [] ==> r == Some("Index 0 out of bounds for length 0")
  {
    if audioUrls == [] then Some("Index 0 out of bounds for length 0")
    else if audioUrls[0].None? || audioUrls[0].value == "" then Some("No audio URL in Suno callback")
    else None
  }

  /** processCompletedGeneration. `found` is the task with that external id;
      its current status is not consulted. A usable first audio URL is
      recorded with status DOWNLOADING, then the download and upload finish
      the task; any failure on the way fails it and is rethrown. */
  method ProcessCompletedGeneration(found: Option<MusicGenTask>, externalTaskId: string,
                                    audioUrls: seq<Option<string>>, download: DownloadReply,
                                    upload: Result<string>, now: int)
    returns (r: Outcome)
    modifies if found.Some? then {found.value, found.value.sheet} else {}
    ensures found.None? ==> r == Fail("Task not found: " + externalTaskId)
    ensures found.Some? && AudioUrlProblem(audioUrls).Some? ==>
              r == Fail("Failed to process completed generation")
              && (found.value.Snapshot(), found.value.sheet.Snapshot())
                 == FailTask(old(found.value.Snapshot()), old(found.value.sheet.Snapshot()),
                             AudioUrlProblem(audioUrls), now)
    ensures found.Some? && AudioUrlProblem(audioUrls).None? ==>
              var downloading := old(found.value.Snapshot()).(status := DOWNLOADING, audioUrl := audioUrls[0]);
              if download.Downloaded? then
                r == Pass
                && (found.value.Snapshot(), found.value.sheet.Snapshot())
                   == FinishTask(downloading, old(found.value.sheet.Snapshot()), upload, now)
              else
                r == Fail("Failed to process completed generation")
                && (found.value.Snapshot(), found.value.sheet.Snapshot())
                   == FailTask(downloading, old(found.value.sheet.Snapshot()), Some(DownloadError(download)), now)
  {
    if found.None? {
      return Fail("Task not found: " + externalTaskId);
    }
    var task := found.value;
    var problem := AudioUrlProblem(audioUrls);
    if problem.Some? {
      FailMusicGenTask(task, problem, now);
      return Fail("Failed to process completed generation");
    }
    task.status := DOWNLOADING;
    task.audioUrl := audioUrls[0];
    if !download.Downloaded? {
      FailMusicGenTask(task, Some(DownloadError(download)), now);
      return Fail("Failed to process completed generation");
    }
    CompleteGenTask(task, upload, now);
    r := Pass;
  }

  /** processFailedGeneration: the callback's message, or a fixed one when
      it has none, fails the task whatever its status. */
  method ProcessFailedGeneration(found: Option<MusicGenTask>, externalTaskId: string, msg: Option<string>, now: int)
    returns (r: Outcome)
    modifies if found.Some? then {found.value, found.value.sheet} else {}
    ensures r.Pass? <==> found.Some?
    ensures found.None? ==> r == Fail("Task not found: " + externalTaskId)
    ensures found.Some? ==>
              (found.value.Snapshot(), found.value.sheet.Snapshot())
              == FailTask(old(found.value.Snapshot()), old(found.value.sheet.Snapshot()),
                          Some(msg.GetOr("Unknown error from Suno API")), now)
  {
    if found.None? {
      return Fail("Task not found: " + externalTaskId);
    }
    var errorMessage := if msg.Some? then msg.value else "Unknown error from Suno API";
    FailMusicGenTask(found.value, Some(errorMessage), now);
    r := Pass;
  }

  // ---- status query ----

  /** The parts of getTaskStatus's response the service decides. */
  datatype StatusResponse = StatusResponse(taskId: string, status: string, message: Option<string>, outputUrl: Option<string>)

  const AudioFileNullMessage: string :=
    "Cannot invoke \"com.nckh.entity.MediaFile.getFileUrl()\" because the return value of \"com.nckh.entity.SheetMusic.getAudioFile()\" is null"

  /** getTaskStatus on the task found (or not) for an internal task id: the
      sheet's status name, and a message by task status. */
  function TaskStatusOf(taskId: string, found: Option<(TaskRecord, SheetRecord)>): (r: Result<StatusResponse>)
    ensures found.None? ==> r == Err("Task not found: " + taskId)
    ensures found.Some? && CompletedHasAudio(found.value.0, found.value.1) ==> r.Ok?
    ensures r.Ok? ==> r.value.status == StatusName(found.value.1.status)
    ensures r.Ok? && found.value.0.status == COMPLETED ==>
              r.value.message == Some("Music generation completed successfully.")
              && r.value.outputUrl == found.value.1.audioFileUrl
    ensures r.Ok? && found.value.0.status == FAILED ==> r.value.message == found.value.0.errorMessage
    ensures r.Ok? && found.value.0.status !in {COMPLETED, FAILED} ==>
              r.value.message == Some("Music generation is in progress...") && r.value.outputUrl.None?
  {
    if found.None? then Err("Task not found: " + taskId)
    else
      var (t, s) := found.value;
      var status := StatusName(s.status);
      if t.status == COMPLETED then
        if s.audioFileUrl.None? then Err(AudioFileNullMessage)
        else Ok(StatusResponse(t.taskId, status, Some("Music generation completed successfully."), s.audioFileUrl))
      else if t.status == FAILED then Ok(StatusResponse(t.taskId, status, t.errorMessage, None))
      else Ok(StatusResponse(t.taskId, status, Some("Music generation is in progress..."), None))
  }
}
