/** The SheetMusic entity that the music and sheet services update: its
    status enum and the fields those services set. The audio file, a
    MediaFile reference, is represented by its URL. */
module SheetMusicEntity {
  import opened Wrappers

  datatype SheetMusicStatus =
    | DRAFT
    | MUSIC_GENERATE_PROCESSING
    | SHEET_GENERATE_PROCESSING
    | MUSIC_COMPLETED
    | SHEET_COMPLETED
    | MUSIC_FAILED
    | SHEET_FAILED
    | DELETED

  /** SheetMusicStatus.name(). */
  function StatusName(s: SheetMusicStatus): string {
    match s
    case DRAFT => "DRAFT"
    case MUSIC_GENERATE_PROCESSING => "MUSIC_GENERATE_PROCESSING"
    case SHEET_GENERATE_PROCESSING => "SHEET_GENERATE_PROCESSING"
    case MUSIC_COMPLETED => "MUSIC_COMPLETED"
    case SHEET_COMPLETED => "SHEET_COMPLETED"
    case MUSIC_FAILED => "MUSIC_FAILED"
    case SHEET_FAILED => "SHEET_FAILED"
    case DELETED => "DELETED"
  }

  /** The field values of a SheetMusic, as one value. */
  datatype SheetRecord = SheetRecord(
    taskId: Option<string>,
    title: string,
    status: SheetMusicStatus,
    processingTimeMs: Option<int>,
    audioFileUrl: Option<string>,
    duration: int,
    completedAt: Option<int>,
    errorMessage: Option<string>,
    sheetMusicXml: Option<string>,
    musicModelAI: Option<string>,
    sheetModelAI: Option<string>)

  class SheetMusic {
    var taskId: Option<string>
    var title: string
    var status: SheetMusicStatus
    var processingTimeMs: Option<int>
    var audioFileUrl: Option<string>
    var duration: int
    var completedAt: Option<int>
    var errorMessage: Option<string>
    var sheetMusicXml: Option<string>
    var musicModelAI: Option<string>
    var sheetModelAI: Option<string>

    /** A new sheet as createSheetMusic builds it: the lyrics' title and
        DRAFT. */
    constructor(title: string)
      ensures Snapshot() == SheetRecord(None, title, DRAFT, None, None, 0, None, None, None, None, None)
    {
      taskId := None;
      this.title := title;
      status := DRAFT;
      processingTimeMs := None;
      audioFileUrl := None;
      duration := 0;
      completedAt := None;
      errorMessage := None;
      sheetMusicXml := None;
      musicModelAI := None;
      sheetModelAI := None;
    }

    function Snapshot(): SheetRecord
      reads this
    {
      SheetRecord(taskId, title, status, processingTimeMs, audioFileUrl, duration, completedAt,
                  errorMessage, sheetMusicXml, musicModelAI, sheetModelAI)
    }
  }
}
