/** The upload progress panel: the look each upload status is given, the
    status-specific note under the bar, and the bar's clamped width. */
module UploadProgress {
  import opened Palette

  /** The colour family, icon and heading one status is shown with; the
      icon colour, bar colour, background and border all come from `tone`. */
  datatype Look = Look(tone: Tone, icon: string, text: string)

  const KnownStatuses: seq<string> := ["uploading", "processing", "completed", "error"]

  function StatusLook(status: string): Look
  {
    match status
    case "uploading" => Look(Primary, "Upload", "Uploading...")
    case "processing" => Look(Warning, "Cpu", "Processing...")
    case "completed" => Look(Success, "CheckCircle", "Completed")
    case "error" => Look(Error, "XCircle", "Error")
    case _ => Look(Neutral, "Clock", "Ready")
  }

  /** Every status has a look; the four named ones have four different
      colour families, and any other status (including 'idle') shows
      "Ready" in the neutral family. */
  lemma StatusLookTotal(status: string)
    ensures status !in KnownStatuses <==> StatusLook(status) == Look(Neutral, "Clock", "Ready")
    ensures StatusLook(status).tone == Error <==> status == "error"
    ensures StatusLook(status).tone == Success <==> status == "completed"
    ensures StatusLook(status).tone == Warning <==> status == "processing"
    ensures StatusLook(status).tone == Primary <==> status == "uploading"
  {
  }

  /** `Math.min(100, Math.max(0, progress))`. */
  function BarWidth(progress: int): (w: int)
    ensures 0 <= w <= 100
    ensures 0 <= progress <= 100 ==> w == progress
    ensures progress < 0 ==> w == 0
    ensures progress > 100 ==> w == 100
  {
    if progress > 100 then 100 else if progress < 0 then 0 else progress
  }

  /** One of the notes shown under the bar, with the status it belongs to. */
  datatype Note = Note(forStatus: string, icon: string, text: string)

  /** The four independent `status === …` blocks, in page order. */
  function Notes(status: string): seq<Note>
  {
    (if status == "uploading" then [Note("uploading", "Wifi", "Uploading to secure server")] else [])
    + (if status == "processing" then [Note("processing", "Brain", "AI analysis in progress")] else [])
    + (if status == "completed" then [Note("completed", "CheckCircle", "Analysis complete")] else [])
    + (if status == "error" then [Note("error", "AlertTriangle", "Upload failed - please try again")] else [])
  }

  /** At most one note is shown, it is the one for the current status, and
      one is shown exactly for the four named statuses. */
  lemma AtMostOneNote(status: string)
    ensures |Notes(status)| <= 1
    ensures |Notes(status)| == 1 <==> status in KnownStatuses
    ensures forall n :: n in Notes(status) ==> n.forStatus == status
  {
  }
}
