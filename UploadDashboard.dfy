/** The upload page: which file is selected, the simulated validation that
    follows a selection, the simulated upload (a progress counter bumped by
    an interval), the processing wait that follows it, and the reset
    handlers. The validation timer is a flag; the upload intervals and the
    processing timers are counts, because each Analyze click starts an
    interval of its own and each interval that reaches 100 starts a
    processing timer of its own. Each timer firing is a method the
    environment calls. */
module UploadDashboard {
  import opened Options
  import opened FileUploadZone
  import opened UploadSidebar
  import N = NotificationToast

  const MaxScanSize: nat := 10 * 1024 * 1024
  const ScanTypes: seq<string> := ["image/jpeg", "image/png"]

  const TooLarge: ValidationMessage := ValidationMessage("error", "File Too Large", "Maximum file size is 10MB")
  const BadFormat: ValidationMessage := ValidationMessage("error", "Invalid File Format", "Only JPEG and PNG files are supported")
  const Validated: ValidationMessage := ValidationMessage("success", "File Validated", "Your MRI scan is ready for analysis")

  const UploadStatuses: seq<string> := ["idle", "uploading", "processing", "completed"]
  const ValidationStatuses: seq<string> := ["idle", "pending", "valid", "invalid"]

  /** The checks the validation timer runs, pushing a message per failed
      check (size first) and the success message when none failed. */
  method Validate(f: FileInfo) returns (messages: seq<ValidationMessage>, isValid: bool)
    ensures isValid <==> f.size <= MaxScanSize && f.mimeType in ScanTypes
    ensures TooLarge in messages <==> f.size > MaxScanSize
    ensures BadFormat in messages <==> f.mimeType !in ScanTypes
    ensures Validated in messages <==> isValid
    ensures isValid <==> forall m :: m in messages ==> m.kind != "error"
    ensures isValid ==> messages == [Validated]
    ensures !isValid ==> forall m :: m in messages ==> m.kind == "error"
    ensures f.size > MaxScanSize && f.mimeType !in ScanTypes ==> messages == [TooLarge, BadFormat]
    ensures f.size > MaxScanSize && f.mimeType in ScanTypes ==> messages == [TooLarge]
    ensures f.size <= MaxScanSize && f.mimeType !in ScanTypes ==> messages == [BadFormat]
  {
    messages := [];
    isValid := true;
    if f.size > MaxScanSize {
      messages := messages + [TooLarge];
      isValid := false;
    }
    if f.mimeType !in ScanTypes {
      messages := messages + [BadFormat];
      isValid := false;
    }
    if isValid {
      messages := messages + [Validated];
    }
  }

  /** With its default props the drop zone passes a file exactly when the
      dashboard's validation would call it valid, so validation of a file
      that came through the zone never ends 'invalid'. */
  lemma ZoneAgreesWithValidation(f: FileInfo)
    ensures HasSlash(DefaultFormats)
    ensures Select(f, DefaultFormats, DefaultMaxSize).Accepted? <==> f.size <= MaxScanSize && f.mimeType in ScanTypes
  {
    DefaultFormatNames();
    SelectOutcome(f, DefaultFormats, DefaultMaxSize);
  }

  /** The interval's step: below 100 the progress rises by ten, from 100
      on it stays at 100. */
  function TickProgress(p: int): (q: int)
    ensures p < 100 ==> q == p + 10
    ensures p >= 100 ==> q == 100
  {
    if p >= 100 then 100 else p + 10
  }

  /** The progress after `n` steps of the interval started at 0. */
  function ProgressAfter(n: nat): int
  {
    if n == 0 then 0 else TickProgress(ProgressAfter(n - 1))
  }

  /** Ten steps take the progress from 0 to 100 by tens, and it never
      goes past 100. */
  lemma {:induction false} ProgressAfterTicks(n: nat)
    ensures ProgressAfter(n) == if n <= 10 then 10 * n else 100
    ensures 0 <= ProgressAfter(n) <= 100
  {
    if n > 0 {
      ProgressAfterTicks(n - 1);
    }
  }

  function FileSelectedNotice(name: string): N.Draft {
    N.Draft(None, Some("success"), None, Some("File Selected"), Some(name + " has been selected for analysis"), None)
  }

  function UploadErrorNotice(message: string): N.Draft {
    N.Draft(None, Some("error"), None, Some("Upload Error"), Some(message), None)
  }

  const FileClearedNotice: N.Draft :=
    N.Draft(None, Some("info"), None, Some("File Cleared"), Some("Ready for new upload"), None)

  const AnalysisDoneNotice: N.Draft :=
    N.Draft(None, Some("success"), None, Some("Analysis Complete"), Some("Your MRI scan has been analyzed successfully"), None)

  class Dashboard {
    var selectedFile: Option<FileInfo>
    var uploadProgress: int
    var uploadStatus: string
    var validationStatus: string
    var validationMessages: seq<ValidationMessage>
    var uploadError: Option<string>
    /** The 1.5-second validation timer is pending. */
    var validationTimer: bool
    /** How many 200-millisecond upload intervals are running. */
    var uploadIntervals: nat
    /** How many 3-second processing timers are pending. */
    var processingTimers: nat

    /** What every handler keeps, as written. */
    predicate Valid()
      reads this
    {
      && 0 <= uploadProgress <= 100 && uploadProgress % 10 == 0
      && uploadStatus in UploadStatuses
      && validationStatus in ValidationStatuses
      && (validationTimer ==> selectedFile.Some? && validationStatus == "pending" && validationMessages == [])
    }

    /** What the page means to keep: a timer runs only in the status it
        belongs to, and an upload or analysis is only ever under way for a
        selected, validated file. */
    predicate Coherent()
      reads this
    {
      && uploadIntervals == (if uploadStatus == "uploading" then 1 else 0)
      && processingTimers == (if uploadStatus == "processing" then 1 else 0)
      && (IsUploading(uploadStatus) ==> selectedFile.Some? && validationStatus == "valid")
    }

    /** The condition `handleAnalyze` checks before it starts. */
    function AnalyzeAccepted(): bool
      reads this
    {
      selectedFile.Some? && validationStatus == "valid"
    }

    constructor ()
      ensures Valid() && Coherent()
      ensures selectedFile.None? && uploadProgress == 0 && uploadStatus == "idle"
      ensures validationStatus == "idle" && validationMessages == [] && uploadError.None?
      ensures !validationTimer && uploadIntervals == 0 && processingTimers == 0
    {
      selectedFile := None;
      uploadProgress := 0;
      uploadStatus := "idle";
      validationStatus := "idle";
      validationMessages := [];
      uploadError := None;
      validationTimer := false;
      uploadIntervals := 0;
      processingTimers := 0;
    }

    /** `handleFileSelect`, followed by the validation effect the new
        `selectedFile` triggers (or the cleanup of the old one). The zone is
        disabled while busy, so no selection arrives then. Returns the
        notification the handler adds. */
    method HandleFileSelect(sel: Selection) returns (notice: N.Draft)
      requires Valid() && !IsUploading(uploadStatus)
      modifies this
      ensures Valid()
      ensures old(Coherent()) ==> Coherent()
      ensures uploadIntervals == old(uploadIntervals) && processingTimers == old(processingTimers)
      ensures sel.Rejected? ==>
        && uploadError == Some(sel.message) && selectedFile.None?
        && validationStatus == "idle" && validationMessages == [] && !validationTimer
        && uploadStatus == old(uploadStatus) && uploadProgress == old(uploadProgress)
        && notice == UploadErrorNotice(sel.message)
      ensures sel.Accepted? ==>
        && uploadError.None? && selectedFile == Some(sel.file)
        && uploadStatus == "idle" && uploadProgress == 0
        && validationStatus == "pending" && validationMessages == [] && validationTimer
        && notice == FileSelectedNotice(sel.file.name)
    {
      match sel
      case Rejected(message) =>
        uploadError := Some(message);
        selectedFile := None;
        validationStatus := "idle";
        validationMessages := [];
        validationTimer := false;
        notice := UploadErrorNotice(message);
      case Accepted(file) =>
        uploadError := None;
        selectedFile := Some(file);
        uploadStatus := "idle";
        uploadProgress := 0;
        validationStatus := "pending";
        validationMessages := [];
        validationTimer := true;
        notice := FileSelectedNotice(file.name);
    }

    /** The validation timer fires: the messages and the outcome are set.
        Without a pending timer nothing happens. */
    method FinishValidation()
      requires Valid()
      modifies this`validationMessages, this`validationStatus, this`validationTimer
      ensures Valid()
      ensures old(Coherent()) ==> Coherent()
      ensures !old(validationTimer) ==> validationMessages == old(validationMessages) && validationStatus == old(validationStatus)
      ensures !validationTimer
      ensures old(validationTimer) ==>
        && (validationStatus == "valid" <==> selectedFile.value.size <= MaxScanSize && selectedFile.value.mimeType in ScanTypes)
        && (validationStatus == "valid" || validationStatus == "invalid")
        && (validationStatus == "valid" <==> validationMessages == [Validated])
        && (validationStatus == "valid" <==> forall m :: m in validationMessages ==> m.kind != "error")
    {
      if validationTimer {
        var messages, isValid := Validate(selectedFile.value);
        validationMessages := messages;
        validationStatus := if isValid then "valid" else "invalid";
        validationTimer := false;
      }
    }

    /** `handleClearFile` as written: the six fields are reset and the
        validation timer is cleaned up, but a running upload interval or
        processing timer is left running. */
    method HandleClearFileAsWritten() returns (notice: N.Draft)
      requires Valid()
      modifies this
      ensures Valid()
      ensures selectedFile.None? && uploadError.None? && uploadStatus == "idle" && uploadProgress == 0
      ensures validationStatus == "idle" && validationMessages == [] && !validationTimer
      ensures uploadIntervals == old(uploadIntervals) && processingTimers == old(processingTimers)
      ensures notice == FileClearedNotice
    {
      selectedFile := None;
      uploadError := None;
      uploadStatus := "idle";
      uploadProgress := 0;
      validationStatus := "idle";
      validationMessages := [];
      validationTimer := false;
      notice := FileClearedNotice;
    }

    /** The clear the page needs: the same reset, with the upload interval
        and the processing timer stopped as well. */
    method HandleClearFile() returns (notice: N.Draft)
      requires Valid()
      modifies this
      ensures Valid() && Coherent()
      ensures selectedFile.None? && uploadError.None? && uploadStatus == "idle" && uploadProgress == 0
      ensures validationStatus == "idle" && validationMessages == [] && !validationTimer
      ensures uploadIntervals == 0 && processingTimers == 0
      ensures notice == FileClearedNotice
    {
      notice := HandleClearFileAsWritten();
      uploadIntervals := 0;
      processingTimers := 0;
    }

    /** `handleAnalyze`: without a selected, validated file nothing
        changes; otherwise the upload starts from 0 and one more interval
        runs, beside any interval an earlier click left running. */
    method HandleAnalyze()
      requires Valid()
      modifies this`uploadStatus, this`uploadProgress, this`uploadIntervals
      ensures Valid()
      ensures old(Coherent()) && !IsUploading(old(uploadStatus)) ==> Coherent()
      ensures !AnalyzeAccepted() ==> uploadStatus == old(uploadStatus) && uploadProgress == old(uploadProgress) && uploadIntervals == old(uploadIntervals)
      ensures AnalyzeAccepted() ==> uploadStatus == "uploading" && uploadProgress == 0 && uploadIntervals == old(uploadIntervals) + 1
    {
      if selectedFile.None? || validationStatus != "valid" {
        return;
      }
      uploadStatus := "uploading";
      uploadProgress := 0;
      uploadIntervals := uploadIntervals + 1;
    }

    /** One of the running upload intervals fires: the shared progress
        takes one step, and the step that finds it at 100 stops that
        interval, moves to 'processing' and starts a processing timer.
        Without a running interval nothing happens. */
    method Tick()
      requires Valid()
      modifies this`uploadProgress, this`uploadStatus, this`uploadIntervals, this`processingTimers
      ensures Valid()
      ensures old(Coherent()) ==> Coherent()
      ensures old(uploadIntervals) == 0 ==>
        uploadProgress == old(uploadProgress) && uploadStatus == old(uploadStatus)
        && uploadIntervals == 0 && processingTimers == old(processingTimers)
      ensures old(uploadIntervals) > 0 ==> uploadProgress == TickProgress(old(uploadProgress))
      ensures old(uploadIntervals) > 0 && old(uploadProgress) < 100 ==>
        uploadStatus == old(uploadStatus) && uploadIntervals == old(uploadIntervals) && processingTimers == old(processingTimers)
      ensures old(uploadIntervals) > 0 && old(uploadProgress) >= 100 ==>
        uploadStatus == "processing" && uploadIntervals == old(uploadIntervals) - 1 && processingTimers == old(processingTimers) + 1
    {
      if uploadIntervals == 0 {
        return;
      }
      if uploadProgress >= 100 {
        uploadIntervals := uploadIntervals - 1;
        uploadStatus := "processing";
        processingTimers := processingTimers + 1;
        uploadProgress := 100;
      } else {
        uploadProgress := uploadProgress + 10;
      }
    }

    /** One of the pending processing timers fires: the analysis is
        complete and its notice is posted. */
    method FinishProcessing() returns (notice: Option<N.Draft>)
      requires Valid()
      modifies this`uploadStatus, this`processingTimers
      ensures Valid()
      ensures old(Coherent()) ==> Coherent()
      ensures old(processingTimers) > 0 ==>
        uploadStatus == "completed" && processingTimers == old(processingTimers) - 1 && notice == Some(AnalysisDoneNotice)
      ensures old(processingTimers) == 0 ==>
        uploadStatus == old(uploadStatus) && processingTimers == 0 && notice.None?
    {
      if processingTimers > 0 {
        uploadStatus := "completed";
        processingTimers := processingTimers - 1;
        notice := Some(AnalysisDoneNotice);
      } else {
        notice := None;
      }
    }

    /** `handleRetry`: back to 'idle' at 0, then the analyse guard. */
    method HandleRetry()
      requires Valid()
      modifies this`uploadStatus, this`uploadProgress, this`uploadIntervals
      ensures Valid()
      ensures !AnalyzeAccepted() ==> uploadStatus == "idle" && uploadProgress == 0 && uploadIntervals == old(uploadIntervals)
      ensures AnalyzeAccepted() ==> uploadStatus == "uploading" && uploadProgress == 0 && uploadIntervals == old(uploadIntervals) + 1
    {
      uploadStatus := "idle";
      uploadProgress := 0;
      HandleAnalyze();
    }
  }

  /** No handler ever sets the 'error' status (the `catch` branch is
      unreachable: nothing in the `try` throws), so the sidebar never
      offers Retry. */
  lemma RetryNeverOffered(d: Dashboard)
    requires d.Valid()
    ensures d.uploadStatus != "error"
    ensures !ButtonsFor(d.selectedFile.Some?, d.uploadStatus, d.validationMessages).retryShown
  {
  }

  /** While validation is pending the sidebar's Analyze button is enabled,
      yet the click is ignored by `handleAnalyze`. */
  lemma AnalyzeEnabledWhilePending(d: Dashboard)
    requires d.Valid() && d.validationTimer && d.uploadStatus == "idle"
    ensures CanAnalyze(d.selectedFile.Some?, d.uploadStatus, d.validationMessages)
    ensures !d.AnalyzeAccepted()
  {
  }

  const Scan: FileInfo := FileInfo("scan.png", "image/png", 1024)

  /** A file is selected, validated and sent; after the first step of the
      upload the preview's remove button (which, unlike the sidebar's
      Clear, is never disabled) clears the page. With the clear as written
      the interval keeps going, and the page ends 'completed' with no
      file selected. */
  method ClearDuringUploadAsWritten() returns (status: string, hasFile: bool, done: Option<N.Draft>)
    ensures status == "completed" && !hasFile && done == Some(AnalysisDoneNotice)
  {
    var d := new Dashboard();
    var _ := d.HandleFileSelect(Accepted(Scan));
    d.FinishValidation();
    d.HandleAnalyze();
    d.Tick();
    var _ := d.HandleClearFileAsWritten();
    var i := 0;
    while i < 11
      invariant 0 <= i <= 11
      invariant d.Valid() && d.selectedFile.None? && d.uploadStatus == (if i < 11 then "idle" else "processing")
      invariant d.uploadProgress == (if i <= 10 then 10 * i else 100)
      invariant d.uploadIntervals == (if i < 11 then 1 else 0) && d.processingTimers == (if i == 11 then 1 else 0)
    {
      d.Tick();
      i := i + 1;
    }
    done := d.FinishProcessing();
    status := d.uploadStatus;
    hasFile := d.selectedFile.Some?;
  }

  /** The same sequence with the clear that stops the timers: the later
      firings find nothing to do and the page stays idle and coherent. */
  method ClearDuringUpload() returns (status: string, hasFile: bool, done: Option<N.Draft>)
    ensures status == "idle" && !hasFile && done.None?
  {
    var d := new Dashboard();
    var _ := d.HandleFileSelect(Accepted(Scan));
    d.FinishValidation();
    d.HandleAnalyze();
    d.Tick();
    var _ := d.HandleClearFile();
    var i := 0;
    while i < 11
      invariant 0 <= i <= 11
      invariant d.Valid() && d.Coherent() && d.selectedFile.None? && d.uploadStatus == "idle"
      invariant d.uploadIntervals == 0 && d.processingTimers == 0
    {
      d.Tick();
      i := i + 1;
    }
    done := d.FinishProcessing();
    status := d.uploadStatus;
    hasFile := d.selectedFile.Some?;
  }

  /** After the as-written clear during an upload, the first interval is
      still running; a new file is selected and validated, and Analyze,
      enabled again, starts a second interval beside it. Both then step the
      same progress. */
  method SecondAnalyzeAsWritten() returns (intervals: nat, progress: int)
    ensures intervals == 2 && progress == 20
  {
    var d := new Dashboard();
    var _ := d.HandleFileSelect(Accepted(Scan));
    d.FinishValidation();
    d.HandleAnalyze();
    d.Tick();
    var _ := d.HandleClearFileAsWritten();
    var _ := d.HandleFileSelect(Accepted(Scan));
    d.FinishValidation();
    d.HandleAnalyze();
    d.Tick();
    d.Tick();
    intervals := d.uploadIntervals;
    progress := d.uploadProgress;
  }

  /** With the clear that stops the timers, the same clicks leave exactly
      one interval running. */
  method SecondAnalyze() returns (intervals: nat, progress: int)
    ensures intervals == 1 && progress == 20
  {
    var d := new Dashboard();
    var _ := d.HandleFileSelect(Accepted(Scan));
    d.FinishValidation();
    d.HandleAnalyze();
    d.Tick();
    var _ := d.HandleClearFile();
    var _ := d.HandleFileSelect(Accepted(Scan));
    d.FinishValidation();
    d.HandleAnalyze();
    d.Tick();
    d.Tick();
    intervals := d.uploadIntervals;
    progress := d.uploadProgress;
  }
}
