/** The upload page's sidebar: whether analysis may start, whether an
    upload is under way, which buttons are shown and enabled, and the
    status line handed to the progress panel. */
module UploadSidebar {
  import opened Options
  import opened Seqs
  import opened Palette

  /** One validation result; `kind` is its `type`. */
  datatype ValidationMessage = ValidationMessage(kind: string, title: string, description: string)

  function Errors(messages: seq<ValidationMessage>): seq<ValidationMessage>
  {
    Keep(messages, (m: ValidationMessage) => m.kind == "error")
  }

  /** `validationMessages.filter(msg => msg.type === 'error').length === 0`
      holds exactly when no message is an error. */
  lemma NoErrorsMeaning(messages: seq<ValidationMessage>)
    ensures |Errors(messages)| == 0 <==> forall m :: m in messages ==> m.kind != "error"
  {
    KeepMembers(messages, (m: ValidationMessage) => m.kind == "error");
    if |Errors(messages)| != 0 {
      assert Errors(messages)[0] in Errors(messages);
    }
  }

  predicate IsUploading(status: string) {
    status == "uploading" || status == "processing"
  }

  predicate CanAnalyze(hasFile: bool, status: string, messages: seq<ValidationMessage>) {
    hasFile && status == "idle" && |Errors(messages)| == 0
  }

  /** Analysis can start only for a file, in the idle status, with no error
      message; and never while an upload is under way. */
  lemma CanAnalyzeMeaning(hasFile: bool, status: string, messages: seq<ValidationMessage>)
    ensures CanAnalyze(hasFile, status, messages) <==>
      hasFile && status == "idle" && forall m :: m in messages ==> m.kind != "error"
    ensures !(CanAnalyze(hasFile, status, messages) && IsUploading(status))
  {
    NoErrorsMeaning(messages);
  }

  /** `disabled={!canAnalyze || isUploading}`. */
  predicate AnalyzeDisabled(hasFile: bool, status: string, messages: seq<ValidationMessage>) {
    !CanAnalyze(hasFile, status, messages) || IsUploading(status)
  }

  /** The `|| isUploading` half never changes the outcome. */
  lemma AnalyzeDisabledIsCannotAnalyze(hasFile: bool, status: string, messages: seq<ValidationMessage>)
    ensures AnalyzeDisabled(hasFile, status, messages) <==> !CanAnalyze(hasFile, status, messages)
  {
  }

  /** The buttons of the Actions panel. */
  datatype Buttons = Buttons(analyzeEnabled: bool, analyzeLabel: string, clearShown: bool,
                             clearEnabled: bool, retryShown: bool)

  function ButtonsFor(hasFile: bool, status: string, messages: seq<ValidationMessage>): (b: Buttons)
    ensures b.analyzeEnabled ==> b.clearShown && b.clearEnabled && !b.retryShown
  {
    Buttons(!AnalyzeDisabled(hasFile, status, messages),
            if IsUploading(status) then "Analyzing..." else "Analyze Image",
            hasFile, hasFile && !IsUploading(status), status == "error")
  }

  /** Clear is offered exactly when there is a file, and usable only when
      nothing is uploading; Retry is offered exactly in the 'error' status. */
  lemma ButtonsMeaning(hasFile: bool, status: string, messages: seq<ValidationMessage>)
    ensures ButtonsFor(hasFile, status, messages).clearShown <==> hasFile
    ensures ButtonsFor(hasFile, status, messages).clearEnabled <==> hasFile && !IsUploading(status)
    ensures ButtonsFor(hasFile, status, messages).retryShown <==> status == "error"
    ensures ButtonsFor(hasFile, status, messages).analyzeEnabled <==> CanAnalyze(hasFile, status, messages)
  {
  }

  /** The `message` prop of the progress panel. */
  function StatusMessage(status: string): string
  {
    if status == "uploading" then "Uploading to secure server..."
    else if status == "processing" then "Running AI analysis..."
    else if status == "completed" then "Analysis complete!"
    else if status == "error" then "Upload failed"
    else "Ready for upload"
  }

  lemma StatusMessageDefault(status: string)
    ensures status !in ["uploading", "processing", "completed", "error"] <==> StatusMessage(status) == "Ready for upload"
  {
  }

  /** The `estimatedTime` prop: shown only while uploading or processing. */
  function EstimatedTime(status: string): (r: Option<string>)
    ensures r.Some? <==> IsUploading(status)
  {
    if IsUploading(status) then Some("2-3 minutes") else None
  }

  /** The colour family of one validation message: error, then warning,
      and any other type is shown as a success. */
  function MessageTone(kind: string): (t: Tone)
    ensures t in {Error, Warning, Success}
    ensures t == Success <==> kind != "error" && kind != "warning"
  {
    if kind == "error" then Error else if kind == "warning" then Warning else Success
  }
}
