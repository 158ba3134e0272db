/** Toast notifications: the list the `useNotifications` hook keeps (append
    with defaults, remove by id, clear, and the four preset helpers), the
    toast's own visible list with its dismiss action and auto-hide
    schedule, and the position and style look-ups. */
module NotificationToast {
  import opened Options
  import opened Seqs
  import opened Palette

  /** What a caller passes to `addNotification`: every field may be absent.
      Action buttons carry callbacks and are not modelled. */
  datatype Draft = Draft(
    id: Option<real>,
    kind: Option<string>,
    persistent: Option<bool>,
    title: Option<string>,
    message: Option<string>,
    details: Option<string>)

  /** A stored notification; `kind` is the `type` field. */
  datatype Notification = Notification(
    id: real,
    kind: string,
    persistent: bool,
    title: Option<string>,
    message: Option<string>,
    details: Option<string>)

  function OrElse<T>(o: Option<T>, d: T): (r: T)
    ensures o.Some? ==> r == o.value
    ensures o.None? ==> r == d
  {
    if o.Some? then o.value else d
  }

  /** `{ id, type: 'info', persistent: false, ...draft }`: the draft's own
      fields win over the defaults, including the id. */
  function Stamp(newId: real, d: Draft): Notification
  {
    Notification(OrElse(d.id, newId), OrElse(d.kind, "info"), OrElse(d.persistent, false),
                 d.title, d.message, d.details)
  }

  /** A draft that names nothing gets the defaults; a field the caller
      supplies is kept. */
  lemma StampDefaults(newId: real, d: Draft)
    ensures d.kind.None? ==> Stamp(newId, d).kind == "info"
    ensures d.persistent.None? ==> !Stamp(newId, d).persistent
    ensures d.id.None? ==> Stamp(newId, d).id == newId
    ensures d.kind.Some? ==> Stamp(newId, d).kind == d.kind.value
    ensures d.persistent.Some? ==> Stamp(newId, d).persistent == d.persistent.value
    ensures Stamp(newId, d).message == d.message && Stamp(newId, d).title == d.title
  {
  }

  /** `list.filter((n: Notification) => n.id !== id)`. */
  function Without(ns: seq<Notification>, id: real): seq<Notification>
  {
    Keep(ns, (n: Notification) => n.id != id)
  }

  function NoticeIds(ns: seq<Notification>): (ids: seq<real>)
    ensures |ids| == |ns|
    ensures forall i :: 0 <= i < |ns| ==> ids[i] == ns[i].id
  {
    if ns == [] then [] else [ns[0].id] + NoticeIds(ns[1..])
  }

  /** Removing an id drops every entry that carries it and keeps every
      other entry, in order. */
  lemma WithoutMeaning(ns: seq<Notification>, id: real)
    ensures forall n :: n in Without(ns, id) ==> n.id != id && n in ns
    ensures forall n :: n in ns && n.id != id ==> n in Without(ns, id)
    ensures IsSubsequence(Without(ns, id), ns)
    ensures id !in NoticeIds(Without(ns, id))
  {
    KeepMembers(ns, (n: Notification) => n.id != id);
    KeepIsSubsequence(ns, (n: Notification) => n.id != id);
    var r := Without(ns, id);
    forall i | 0 <= i < |r|
      ensures NoticeIds(r)[i] != id
    {
      assert r[i] in r;
    }
  }

  /** Removing an id no entry carries changes nothing. */
  lemma WithoutAbsent(ns: seq<Notification>, id: real)
    requires id !in NoticeIds(ns)
    ensures Without(ns, id) == ns
  {
    forall n | n in ns
      ensures n.id != id
    {
      var i :| 0 <= i < |ns| && ns[i] == n;
      assert NoticeIds(ns)[i] == n.id;
    }
    KeepAll(ns, (n: Notification) => n.id != id);
  }

  /** The preset helpers' drafts. */
  function UploadSuccessDraft(filename: string): Draft {
    Draft(None, Some("success"), None, Some("Upload Successful"),
          Some("MRI scan \"" + filename + "\" has been uploaded successfully."),
          Some("Analysis will begin automatically."))
  }

  /** `confidence` is the number as the caller renders it. */
  function AnalysisCompleteDraft(confidence: string): Draft {
    Draft(None, Some("medical"), None, Some("Analysis Complete"),
          Some("Brain tumor analysis completed with " + confidence + "% confidence."), None)
  }

  function UploadErrorDraft(error: string): Draft {
    Draft(None, Some("error"), Some(true), Some("Upload Failed"),
          Some("Failed to upload MRI scan. Please try again."), Some(error))
  }

  function SystemAlertDraft(message: string): Draft {
    Draft(None, Some("warning"), Some(true), Some("System Alert"), Some(message), None)
  }

  /** Upload errors and system alerts stay until dismissed; upload successes
      and analysis completions hide themselves. */
  lemma PresetPersistence(filename: string, confidence: string, error: string, message: string, newId: real)
    ensures Stamp(newId, UploadErrorDraft(error)).persistent && Stamp(newId, UploadErrorDraft(error)).kind == "error"
    ensures Stamp(newId, SystemAlertDraft(message)).persistent && Stamp(newId, SystemAlertDraft(message)).kind == "warning"
    ensures !Stamp(newId, UploadSuccessDraft(filename)).persistent
    ensures !Stamp(newId, AnalysisCompleteDraft(confidence)).persistent
  {
  }

  /** The ids the toast schedules for automatic dismissal when its visible
      list changes: the non-persistent ones, and none when the duration is
      not positive. */
  function AutoDismissIds(visible: seq<Notification>, autoHideDuration: int): seq<real>
  {
    if autoHideDuration > 0 then NoticeIds(Keep(visible, (n: Notification) => !n.persistent)) else []
  }

  lemma AutoDismissOnlyTransient(visible: seq<Notification>, autoHideDuration: int)
    ensures autoHideDuration <= 0 ==> AutoDismissIds(visible, autoHideDuration) == []
    ensures forall id :: id in AutoDismissIds(visible, autoHideDuration) ==>
      exists n :: n in visible && n.id == id && !n.persistent
    ensures autoHideDuration > 0 ==>
      forall n :: n in visible && !n.persistent ==> n.id in AutoDismissIds(visible, autoHideDuration)
  {
    var kept := Keep(visible, (n: Notification) => !n.persistent);
    KeepMembers(visible, (n: Notification) => !n.persistent);
    forall id | id in AutoDismissIds(visible, autoHideDuration)
      ensures exists n :: n in visible && n.id == id && !n.persistent
    {
      var i :| 0 <= i < |kept| && NoticeIds(kept)[i] == id;
      assert kept[i] in kept;
    }
    if autoHideDuration > 0 {
      forall n | n in visible && !n.persistent
        ensures n.id in AutoDismissIds(visible, autoHideDuration)
      {
        var i :| 0 <= i < |kept| && kept[i] == n;
        assert NoticeIds(kept)[i] == n.id;
      }
    }
  }

  /** `getPositionClasses`. */
  function PositionClasses(position: string): (r: string)
  {
    match position
    case "top-left" => "top-20 left-4"
    case "top-center" => "top-20 left-1/2 transform -translate-x-1/2"
    case "top-right" => "top-20 right-4"
    case "bottom-left" => "bottom-4 left-4"
    case "bottom-center" => "bottom-4 left-1/2 transform -translate-x-1/2"
    case "bottom-right" => "bottom-4 right-4"
    case _ => "top-20 right-4"
  }

  /** An unknown position is placed where 'top-right' (the default) is. */
  lemma UnknownPositionIsTopRight(position: string)
    requires position !in ["top-left", "top-center", "top-right", "bottom-left", "bottom-center", "bottom-right"]
    ensures PositionClasses(position) == PositionClasses("top-right")
  {
  }

  /** The colour family and icon `getNotificationStyles` picks. */
  datatype Style = Style(tone: Tone, icon: string)

  function StyleOf(kind: string): Style
  {
    match kind
    case "success" => Style(Success, "CheckCircle")
    case "error" => Style(Error, "XCircle")
    case "warning" => Style(Warning, "AlertTriangle")
    case "info" => Style(Primary, "Info")
    case "medical" => Style(Accent, "Activity")
    case _ => Style(Neutral, "Bell")
  }

  /** The five named types have five different styles; any other type gets
      the neutral bell. */
  lemma StyleOfKinds(kind: string)
    ensures kind !in ["success", "error", "warning", "info", "medical"] <==> StyleOf(kind) == Style(Neutral, "Bell")
    ensures StyleOf(kind).tone == Success <==> kind == "success"
    ensures StyleOf(kind).tone == Error <==> kind == "error"
  {
  }

  /** The list kept by `useNotifications`. */
  class Store {
    var notifications: seq<Notification>

    constructor ()
      ensures notifications == []
    {
      notifications := [];
    }

    /** Appends the stamped draft and returns the id generated for it;
        `newId` stands for `Date.now() + Math.random()`. */
    method AddNotification(newId: real, d: Draft) returns (id: real)
      modifies this
      ensures notifications == old(notifications) + [Stamp(newId, d)]
      ensures id == newId
      ensures d.id.None? ==> notifications[|notifications| - 1].id == id
    {
      var n := Stamp(newId, d);
      notifications := notifications + [n];
      id := newId;
    }

    method RemoveNotification(id: real)
      modifies this
      ensures notifications == Without(old(notifications), id)
      ensures id !in NoticeIds(notifications)
    {
      notifications := Without(notifications, id);
      WithoutMeaning(old(notifications), id);
    }

    method ClearAllNotifications()
      modifies this
      ensures notifications == []
    {
      notifications := [];
    }

    method ShowUploadSuccess(newId: real, filename: string) returns (id: real)
      modifies this
      ensures notifications == old(notifications) + [Stamp(newId, UploadSuccessDraft(filename))]
      ensures id == newId && !notifications[|notifications| - 1].persistent
    {
      id := AddNotification(newId, UploadSuccessDraft(filename));
    }

    method ShowAnalysisComplete(newId: real, confidence: string) returns (id: real)
      modifies this
      ensures notifications == old(notifications) + [Stamp(newId, AnalysisCompleteDraft(confidence))]
      ensures id == newId && !notifications[|notifications| - 1].persistent
    {
      id := AddNotification(newId, AnalysisCompleteDraft(confidence));
    }

    method ShowUploadError(newId: real, error: string) returns (id: real)
      modifies this
      ensures notifications == old(notifications) + [Stamp(newId, UploadErrorDraft(error))]
      ensures id == newId && notifications[|notifications| - 1].persistent
    {
      id := AddNotification(newId, UploadErrorDraft(error));
    }

    method ShowSystemAlert(newId: real, message: string) returns (id: real)
      modifies this
      ensures notifications == old(notifications) + [Stamp(newId, SystemAlertDraft(message))]
      ensures id == newId && notifications[|notifications| - 1].persistent
    {
      id := AddNotification(newId, SystemAlertDraft(message));
    }
  }

  /** The toast component's own copy of the list it is shown. */
  class Toast {
    var visible: seq<Notification>

    constructor ()
      ensures visible == []
    {
      visible := [];
    }

    /** The effect that copies a new `notifications` prop in. */
    method ReceiveNotifications(ns: seq<Notification>)
      modifies this
      ensures visible == ns
    {
      visible := ns;
    }

    /** Hides the notification and forwards the same id to `onDismiss`. */
    method HandleDismiss(id: real) returns (forwarded: real)
      modifies this
      ensures visible == Without(old(visible), id)
      ensures forwarded == id
    {
      visible := Without(visible, id);
      forwarded := id;
    }

    /** Nothing renders while the visible list is empty. */
    function Rendered(): bool
      reads this
    {
      |visible| > 0
    }
  }
}
