/**
 * The case workspace panel (`caseWorkspacePanel.js`): the view it derives
 * from the wired workspace data, the open/close state of the update modal,
 * and the handlers that call the controller, toast and refresh.
 */
module CaseWorkspacePanel {
  import opened Maybe
  import opened ErrorValues
  import opened Effects
  import JsStrings

  const UpdateMode := "update"
  const EscalateMode := "escalate"
  const UnknownError := "Unknown error"
  const SuccessTitle := "Success"
  const FailureTitle := "Action Failed"

  /** The case record; only its priority is interpreted by the panel. */
  datatype CaseInfo = CaseInfo(priority: Option<string>)

  datatype CaseUpdate = CaseUpdate(summary: string, createdDate: string)

  /** The optional context block; its fields are only displayed. */
  datatype CaseContext = CaseContext(fields: map<string, string>)

  /** What `getWorkspaceData` returns. */
  datatype WorkspaceData = WorkspaceData(
    caseInfo: Option<CaseInfo>,
    context: Option<CaseContext>,
    recentUpdates: Option<seq<CaseUpdate>>)

  /** The `data` and `error` halves of the latest wired result. */
  datatype Snapshot = Snapshot(data: Option<WorkspaceData>, error: ErrorValue)

  // ---------------------------------------------------------------- derived view

  /** `this.data?.caseInfo` */
  function CaseInfoOf(s: Snapshot): Option<CaseInfo> {
    if s.data.Some? then s.data.value.caseInfo else None
  }

  /** `this.data?.context` */
  function ContextOf(s: Snapshot): Option<CaseContext> {
    if s.data.Some? then s.data.value.context else None
  }

  /** `updates`: the fetched list, or the empty list when there is none. */
  function Updates(s: Snapshot): (r: seq<CaseUpdate>)
    ensures r == [] || (s.data.Some? && s.data.value.recentUpdates == Some(r))
    ensures s.data.Some? && s.data.value.recentUpdates.Some? ==> r == s.data.value.recentUpdates.value
  {
    if s.data.Some? && s.data.value.recentUpdates.Some? then s.data.value.recentUpdates.value else []
  }

  /** `hasUpdates` */
  function HasUpdates(s: Snapshot): (r: bool)
    ensures r <==> s.data.Some? && s.data.value.recentUpdates.Some? && s.data.value.recentUpdates.value != []
  {
    |Updates(s)| > 0
  }

  /** `hasContext` */
  function HasContext(s: Snapshot): (r: bool)
    ensures r <==> s.data.Some? && s.data.value.context.Some?
  {
    ContextOf(s).Some?
  }

  /** `(this.caseInfo?.priority || '')` */
  function Priority(s: Snapshot): string {
    var info := CaseInfoOf(s);
    if info.Some? && info.value.priority.Some? then info.value.priority.value else ""
  }

  /** `priorityBadgeVariant`: three severities and nothing else. */
  function PriorityBadgeVariant(s: Snapshot): (r: string)
    ensures r == "error" || r == "warning" || r == "success"
    ensures Priority(s) == "" ==> r == "success"
  {
    var p := JsStrings.ToLower(Priority(s));
    if p == "high" then "error"
    else if p == "medium" then "warning"
    else "success"
  }

  /** `isLoading`: neither data nor an error has arrived; the view then shows its defaults. */
  function IsLoading(s: Snapshot): (r: bool)
    ensures r <==> s.data.None? && !Truthy(s.error)
    ensures r ==> Updates(s) == [] && !HasUpdates(s) && !HasContext(s) && PriorityBadgeVariant(s) == "success"
  {
    s.data.None? && !Truthy(s.error)
  }

  /**
   * The badge depends on the priority only up to letter case: "error" for
   * any spelling of "high", "warning" for any spelling of "medium",
   * "success" for everything else.
   */
  lemma PriorityBadgeVariantIgnoresCase(s: Snapshot)
    ensures PriorityBadgeVariant(s) == "error" <==> JsStrings.EqualsIgnoringCase(Priority(s), "high")
    ensures PriorityBadgeVariant(s) == "warning" <==> JsStrings.EqualsIgnoringCase(Priority(s), "medium")
    ensures PriorityBadgeVariant(s) == "success" <==>
      !JsStrings.EqualsIgnoringCase(Priority(s), "high") && !JsStrings.EqualsIgnoringCase(Priority(s), "medium")
  {
    JsStrings.ToLowerEqualsIff(Priority(s), "high");
    JsStrings.ToLowerEqualsIff(Priority(s), "medium");
  }

  // ---------------------------------------------------------------- errors

  /** `normalizeError(e)`, keeping JavaScript truthiness. */
  function NormalizeError(e: ErrorValue): (r: string)
    ensures !Truthy(e) ==> r == UnknownError
    ensures e.StringError? && e.s != "" ==> r == e.s
    ensures e.ObjectError? && BodyMessage(e.body).Text? ==> r == BodyMessage(e.body).text
    ensures e.ObjectError? && e.body.ArrayBody? ==> r == JsStrings.Join(EntryMessages(e.body.entries), ", ")
    ensures e.ObjectError? && !BodyMessage(e.body).Text? && !e.body.ArrayBody? ==>
      r == if e.message.Some? && e.message.value != "" then e.message.value else UnknownError
  {
    if !Truthy(e) then UnknownError
    else if e.StringError? then e.s
    else if BodyTruthy(e.body) && BodyMessage(e.body).Text? then BodyMessage(e.body).text
    else if BodyTruthy(e.body) && e.body.ArrayBody? then JsStrings.Join(EntryMessages(e.body.entries), ", ")
    else if e.message.Some? && e.message.value != "" then e.message.value
    else UnknownError
  }

  /**
   * The only errors shown with an empty message: a body whose `message` is
   * the empty string, and an array body of at most one entry whose message
   * is missing or empty (an empty array is truthy and joins to "").
   */
  lemma NormalizeErrorEmptyIff(e: ErrorValue)
    ensures NormalizeError(e) == "" <==>
      e.ObjectError? &&
      (BodyMessage(e.body) == Text("") ||
       (e.body.ArrayBody? && |e.body.entries| <= 1 &&
        forall i :: 0 <= i < |e.body.entries| ==> EntryText(e.body.entries[i]) == ""))
  {
    if e.ObjectError? && e.body.ArrayBody? {
      JsStrings.JoinEmptyIff(EntryMessages(e.body.entries), ", ");
    }
  }

  /**
   * Sample values, including the places where JavaScript truthiness shows:
   * an empty string is falsy, an empty array body is truthy and joins to
   * "", an entry without a message joins as "", and a body whose message is
   * not a string falls through to the error's own message.
   */
  lemma NormalizeErrorExamples()
    ensures NormalizeError(Falsy) == "Unknown error"
    ensures NormalizeError(StringError("")) == "Unknown error"
    ensures NormalizeError(StringError("boom")) == "boom"
    ensures NormalizeError(ObjectError(ObjectBody(Text("X")), Some("Y"))) == "X"
    ensures NormalizeError(ObjectError(ArrayBody([BodyEntry(Some("A")), BodyEntry(Some("B"))]), None)) == "A, B"
    ensures NormalizeError(ObjectError(ArrayBody([BodyEntry(Some("A")), BodyEntry(None)]), None)) == "A, "
    ensures NormalizeError(ObjectError(ArrayBody([]), Some("Y"))) == ""
    ensures NormalizeError(ObjectError(ObjectBody(NonText), Some("Y"))) == "Y"
    ensures NormalizeError(ObjectError(PrimitiveBody(true), Some("Y"))) == "Y"
    ensures NormalizeError(ObjectError(NoBody, Some("Y"))) == "Y"
    ensures NormalizeError(ObjectError(NoBody, Some(""))) == "Unknown error"
    ensures NormalizeError(ObjectError(NoBody, None)) == "Unknown error"
  {
  }

  // ---------------------------------------------------------------- effects of the handlers

  function FailureToast(e: ErrorValue): Effect {
    Toast(FailureTitle, NormalizeError(e), "error")
  }

  /** `handleModalSuccess(message)`: one success toast, then one refresh. */
  function ModalSuccessEffects(message: Option<string>): (r: seq<Effect>)
    ensures |r| == 2 && r[1] == Refresh
    ensures r[0].Toast? && r[0].title == SuccessTitle && r[0].variant == "success"
    ensures r[0].message == if message.Some? && message.value != "" then message.value else "Saved"
    ensures r[0].message != ""
    ensures AlwaysAfter(r, r[0], Refresh)
  {
    var text := if message.Some? && message.value != "" then message.value else "Saved";
    var r := [Toast(SuccessTitle, text, "success"), Refresh];
    assert r[..1] == [r[0]];
    r
  }

  /** Exactly one toast and one refresh, and no remote call. */
  lemma ModalSuccessCounts(message: Option<string>)
    ensures Count(ModalSuccessEffects(message), ToastKind) == 1
    ensures Count(ModalSuccessEffects(message), RefreshKind) == 1
    ensures Count(ModalSuccessEffects(message), RemoteCallKind) == 0
  {
    var r := ModalSuccessEffects(message);
    assert r == [r[0]] + ([Refresh] + []);
    CountCons(Refresh, []);
    CountCons(r[0], [Refresh] + []);
  }

  /**
   * The trace of a remote action followed by the shared post-action
   * protocol: on success a toast and a refresh (and a failure toast if the
   * refresh itself rejects); on failure one failure toast and no refresh.
   */
  function ActionEffects(call: Effect, done: string, called: Outcome, refreshed: Outcome): (r: seq<Effect>)
    requires KindOf(call) == RemoteCallKind
    ensures |r| >= 2 && r[0] == call
    ensures called.Err? ==> r == [call, FailureToast(called.error)]
    ensures called.Ok? ==> |r| >= 3 && r[1] == Toast(SuccessTitle, done, "success") && r[2] == Refresh
    ensures called.Ok? && refreshed.Err? ==> r[3..] == [FailureToast(refreshed.error)]
    ensures called.Ok? && refreshed.Ok? ==> |r| == 3
    ensures Refresh in r <==> called.Ok?
    ensures AlwaysAfter(r, Toast(SuccessTitle, done, "success"), Refresh)
  {
    match called
    case Err(e) => [call, FailureToast(e)]
    case Ok =>
      var r := [call, Toast(SuccessTitle, done, "success"), Refresh] +
        (if refreshed.Err? then [FailureToast(refreshed.error)] else []);
      assert r[1] in r[..2];
      r
  }

  /**
   * Counting the protocol: one remote call; one refresh exactly when the
   * call succeeded; two toasts only when the call succeeded and the
   * refresh then failed, one otherwise.
   */
  lemma ActionEffectsCounts(call: Effect, done: string, called: Outcome, refreshed: Outcome)
    requires KindOf(call) == RemoteCallKind
    ensures Count(ActionEffects(call, done, called, refreshed), RemoteCallKind) == 1
    ensures Count(ActionEffects(call, done, called, refreshed), RefreshKind) == if called.Ok? then 1 else 0
    ensures Count(ActionEffects(call, done, called, refreshed), ToastKind) ==
      if called.Ok? && refreshed.Err? then 2 else 1
  {
    var r := ActionEffects(call, done, called, refreshed);
    var tail := r[1..];
    assert r == [call] + tail;
    CountCons(call, tail);
    if called.Err? {
      assert tail == [tail[0]] + [];
      CountCons(tail[0], []);
    } else {
      var rest := if refreshed.Err? then [FailureToast(refreshed.error)] else [];
      if refreshed.Err? {
        CountCons(rest[0], []);
        assert rest == [rest[0]] + [];
      }
      CountCons(Refresh, rest);
      CountCons(tail[0], [Refresh] + rest);
      assert tail == [tail[0]] + ([Refresh] + rest);
    }
  }

  // ---------------------------------------------------------------- the component

  class Panel {
    var recordId: string           // @api: the record page may reassign it
    var isModalOpen: bool
    var modalMode: string
    var effects: seq<Effect>

    constructor (recordId: string)
      ensures this.recordId == recordId
      ensures !isModalOpen && modalMode == UpdateMode && effects == []
    {
      this.recordId := recordId;
      isModalOpen := false;
      modalMode := UpdateMode;
      effects := [];
    }

    /** The record page assigns `recordId`: the modal state and the trace are kept. */
    method SetRecordId(id: string)
      modifies this
      ensures recordId == id
      ensures isModalOpen == old(isModalOpen) && modalMode == old(modalMode) && effects == old(effects)
    {
      recordId := id;
    }

    method OpenAddUpdate()
      modifies this
      ensures recordId == old(recordId)
      ensures isModalOpen && modalMode == UpdateMode
      ensures effects == old(effects)
    {
      modalMode := UpdateMode;
      isModalOpen := true;
    }

    method OpenEscalate()
      modifies this
      ensures recordId == old(recordId)
      ensures isModalOpen && modalMode == EscalateMode
      ensures effects == old(effects)
    {
      modalMode := EscalateMode;
      isModalOpen := true;
    }

    method CloseModal()
      modifies this
      ensures recordId == old(recordId)
      ensures !isModalOpen && modalMode == old(modalMode)
      ensures effects == old(effects)
    {
      isModalOpen := false;
    }

    method HandleModalSuccess(message: Option<string>)
      modifies this
      ensures recordId == old(recordId)
      ensures !isModalOpen && modalMode == old(modalMode)
      ensures effects == old(effects) + ModalSuccessEffects(message)
    {
      isModalOpen := false;
      var text := if message.Some? && message.value != "" then message.value else "Saved";
      effects := effects + [Toast(SuccessTitle, text, "success")];
      effects := effects + [Refresh];
    }

    method HandleMarkReviewed(called: Outcome, refreshed: Outcome)
      modifies this
      ensures recordId == old(recordId)
      ensures isModalOpen == old(isModalOpen) && modalMode == old(modalMode)
      ensures effects == old(effects) + ActionEffects(MarkReviewedCall(recordId), "Marked as reviewed", called, refreshed)
    {
      effects := effects + [MarkReviewedCall(recordId)];
      match called {
        case Ok =>
          effects := effects + [Toast(SuccessTitle, "Marked as reviewed", "success")];
          effects := effects + [Refresh];
          if refreshed.Err? {
            effects := effects + [Toast(FailureTitle, NormalizeError(refreshed.error), "error")];
          }
        case Err(e) =>
          effects := effects + [Toast(FailureTitle, NormalizeError(e), "error")];
      }
    }

    method HandleEscalateSubmit(reason: string, called: Outcome, refreshed: Outcome)
      modifies this
      ensures recordId == old(recordId)
      ensures isModalOpen == (old(isModalOpen) && called.Err?) && modalMode == old(modalMode)
      ensures effects == old(effects) + ActionEffects(EscalateCaseCall(recordId, reason), "Case escalated", called, refreshed)
    {
      effects := effects + [EscalateCaseCall(recordId, reason)];
      match called {
        case Ok =>
          isModalOpen := false;
          effects := effects + [Toast(SuccessTitle, "Case escalated", "success")];
          effects := effects + [Refresh];
          if refreshed.Err? {
            effects := effects + [Toast(FailureTitle, NormalizeError(refreshed.error), "error")];
          }
        case Err(e) =>
          effects := effects + [Toast(FailureTitle, NormalizeError(e), "error")];
      }
    }
  }
}
