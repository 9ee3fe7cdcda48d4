/**
 * The update modal (`caseWorkspaceUpdateModal.js`): its mode getters, the
 * form fields the generic change handler writes, and the save handler that
 * either hands an escalation reason to the panel or validates the update
 * form and calls `createCaseUpdate`.
 */
module CaseWorkspaceUpdateModal {
  import opened Maybe
  import opened ErrorValues
  import opened Effects
  import JsStrings

  const UpdateMode := "update"
  const EscalateMode := "escalate"
  const UnknownError := "Unknown error"
  const MissingInfoTitle := "Missing info"
  const FailureTitle := "Action Failed"
  const MissingTypeMessage := "Please select an update type."
  const MissingSummaryMessage := "Please enter a summary."
  const UpdateAdded := "Update added"

  // ---------------------------------------------------------------- mode getters

  /** `isUpdate` */
  function IsUpdate(mode: Option<string>): bool {
    mode == Some(UpdateMode)
  }

  /** `isEscalate` */
  function IsEscalate(mode: Option<string>): bool {
    mode == Some(EscalateMode)
  }

  /** `title`: the escalation heading exactly in escalate mode. */
  function Title(mode: Option<string>): (r: string)
    ensures r == "Escalate Case" || r == "Add Case Update"
    ensures r == "Escalate Case" <==> mode == Some(EscalateMode)
  {
    if IsEscalate(mode) then "Escalate Case" else "Add Case Update"
  }

  /**
   * The two mode flags never hold together, and a mode that is neither
   * (unset, or any other string) shows the update title.
   */
  lemma ModeGettersExclusive(mode: Option<string>)
    ensures !(IsUpdate(mode) && IsEscalate(mode))
    ensures !IsEscalate(mode) ==> Title(mode) == "Add Case Update"
    ensures mode.None? ==> !IsUpdate(mode) && !IsEscalate(mode)
  {
  }

  // ---------------------------------------------------------------- form fields

  /** One entry of the update type picker: its `label` (here `display`) and `value`. */
  datatype Choice = Choice(display: string, value: string)

  /** `updateTypeOptions`: five choices, each with its own value and none with an empty one. */
  function UpdateTypeOptions(): (r: seq<Choice>)
    ensures |r| == 5
    ensures forall i :: 0 <= i < |r| ==> r[i].value != "" && r[i].display != ""
    ensures forall i, j :: 0 <= i < j < |r| ==> r[i].value != r[j].value
  {
    [ Choice("Note", "Note"),
      Choice("Customer Contact", "CustomerContacted"),
      Choice("Internal Investigation", "InternalInvestigation"),
      Choice("Resolution", "Resolution"),
      Choice("Escalation", "Escalation") ]
  }

  /** The form fields `handleChange` may write, by their `name`. */
  datatype Field = UpdateTypeField | SummaryField | DetailsField | VisibleToCustomerField | ReasonField

  datatype FieldValue = TextValue(text: string) | FlagValue(flag: bool)

  datatype Form = Form(
    updateType: string,
    summary: string,
    details: string,
    visibleToCustomer: bool,
    reason: string)

  /** `this[name]` */
  function Get(f: Form, n: Field): FieldValue {
    match n
    case UpdateTypeField => TextValue(f.updateType)
    case SummaryField => TextValue(f.summary)
    case DetailsField => TextValue(f.details)
    case VisibleToCustomerField => FlagValue(f.visibleToCustomer)
    case ReasonField => TextValue(f.reason)
  }

  /** The checkbox field holds a flag, every other field a string. */
  predicate Fits(n: Field, v: FieldValue) {
    v.FlagValue? <==> n == VisibleToCustomerField
  }

  /** `this[name] = v`: the named field takes the value, every other field is untouched. */
  function Assign(f: Form, n: Field, v: FieldValue): (r: Form)
    requires Fits(n, v)
    ensures Get(r, n) == v
    ensures forall m :: m != n ==> Get(r, m) == Get(f, m)
  {
    match n
    case UpdateTypeField => f.(updateType := v.text)
    case SummaryField => f.(summary := v.text)
    case DetailsField => f.(details := v.text)
    case VisibleToCustomerField => f.(visibleToCustomer := v.flag)
    case ReasonField => f.(reason := v.text)
  }

  /** The `e.target` of a change event. */
  datatype ChangeTarget = ChangeTarget(name: Field, inputType: string, value: string, checked: bool)

  /** The template pairs the one checkbox with `visibleToCustomer`. */
  predicate WellTyped(t: ChangeTarget) {
    t.inputType == "checkbox" <==> t.name == VisibleToCustomerField
  }

  /** `checked` for a checkbox, `value` for any other input. */
  function ValueOf(t: ChangeTarget): (v: FieldValue)
    ensures v.FlagValue? <==> t.inputType == "checkbox"
    ensures t.inputType == "checkbox" ==> v.flag == t.checked
    ensures t.inputType != "checkbox" ==> v.text == t.value
    ensures WellTyped(t) ==> Fits(t.name, v)
  {
    if t.inputType == "checkbox" then FlagValue(t.checked) else TextValue(t.value)
  }

  // ---------------------------------------------------------------- errors

  /** `normalizeError(e)`: the same definition as the panel's. */
  function NormalizeError(e: ErrorValue): (r: string)
    ensures !Truthy(e) ==> r == UnknownError
    ensures e.StringError? && e.s != "" ==> r == e.s
    ensures e.ObjectError? && BodyMessage(e.body).Text? ==> r == BodyMessage(e.body).text
    ensures e.ObjectError? && e.body.ArrayBody? ==> r == JsStrings.Join(EntryMessages(e.body.entries), ", ")
    ensures e.ObjectError? && !BodyMessage(e.body).Text? && !e.body.ArrayBody? ==>
      r == if e.message.Some? && e.message.value != "" then e.message.value else UnknownError
  {
    if !Truthy(e) then UnknownError
    else if e.StringError? then e.s
    else if BodyTruthy(e.body) && BodyMessage(e.body).Text? then BodyMessage(e.body).text
    else if BodyTruthy(e.body) && e.body.ArrayBody? then JsStrings.Join(EntryMessages(e.body.entries), ", ")
    else if e.message.Some? && e.message.value != "" then e.message.value
    else UnknownError
  }

  // ---------------------------------------------------------------- save

  /** Where `handleSave` goes before it awaits anything. */
  datatype Submission =
    | EscalationRequested(reason: string)
    | Rejected(message: string)
    | Create(args: CreateArgs)

  /**
   * The decision of `handleSave`: escalate mode hands over the reason
   * unchecked; otherwise the update type gate runs first, then the summary
   * gate, and only a form passing both is sent, trimmed.
   */
  function Submit(recordId: string, mode: Option<string>, f: Form): (r: Submission)
    ensures r.EscalationRequested? <==> mode == Some(EscalateMode)
    ensures r.EscalationRequested? ==> r.reason == f.reason
    ensures r.Rejected? ==> r.message == if f.updateType == "" then MissingTypeMessage else MissingSummaryMessage
    ensures r.Create? <==>
      mode != Some(EscalateMode) && f.updateType != "" && !JsStrings.AllWhitespace(f.summary)
    ensures r.Create? ==>
      r.args == CreateArgs(recordId, f.updateType, JsStrings.Trim(f.summary), JsStrings.Trim(f.details), f.visibleToCustomer)
    ensures r.Create? ==> r.args.summary != ""
  {
    JsStrings.TrimEmptyIffBlank(f.summary);
    if IsEscalate(mode) then EscalationRequested(f.reason)
    else if f.updateType == "" then Rejected(MissingTypeMessage)
    else if f.summary == "" || JsStrings.Trim(f.summary) == "" then Rejected(MissingSummaryMessage)
    else Create(CreateArgs(recordId, f.updateType, JsStrings.Trim(f.summary), JsStrings.Trim(f.details), f.visibleToCustomer))
  }

  /** The effects up to the await: the escalation event, the validation toast, or the create call. */
  function SubmitEffects(s: Submission): seq<Effect> {
    match s
    case EscalationRequested(reason) => [EscalateSubmitSignal(reason)]
    case Rejected(message) => [Toast(MissingInfoTitle, message, "error")]
    case Create(args) => [CreateCaseUpdateCall(args)]
  }

  /** The effects after the create call settles. */
  function SettleEffects(created: Outcome): seq<Effect> {
    match created
    case Ok => [SuccessSignal(UpdateAdded)]
    case Err(e) => [Toast(FailureTitle, NormalizeError(e), "error")]
  }

  /** Everything one `handleSave` emits. */
  function SaveEffects(recordId: string, mode: Option<string>, f: Form, created: Outcome): (r: seq<Effect>)
    ensures mode == Some(EscalateMode) ==> r == [EscalateSubmitSignal(f.reason)]
    ensures mode != Some(EscalateMode) && f.updateType == "" ==>
      r == [Toast(MissingInfoTitle, MissingTypeMessage, "error")]
    ensures mode != Some(EscalateMode) && f.updateType != "" && JsStrings.AllWhitespace(f.summary) ==>
      r == [Toast(MissingInfoTitle, MissingSummaryMessage, "error")]
    ensures Submit(recordId, mode, f).Create? ==>
      |r| == 2 && r[0] == CreateCaseUpdateCall(Submit(recordId, mode, f).args) &&
      r[1] == if created.Ok? then SuccessSignal(UpdateAdded) else Toast(FailureTitle, NormalizeError(created.error), "error")
  {
    var s := Submit(recordId, mode, f);
    SubmitEffects(s) + if s.Create? then SettleEffects(created) else []
  }

  /**
   * Counting what one save emits: a create call only when both gates pass;
   * a toast on a failed gate or a failed call, and never otherwise; one
   * event (escalation or success) otherwise; never a refresh.
   */
  lemma SaveEffectsCounts(recordId: string, mode: Option<string>, f: Form, created: Outcome)
    ensures Count(SaveEffects(recordId, mode, f, created), RemoteCallKind) ==
      if Submit(recordId, mode, f).Create? then 1 else 0
    ensures Count(SaveEffects(recordId, mode, f, created), ToastKind) ==
      if mode == Some(EscalateMode) || (Submit(recordId, mode, f).Create? && created.Ok?) then 0 else 1
    ensures Count(SaveEffects(recordId, mode, f, created), SignalKind) ==
      if mode == Some(EscalateMode) || (Submit(recordId, mode, f).Create? && created.Ok?) then 1 else 0
    ensures Count(SaveEffects(recordId, mode, f, created), RefreshKind) == 0
  {
    var r := SaveEffects(recordId, mode, f, created);
    var sub := Submit(recordId, mode, f);
    CountOne(r[0]);
    if sub.Create? {
      CountOne(r[1]);
      CountCons(r[0], [r[1]]);
      assert r == [r[0]] + [r[1]];
    } else {
      assert r == [r[0]];
    }
  }

  // ---------------------------------------------------------------- the component

  class UpdateModal {
    var recordId: string           // @api: the parent may reassign it at any time
    var mode: Option<string>       // @api: likewise; read by the getters and at save time
    var isSaving: bool
    var updateType: string
    var summary: string
    var details: string
    var visibleToCustomer: bool
    var reason: string
    var effects: seq<Effect>

    function CurrentForm(): Form
      reads this
    {
      Form(updateType, summary, details, visibleToCustomer, reason)
    }

    constructor (recordId: string, mode: Option<string>)
      ensures this.recordId == recordId && this.mode == mode
      ensures !isSaving && CurrentForm() == Form("", "", "", false, "") && effects == []
    {
      this.recordId := recordId;
      this.mode := mode;
      isSaving := false;
      updateType := "";
      summary := "";
      details := "";
      visibleToCustomer := false;
      reason := "";
      effects := [];
    }

    /** The parent assigns `mode`: the typed form, `isSaving` and the trace are kept. */
    method SetMode(m: Option<string>)
      modifies this
      ensures mode == m && recordId == old(recordId)
      ensures CurrentForm() == old(CurrentForm()) && isSaving == old(isSaving) && effects == old(effects)
    {
      mode := m;
    }

    /** The parent assigns `recordId`: everything else is kept. */
    method SetRecordId(id: string)
      modifies this
      ensures recordId == id && mode == old(mode)
      ensures CurrentForm() == old(CurrentForm()) && isSaving == old(isSaving) && effects == old(effects)
    {
      recordId := id;
    }

    method Close()
      modifies this
      ensures recordId == old(recordId) && mode == old(mode)
      ensures effects == old(effects) + [CloseSignal]
      ensures CurrentForm() == old(CurrentForm()) && isSaving == old(isSaving)
    {
      effects := effects + [CloseSignal];
    }

    method HandleChange(target: ChangeTarget)
      requires WellTyped(target)
      modifies this
      ensures recordId == old(recordId) && mode == old(mode)
      ensures CurrentForm() == Assign(old(CurrentForm()), target.name, ValueOf(target))
      ensures isSaving == old(isSaving) && effects == old(effects)
    {
      SetField(target.name, ValueOf(target));
    }

    /** `this[name] = v` */
    method SetField(n: Field, v: FieldValue)
      requires Fits(n, v)
      modifies this
      ensures recordId == old(recordId) && mode == old(mode)
      ensures CurrentForm() == Assign(old(CurrentForm()), n, v)
      ensures isSaving == old(isSaving) && effects == old(effects)
    {
      match n {
        case UpdateTypeField => updateType := v.text;
        case SummaryField => summary := v.text;
        case DetailsField => details := v.text;
        case VisibleToCustomerField => visibleToCustomer := v.flag;
        case ReasonField => reason := v.text;
      }
    }

    method HandleSave(created: Outcome)
      modifies this
      ensures recordId == old(recordId) && mode == old(mode)
      ensures CurrentForm() == old(CurrentForm())
      ensures effects == old(effects) + SaveEffects(recordId, mode, old(CurrentForm()), created)
      ensures isSaving == if Submit(recordId, mode, old(CurrentForm())).Create? then false else old(isSaving)
    {
      var pending := BeginSave();
      if pending {
        SettleSave(created);
      }
    }

    /** `handleSave` up to `await createCaseUpdate(...)`: `isSaving` holds while the call is pending. */
    method BeginSave() returns (pending: bool)
      modifies this
      ensures recordId == old(recordId) && mode == old(mode)
      ensures CurrentForm() == old(CurrentForm())
      ensures pending <==> Submit(recordId, mode, CurrentForm()).Create?
      ensures effects == old(effects) + SubmitEffects(Submit(recordId, mode, CurrentForm()))
      ensures isSaving == (pending || old(isSaving))
    {
      JsStrings.TrimEmptyIffBlank(summary);
      if IsEscalate(mode) {
        effects := effects + [EscalateSubmitSignal(reason)];
        return false;
      }
      if updateType == "" {
        effects := effects + [Toast(MissingInfoTitle, MissingTypeMessage, "error")];
        return false;
      }
      if summary == "" || JsStrings.Trim(summary) == "" {
        effects := effects + [Toast(MissingInfoTitle, MissingSummaryMessage, "error")];
        return false;
      }
      isSaving := true;
      var args := CreateArgs(recordId, updateType, JsStrings.Trim(summary), JsStrings.Trim(details), visibleToCustomer);
      effects := effects + [CreateCaseUpdateCall(args)];
      pending := true;
    }

    /** The rest of `handleSave`: the success event or the failure toast, then the `finally`. */
    method SettleSave(created: Outcome)
      modifies this
      ensures recordId == old(recordId) && mode == old(mode)
      ensures !isSaving && CurrentForm() == old(CurrentForm())
      ensures effects == old(effects) + SettleEffects(created)
    {
      match created {
        case Ok =>
          effects := effects + [SuccessSignal(UpdateAdded)];
        case Err(e) =>
          effects := effects + [Toast(FailureTitle, NormalizeError(e), "error")];
      }
      isSaving := false;
    }
  }
}
