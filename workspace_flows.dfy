/**
 * The two components together: the panel opens a fresh modal in a mode,
 * the user fills it in, the modal saves, and the event it dispatches is
 * handed to the panel's handler. Also: the two copies of `normalizeError`
 * are the same function.
 */
module WorkspaceFlows {
  import opened Maybe
  import opened ErrorValues
  import opened Effects
  import Panel = CaseWorkspacePanel
  import Modal = CaseWorkspaceUpdateModal
  import JsStrings

  /** The panel and the modal surface every failure with the same message. */
  lemma NormalizeErrorAgrees(e: ErrorValue)
    ensures Panel.NormalizeError(e) == Modal.NormalizeError(e)
  {
  }

  /**
   * Add an update: open in update mode, choose "Note", type a padded
   * summary, save. The create call carries the trimmed summary, empty
   * details and an unticked checkbox; on success the panel closes the modal,
   * toasts the modal's message and refreshes; on failure the modal toasts
   * and the panel stays open and silent.
   */
  method UpdateSession(caseId: string, created: Outcome)
    returns (modalEffects: seq<Effect>, panelEffects: seq<Effect>, modalOpen: bool)
    ensures |modalEffects| == 2
    ensures modalEffects[0] == CreateCaseUpdateCall(CreateArgs(caseId, "Note", "checked in", "", false))
    ensures created.Ok? ==> modalEffects == [modalEffects[0], SuccessSignal("Update added")]
    ensures created.Err? ==> modalEffects == [modalEffects[0], Toast("Action Failed", Modal.NormalizeError(created.error), "error")]
    ensures created.Ok? ==> !modalOpen && panelEffects == [Toast("Success", "Update added", "success"), Refresh]
    ensures created.Err? ==> modalOpen && panelEffects == []
  {
    var panel := new Panel.Panel(caseId);
    panel.OpenAddUpdate();
    var modal := new Modal.UpdateModal(caseId, Some(panel.modalMode));
    modal.HandleChange(Modal.ChangeTarget(Modal.UpdateTypeField, "combobox", "Note", false));
    modal.HandleChange(Modal.ChangeTarget(Modal.SummaryField, "text", " checked in\n", false));
    assert modal.CurrentForm() == Modal.Form("Note", " checked in\n", "", false, "");
    assert JsStrings.Trim(" checked in\n") == "checked in";
    modal.HandleSave(created);
    var last := modal.effects[|modal.effects| - 1];
    if last.SuccessSignal? {
      panel.HandleModalSuccess(Some(last.detail));
    }
    modalEffects, panelEffects, modalOpen := modal.effects, panel.effects, panel.isModalOpen;
  }

  /**
   * Escalate: open in escalate mode, type a reason, save. The modal only
   * dispatches the reason (no call, no toast, no close); the panel makes
   * the escalation call and follows the post-action protocol, closing the
   * modal only when the call succeeded.
   */
  method EscalateSession(caseId: string, reason: string, called: Outcome, refreshed: Outcome)
    returns (modalEffects: seq<Effect>, panelEffects: seq<Effect>, modalOpen: bool)
    ensures modalEffects == [EscalateSubmitSignal(reason)]
    ensures panelEffects == Panel.ActionEffects(EscalateCaseCall(caseId, reason), "Case escalated", called, refreshed)
    ensures modalOpen <==> called.Err?
  {
    var panel := new Panel.Panel(caseId);
    panel.OpenEscalate();
    var modal := new Modal.UpdateModal(caseId, Some(panel.modalMode));
    modal.HandleChange(Modal.ChangeTarget(Modal.ReasonField, "textarea", reason, false));
    modal.HandleSave(Ok);
    var signal := modal.effects[0];
    panel.HandleEscalateSubmit(signal.reason, called, refreshed);
    modalEffects, panelEffects, modalOpen := modal.effects, panel.effects, panel.isModalOpen;
  }

  /**
   * Switching mode under a live modal: the user types a summary in update
   * mode, then the panel opens the escalation, which reassigns the open
   * modal's `mode`. The typed summary survives the switch, but saving now
   * takes the escalation path with the (still empty) reason and makes no
   * create call.
   */
  method SwitchModeSession(caseId: string, summary: string)
    returns (modalEffects: seq<Effect>, keptSummary: string, modalOpen: bool)
    ensures modalEffects == [EscalateSubmitSignal("")]
    ensures keptSummary == summary
    ensures modalOpen
  {
    var panel := new Panel.Panel(caseId);
    panel.OpenAddUpdate();
    var modal := new Modal.UpdateModal(caseId, Some(panel.modalMode));
    modal.HandleChange(Modal.ChangeTarget(Modal.SummaryField, "text", summary, false));
    panel.OpenEscalate();
    modal.SetMode(Some(panel.modalMode));
    modal.HandleSave(Ok);
    modalEffects, keptSummary, modalOpen := modal.effects, modal.summary, panel.isModalOpen;
  }
}
