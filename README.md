# Case workspace panel and update modal, modelled in Dafny

Two Lightning Web Components of a Salesforce case-management app:

- the **case workspace panel** (`caseWorkspacePanel.js`) shows the wired workspace data of a case
  (case info, an optional context block, the recent updates and a priority badge), opens the update
  modal in `'update'` or `'escalate'` mode, marks the case reviewed, performs the escalation, and after
  every successful write shows a toast and refreshes the wired data;
- the **update modal** (`caseWorkspaceUpdateModal.js`) holds the form fields, writes them through one
  data-driven change handler, and on save either hands the escalation reason to the panel or validates
  the update form and calls `createCaseUpdate`.

The model keeps the two files' own split between pure and stateful code:

- `maybe.dfy`, `js_strings.dfy`, `error_values.dfy`, `effects.dfy`: the JavaScript semantics the
  components rely on. This covers `trim` over the exact ECMAScript whitespace set, `toLowerCase` on
  ASCII letters, and `Array.prototype.join`. It also covers the shapes of a thrown value with
  JavaScript truthiness. Last comes the trace of outside effects: toasts, refreshes, remote calls and
  the modal's custom events.
- `case_workspace_panel.dfy`: the getters and `normalizeError` as functions over a snapshot of
  `data`/`error`. The component is the class `Panel` with the fields `isModalOpen`, `modalMode` and
  the effect trace. The outcome of each awaited call is a parameter.
- `case_workspace_update_modal.dfy`: the mode getters, the form and `normalizeError` as functions. The
  class `UpdateModal` has the form fields, `isSaving` and the effect trace. `handleSave` is split at
  its `await` into `BeginSave` and `SettleSave`, so the model can state that `isSaving` holds while
  the create call is pending.
- `workspace_flows.dfy`: the two `normalizeError` copies agree, and two end-to-end sessions
  (add an update, escalate) run through both components.

Each handler's method is proved against a pure function of the trace it appends (`ActionEffects`,
`ModalSuccessEffects`, `SaveEffects`). The properties of the protocol are proved about those
functions: which calls, toasts, events and refreshes occur, how many, and in what order.

Where descriptions of the system and the code differ, the model follows the code:

- `isSaving` is not a duplicate-submit guard, because `handleSave` never reads it.
- The update type is any non-empty string, not one of the five picker values.
- The escalation reason is not validated.

## Model

| member | source | states |
|---|---|---|
| `CaseWorkspacePanel.IsLoading` | force-app/main/default/lwc/caseWorkspacePanel/caseWorkspacePanel.js:26-28 | loading iff neither data nor a truthy error has arrived; while loading the view shows no updates, no context and the "success" badge |
| `CaseWorkspacePanel.Updates` | force-app/main/default/lwc/caseWorkspacePanel/caseWorkspacePanel.js:38-40 | the updates are either empty or exactly the fetched `recentUpdates`, and are the fetched list whenever there is one |
| `CaseWorkspacePanel.HasContext` | force-app/main/default/lwc/caseWorkspacePanel/caseWorkspacePanel.js:42-44 | true iff data arrived and carries a context block |
| `CaseWorkspacePanel.HasUpdates` | force-app/main/default/lwc/caseWorkspacePanel/caseWorkspacePanel.js:46-48 | true iff data arrived with a non-empty `recentUpdates` list |
| `CaseWorkspacePanel.PriorityBadgeVariant` | force-app/main/default/lwc/caseWorkspacePanel/caseWorkspacePanel.js:50-55 | the badge is one of "error", "warning", "success" and nothing else; a missing or empty priority gives "success" |
| `CaseWorkspacePanel.PriorityBadgeVariantIgnoresCase` | force-app/main/default/lwc/caseWorkspacePanel/caseWorkspacePanel.js:50-55 | "error" iff the priority spells "high" in any letter case, "warning" iff it spells "medium", "success" iff neither |
| `CaseWorkspacePanel.NormalizeError` | force-app/main/default/lwc/caseWorkspacePanel/caseWorkspacePanel.js:103-112 | falsy input (including "") gives "Unknown error"; a string gives itself; a body with a string message gives it; an array body gives its entries' messages joined by ", "; anything else gives a non-empty `e.message` or "Unknown error" |
| `CaseWorkspacePanel.NormalizeErrorEmptyIff` | force-app/main/default/lwc/caseWorkspacePanel/caseWorkspacePanel.js:105-109 | the message is empty iff the body's message is "" or the body is an array of at most one entry whose message is missing or empty (so an empty array body gives "") |
| `CaseWorkspacePanel.NormalizeErrorExamples` | force-app/main/default/lwc/caseWorkspacePanel/caseWorkspacePanel.js:103-112 | sample results, among them "" for an empty array body, "A, " for an entry without a message, and the fall-through to `e.message` for a non-string body message |
| `CaseWorkspacePanel.ModalSuccessEffects` | force-app/main/default/lwc/caseWorkspacePanel/caseWorkspacePanel.js:71-75 | one success toast whose message is the supplied one, or "Saved" when that is missing or empty (so never empty), then one refresh strictly after it |
| `CaseWorkspacePanel.ModalSuccessCounts` | force-app/main/default/lwc/caseWorkspacePanel/caseWorkspacePanel.js:71-75 | exactly one toast, exactly one refresh, no remote call |
| `CaseWorkspacePanel.ActionEffects` | force-app/main/default/lwc/caseWorkspacePanel/caseWorkspacePanel.js:77-97 | the call comes first; a refresh occurs iff the call succeeded, and only after the success toast; a failed call is followed by exactly one "Action Failed" toast carrying the normalized error; a refresh that rejects adds exactly one failure toast, and when both succeed the trace ends at the refresh |
| `CaseWorkspacePanel.ActionEffectsCounts` | force-app/main/default/lwc/caseWorkspacePanel/caseWorkspacePanel.js:77-97 | one remote call; one refresh iff the call succeeded, none otherwise; two toasts only when the call succeeded and the refresh failed, one otherwise |
| `CaseWorkspacePanel.Panel.constructor` | force-app/main/default/lwc/caseWorkspacePanel/caseWorkspacePanel.js:9-12 | a new panel is closed, in update mode, with an empty trace |
| `CaseWorkspacePanel.Panel.SetRecordId` | force-app/main/default/lwc/caseWorkspacePanel/caseWorkspacePanel.js:9 | the `@api` `recordId` takes the assigned value; the modal state and the trace are kept |
| `CaseWorkspacePanel.Panel.OpenAddUpdate` | force-app/main/default/lwc/caseWorkspacePanel/caseWorkspacePanel.js:57-60 | whatever the prior state: open, mode "update", nothing emitted |
| `CaseWorkspacePanel.Panel.OpenEscalate` | force-app/main/default/lwc/caseWorkspacePanel/caseWorkspacePanel.js:62-65 | whatever the prior state: open, mode "escalate", nothing emitted |
| `CaseWorkspacePanel.Panel.CloseModal` | force-app/main/default/lwc/caseWorkspacePanel/caseWorkspacePanel.js:67-69 | closed, mode unchanged, nothing emitted |
| `CaseWorkspacePanel.Panel.HandleModalSuccess` | force-app/main/default/lwc/caseWorkspacePanel/caseWorkspacePanel.js:71-75 | closes the modal, keeps the mode, appends `ModalSuccessEffects` |
| `CaseWorkspacePanel.Panel.HandleMarkReviewed` | force-app/main/default/lwc/caseWorkspacePanel/caseWorkspacePanel.js:77-85 | never changes `isModalOpen` or `modalMode`; appends the mark-reviewed call and the post-action protocol with "Marked as reviewed" |
| `CaseWorkspacePanel.Panel.HandleEscalateSubmit` | force-app/main/default/lwc/caseWorkspacePanel/caseWorkspacePanel.js:87-97 | closes the modal iff the escalation call succeeded, otherwise leaves it as it was; appends the escalation call with the reason and the post-action protocol with "Case escalated" |
| `CaseWorkspaceUpdateModal.Title` | force-app/main/default/lwc/caseWorkspaceUpdateModal/caseWorkspaceUpdateModal.js:28-30 | "Escalate Case" iff the mode is "escalate", otherwise "Add Case Update" |
| `CaseWorkspaceUpdateModal.ModeGettersExclusive` | force-app/main/default/lwc/caseWorkspaceUpdateModal/caseWorkspaceUpdateModal.js:20-30 | `isUpdate` and `isEscalate` never both hold; an unset mode is neither and shows the update title |
| `CaseWorkspaceUpdateModal.UpdateTypeOptions` | force-app/main/default/lwc/caseWorkspaceUpdateModal/caseWorkspaceUpdateModal.js:32-40 | five choices with distinct, non-empty values and non-empty labels |
| `CaseWorkspaceUpdateModal.Assign` | force-app/main/default/lwc/caseWorkspaceUpdateModal/caseWorkspaceUpdateModal.js:48-49 | the named field takes the value and every other field keeps its old value |
| `CaseWorkspaceUpdateModal.ValueOf` | force-app/main/default/lwc/caseWorkspaceUpdateModal/caseWorkspaceUpdateModal.js:47-49 | a checkbox yields exactly its `checked` flag and any other input exactly its `value`; on a well-typed target the value fits the named field |
| `CaseWorkspaceUpdateModal.NormalizeError` | force-app/main/default/lwc/caseWorkspaceUpdateModal/caseWorkspaceUpdateModal.js:89-97 | the same five cases as the panel's `normalizeError` |
| `CaseWorkspaceUpdateModal.Submit` | force-app/main/default/lwc/caseWorkspaceUpdateModal/caseWorkspaceUpdateModal.js:52-75 | escalate mode hands over the reason, even an empty one; otherwise an empty update type is rejected first with "Please select an update type.", then a blank summary with "Please enter a summary."; a create call happens iff the mode is not "escalate", the type is non-empty and the summary is not all whitespace, with the record id, the unchanged type and checkbox, and the trimmed summary (non-empty) and details |
| `CaseWorkspaceUpdateModal.SaveEffects` | force-app/main/default/lwc/caseWorkspaceUpdateModal/caseWorkspaceUpdateModal.js:52-83 | escalate mode emits only the `escalatesubmit` event; a failed gate emits only its toast; otherwise the create call, then either the `success` event with "Update added" or one "Action Failed" toast with the normalized error |
| `CaseWorkspaceUpdateModal.SaveEffectsCounts` | force-app/main/default/lwc/caseWorkspaceUpdateModal/caseWorkspaceUpdateModal.js:52-83 | one create call iff both gates pass, none otherwise; no toast in escalate mode or on success, one otherwise; one event in escalate mode or on success, none otherwise; never a refresh |
| `CaseWorkspaceUpdateModal.UpdateModal.constructor` | force-app/main/default/lwc/caseWorkspaceUpdateModal/caseWorkspaceUpdateModal.js:6-18 | a new modal has its record id and mode, empty text fields, an unticked checkbox, `isSaving` false and an empty trace |
| `CaseWorkspaceUpdateModal.UpdateModal.SetMode` | force-app/main/default/lwc/caseWorkspaceUpdateModal/caseWorkspaceUpdateModal.js:7 | the `@api` `mode` takes the assigned value on a live modal; the typed form, `isSaving` and the trace are kept |
| `CaseWorkspaceUpdateModal.UpdateModal.SetRecordId` | force-app/main/default/lwc/caseWorkspaceUpdateModal/caseWorkspaceUpdateModal.js:6 | the `@api` `recordId` takes the assigned value; everything else is kept |
| `CaseWorkspaceUpdateModal.UpdateModal.Close` | force-app/main/default/lwc/caseWorkspaceUpdateModal/caseWorkspaceUpdateModal.js:42-44 | emits one `close` event and changes nothing else |
| `CaseWorkspaceUpdateModal.UpdateModal.HandleChange` | force-app/main/default/lwc/caseWorkspaceUpdateModal/caseWorkspaceUpdateModal.js:46-50 | the form becomes `Assign` of the old form with the target's field and value; `isSaving` and the trace are unchanged |
| `CaseWorkspaceUpdateModal.UpdateModal.SetField` | force-app/main/default/lwc/caseWorkspaceUpdateModal/caseWorkspaceUpdateModal.js:48-49 | writes exactly the named field, as `Assign` says |
| `CaseWorkspaceUpdateModal.UpdateModal.HandleSave` | force-app/main/default/lwc/caseWorkspaceUpdateModal/caseWorkspaceUpdateModal.js:52-83 | appends `SaveEffects` of the form; the form fields are unchanged on every path, failure included; `isSaving` is false after every path that made the create call and untouched on the others |
| `CaseWorkspaceUpdateModal.UpdateModal.BeginSave` | force-app/main/default/lwc/caseWorkspaceUpdateModal/caseWorkspaceUpdateModal.js:52-75 | a call is pending iff `Submit` decides on a create call, and then `isSaving` is true; it appends what `Submit` decides |
| `CaseWorkspaceUpdateModal.UpdateModal.SettleSave` | force-app/main/default/lwc/caseWorkspaceUpdateModal/caseWorkspaceUpdateModal.js:77-82 | appends the success event or the failure toast, then clears `isSaving`; fields unchanged |
| `WorkspaceFlows.NormalizeErrorAgrees` | force-app/main/default/lwc/caseWorkspaceUpdateModal/caseWorkspaceUpdateModal.js:89-97 | the modal's `normalizeError` equals the panel's on every input |
| `WorkspaceFlows.UpdateSession` | force-app/main/default/lwc/caseWorkspaceUpdateModal/caseWorkspaceUpdateModal.js:52-83 | open in update mode, pick "Note", type " checked in\n", save: the create call gets "checked in", empty details and an unticked checkbox; on success the panel closes, toasts "Update added" and refreshes; on failure the modal toasts and the panel stays open and silent |
| `WorkspaceFlows.SwitchModeSession` | force-app/main/default/lwc/caseWorkspacePanel/caseWorkspacePanel.js:57-65 | opening the escalation while the update modal is open reassigns its mode: the typed summary is kept, and saving dispatches the (empty) reason with no create call, leaving the panel open |
| `WorkspaceFlows.EscalateSession` | force-app/main/default/lwc/caseWorkspacePanel/caseWorkspacePanel.js:87-97 | open in escalate mode, type a reason, save: the modal only dispatches the reason; the panel calls the escalation with it, and the modal stays open iff the call failed |
| `JsStrings.TrimStartSpec` | force-app/main/default/lwc/caseWorkspaceUpdateModal/caseWorkspaceUpdateModal.js:62 | the leading trim keeps a suffix, removes only whitespace and stops at the first other character |
| `JsStrings.TrimEndSpec` | force-app/main/default/lwc/caseWorkspaceUpdateModal/caseWorkspaceUpdateModal.js:62 | the trailing trim keeps a prefix, removes only whitespace and stops at the last other character |
| `JsStrings.TrimSlice` | force-app/main/default/lwc/caseWorkspaceUpdateModal/caseWorkspaceUpdateModal.js:72-73 | `trim` returns a contiguous slice that neither starts nor ends with whitespace, and removes only whitespace around it |
| `JsStrings.TrimEmptyIffBlank` | force-app/main/default/lwc/caseWorkspaceUpdateModal/caseWorkspaceUpdateModal.js:62 | a string trims to "" iff it is all whitespace |
| `JsStrings.TrimIdempotent` | force-app/main/default/lwc/caseWorkspaceUpdateModal/caseWorkspaceUpdateModal.js:72-73 | trimming a trimmed string changes nothing |
| `JsStrings.LowerChar` | force-app/main/default/lwc/caseWorkspacePanel/caseWorkspacePanel.js:51 | an upper-case ASCII letter becomes its own lower-case letter (code point plus 32); every other character is kept |
| `JsStrings.ToLower` | force-app/main/default/lwc/caseWorkspacePanel/caseWorkspacePanel.js:51 | same length; each character is case-folded on its own |
| `JsStrings.ToLowerEqualsIff` | force-app/main/default/lwc/caseWorkspacePanel/caseWorkspacePanel.js:51-53 | lower-casing gives a lower-case word iff the input spells that word in any mix of cases |
| `JsStrings.ToLowerIdempotent` | force-app/main/default/lwc/caseWorkspacePanel/caseWorkspacePanel.js:51 | lower-casing twice is lower-casing once |
| `JsStrings.JoinSnoc` | force-app/main/default/lwc/caseWorkspacePanel/caseWorkspacePanel.js:109 | `join` appends each further element after one separator, left to right, as in section 23.1.3.18 of ECMAScript 2023 |
| `JsStrings.JoinLength` | force-app/main/default/lwc/caseWorkspacePanel/caseWorkspacePanel.js:109 | a join holds every part plus one separator between neighbours |
| `JsStrings.JoinEmptyIff` | force-app/main/default/lwc/caseWorkspacePanel/caseWorkspacePanel.js:109 | with ", " the join is empty iff there is no part or a single empty part |

## Left out

- The Apex methods `getWorkspaceData`, `markReviewed`, `escalateCase` and `createCaseUpdate` are remote calls. Each is recorded in the trace, and its settlement is a parameter (`Ok` or `Err` with the thrown value).
- The `@wire` subscription and its handler `wiredWorkspace` are not modelled, so assigning the panel a new `recordId` does not re-fetch the data, and neither is `refreshApex` beyond a trace entry. `data` and `error` are an input snapshot.
- `ShowToastEvent` and `CustomEvent` dispatch, and the decorators `@api`, `@track` and `@wire`, are reduced to trace entries and plain fields. The `toast` helper is inlined as a `Toast` entry.
- `formatDate` depends on `Intl.DateTimeFormat` and `Date` parsing, which are locale-dependent library behaviour.
- The getters `caseInfo` and `context` are modelled only as helpers of the getters that use them.
- Async interleaving is not modelled; each handler's awaited calls settle in order. The one exception is the `BeginSave`/`SettleSave` split, which shows `isSaving` during the call. So a create call that resolves after the modal was hidden is not modelled. Two overlapping saves are not modelled either, although the code does not prevent them.
- The HTML templates are not part of this model. This means three things:
  - `handleModalSuccess` is modelled with its parameter as the message string. If the template binds it directly as the `success` event handler, the parameter would be the event object, not its `detail`.
  - The end-to-end sessions assume the panel creates a fresh modal for each session and forwards the event's `detail`.
  - `handleChange` requires that the one checkbox input is `visibleToCustomer` (`WellTyped`).
- `UpdateModal.HandleChange`: only the five form fields can be named. Writing `this[name]` for any other name (for example `isSaving`), or a string into the checkbox field, is not modelled.
- `HandleModalSuccess`: the `refreshApex` promise is awaited outside any `try`, so its rejection is not caught. The model records the refresh and nothing after it.
- `NormalizeError`: an array body entry that is `null` or `undefined` makes `x.message` throw a `TypeError`, and that is not modelled. Neither are non-string entry messages (stringified by `join`) or a non-string `e.message` (returned as is by `||`). Entry and outer messages are strings or missing.
- `PriorityBadgeVariant`: `toLowerCase` is modelled on ASCII letters only, and a non-string priority (on which `toLowerCase` would throw) is not modelled.
- `trim` follows the WhiteSpace and LineTerminator sets of ECMAScript 2023 (sections 12.2 and 12.3), with Unicode 15's "Zs" category written out. Strings are sequences of code points, not UTF-16 code units.
