/**
 * What the components do to the outside world, recorded as a trace:
 * toasts, data refreshes, calls of the remote controller methods and the
 * custom events the modal dispatches to its parent. A remote call's
 * resolution is an `Outcome` supplied by the caller of a handler.
 */
module Effects {
  import opened ErrorValues

  /** How an awaited promise settled. */
  datatype Outcome = Ok | Err(error: ErrorValue)

  /** The argument object of `createCaseUpdate`. */
  datatype CreateArgs = CreateArgs(
    caseId: string,
    updateType: string,
    summary: string,
    details: string,
    visibleToCustomer: bool)

  datatype Effect =
    | Toast(title: string, message: string, variant: string)
    | Refresh                                    // refreshApex on the wired result
    | MarkReviewedCall(caseId: string)
    | EscalateCaseCall(caseId: string, reason: string)
    | CreateCaseUpdateCall(args: CreateArgs)
    | CloseSignal                                // the modal's `close` event
    | SuccessSignal(detail: string)              // the modal's `success` event
    | EscalateSubmitSignal(reason: string)       // the modal's `escalatesubmit` event

  datatype Kind = ToastKind | RefreshKind | RemoteCallKind | SignalKind

  function KindOf(e: Effect): Kind {
    match e
    case Toast(_, _, _) => ToastKind
    case Refresh => RefreshKind
    case MarkReviewedCall(_) => RemoteCallKind
    case EscalateCaseCall(_, _) => RemoteCallKind
    case CreateCaseUpdateCall(_) => RemoteCallKind
    case CloseSignal => SignalKind
    case SuccessSignal(_) => SignalKind
    case EscalateSubmitSignal(_) => SignalKind
  }

  /** How many effects of kind `k` the trace holds. */
  function Count(t: seq<Effect>, k: Kind): nat {
    if t == [] then 0 else (if KindOf(t[0]) == k then 1 else 0) + Count(t[1..], k)
  }

  /** Counting distributes over concatenation of traces. */
  lemma {:induction false} CountAppend(a: seq<Effect>, b: seq<Effect>, k: Kind)
    ensures Count(a + b, k) == Count(a, k) + Count(b, k)
  {
    if a == [] {
      assert a + b == b;
    } else {
      assert (a + b)[1..] == a[1..] + b;
      CountAppend(a[1..], b, k);
    }
  }

  /** The count of a trace with one more effect in front. */
  lemma CountCons(e: Effect, t: seq<Effect>)
    ensures forall k :: Count([e] + t, k) == (if KindOf(e) == k then 1 else 0) + Count(t, k)
  {
    assert ([e] + t)[1..] == t;
  }

  /** The count of a one-effect trace. */
  lemma CountOne(e: Effect)
    ensures forall k :: Count([e], k) == if KindOf(e) == k then 1 else 0
  {
    assert [e][1..] == [];
  }

  /** Every occurrence of `later` in `t` comes strictly after some occurrence of `earlier`. */
  predicate AlwaysAfter(t: seq<Effect>, earlier: Effect, later: Effect) {
    forall j :: 0 <= j < |t| && t[j] == later ==> earlier in t[..j]
  }
}
