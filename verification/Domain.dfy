/** The vocabulary shared by every component: options, enumerations and the messages that the
    negotiator, the detective and the policy engine exchange. */
module Domain {

  datatype Option<+T> = None | Some(value: T)

  /** The 15 values that the intents table admits for `current_state`. */
  datatype PaymentState =
    | Created | PendingRail | Uncertain | Verifying | Authorized | Captured | Failed
    | DuplicateSuspected | ReconciliationRequired | ActionPending | ActionExecuting
    | ActionConfirmed | Unknown | ManualReview | Reconciled

  datatype ActionType = Capture | Refund | Void | Reroute | NoAction | ManualReview | Verify

  datatype DecisionType = Approve | Reject | ManualReview

  datatype ExternalStatus =
    | Success | Captured | Authorized | Failed | Unknown | Voided | Refunded | Duplicate

  /** Amounts are exact decimals; see Money for how they are rounded. */
  type Decimal = real

  /** What the negotiator learned from the provider. */
  datatype NegotiatorResult = NegotiatorResult(
    status: ExternalStatus,
    transactionId: Option<string>,
    amount: Decimal,
    currency: string)

  /** What the detective proposes.  Nothing is assumed about how it was obtained. */
  datatype DetectiveResult = DetectiveResult(action: ActionType, confidence: real)

  /** The scale of every exponential backoff. */
  function Pow2(n: nat): real {
    if n == 0 then 1.0 else 2.0 * Pow2(n - 1)
  }

  /** It doubles, starting from 1. */
  lemma PowersOfTwo()
    ensures Pow2(0) == 1.0 && Pow2(1) == 2.0 && Pow2(2) == 4.0 && Pow2(3) == 8.0 && Pow2(4) == 16.0 && Pow2(5) == 32.0
    ensures forall n: nat :: Pow2(n + 1) == 2.0 * Pow2(n)
  {
  }
}
