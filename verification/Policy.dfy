/** The deterministic policy gate between the detective's proposal and any financial action. */
module Policy {
  import opened Domain

  const CONFIDENCE_FLOOR: real := 0.85
  const REFUND_CAP: Decimal := 1000.0

  datatype Rule =
    | State | VerifiedEvidence | EconomicIdentity | DuplicateProtection
    | ConfidenceGuardrail | AutonomyCap | BoundedAction | AllPassed

  datatype Ruling = Ruling(decision: DecisionType, rule: Rule)

  /** The part of the intent that the gate reads. */
  datatype IntentView = IntentView(
    state: PaymentState,
    amount: Decimal,
    currency: string,
    hasExistingCapture: bool)

  predicate IsOrdinary(s: PaymentState) {
    s in {Uncertain, Verifying, PendingRail, PaymentState.Authorized}
  }

  predicate IsResolvable(s: PaymentState) {
    IsOrdinary(s) || s == DuplicateSuspected
  }

  function AllowedActionsFor(state: PaymentState, status: ExternalStatus): set<ActionType> {
    if IsOrdinary(state) && status in {Success, ExternalStatus.Captured} then {ActionType.Capture, NoAction}
    else if IsOrdinary(state) && status == ExternalStatus.Authorized then {ActionType.Capture, NoAction}
    else if IsOrdinary(state) && status == ExternalStatus.Failed then {Reroute, NoAction}
    else if IsOrdinary(state) && status in {Voided, Refunded} then {Reroute, NoAction}
    else if state == DuplicateSuspected && status in {Success, ExternalStatus.Captured, Duplicate}
    then {ActionType.Void, ActionType.Refund}
    else {ActionType.ManualReview, NoAction}
  }

  /** The rules, in the order in which they are tried. */
  function Evaluate(intent: IntentView, neg: NegotiatorResult, det: DetectiveResult): Ruling {
    if !IsResolvable(intent.state) then
      Ruling(Reject, State)
    else if neg.status == ExternalStatus.Unknown then
      Ruling(Reject, VerifiedEvidence)
    else if neg.amount != intent.amount || neg.currency != intent.currency then
      Ruling(Reject, EconomicIdentity)
    else if intent.hasExistingCapture && intent.state != DuplicateSuspected
            && det.action !in {ActionType.Refund, ActionType.Void} then
      Ruling(Reject, DuplicateProtection)
    else if det.confidence < CONFIDENCE_FLOOR then
      Ruling(DecisionType.ManualReview, ConfidenceGuardrail)
    else if det.action == ActionType.Refund && intent.amount > REFUND_CAP then
      Ruling(DecisionType.ManualReview, AutonomyCap)
    else if det.action !in AllowedActionsFor(intent.state, neg.status) then
      Ruling(Reject, BoundedAction)
    else
      Ruling(Approve, AllPassed)
  }

  predicate Approves(intent: IntentView, neg: NegotiatorResult, det: DetectiveResult) {
    Evaluate(intent, neg, det).decision == Approve
  }

  /** The evidence is about this very payment. */
  predicate SameMoney(intent: IntentView, neg: NegotiatorResult) {
    neg.amount == intent.amount && neg.currency == intent.currency
  }

  /** A capture is approved exactly on positive evidence about an ordinary, uncaptured intent: Rules
      4 and 5 together leave no state in which a second capture is approved. */
  lemma CaptureApprovedExactlyWhen(intent: IntentView, neg: NegotiatorResult, det: DetectiveResult)
    requires det.action == ActionType.Capture
    ensures Approves(intent, neg, det) <==>
      && !intent.hasExistingCapture
      && intent.state in {Uncertain, Verifying, PendingRail, PaymentState.Authorized}
      && neg.status in {Success, ExternalStatus.Captured, ExternalStatus.Authorized}
      && SameMoney(intent, neg)
      && det.confidence >= 0.85
  {
  }

  /** Money is sent back only out of DUPLICATE_SUSPECTED, on evidence of a payment, and refunds only
      up to the cap; an existing capture makes no difference. */
  lemma MoneyBackApprovedExactlyWhen(intent: IntentView, neg: NegotiatorResult, det: DetectiveResult)
    requires det.action == ActionType.Refund || det.action == ActionType.Void
    ensures Approves(intent, neg, det) <==>
      && intent.state == DuplicateSuspected
      && neg.status in {Success, ExternalStatus.Captured, Duplicate}
      && SameMoney(intent, neg)
      && det.confidence >= 0.85
      && (det.action == ActionType.Refund ==> intent.amount <= 1000.0)
  {
  }

  /** The remaining proposals.  VERIFY is never approved; the three that move no money are approved
      on definitive evidence about the same money, within their row of the table. */
  lemma OtherActionApprovedExactlyWhen(intent: IntentView, neg: NegotiatorResult, det: DetectiveResult)
    requires det.action !in {ActionType.Capture, ActionType.Refund, ActionType.Void}
    ensures Approves(intent, neg, det) <==>
      && intent.state in {Uncertain, Verifying, PendingRail, PaymentState.Authorized, DuplicateSuspected}
      && neg.status != ExternalStatus.Unknown
      && SameMoney(intent, neg)
      && det.confidence >= 0.85
      && (intent.hasExistingCapture ==> intent.state == DuplicateSuspected)
      && match det.action {
           case Reroute => intent.state != DuplicateSuspected && neg.status in {ExternalStatus.Failed, Voided, Refunded}
           case ManualReview =>
             if intent.state != DuplicateSuspected then neg.status == Duplicate
             else neg.status in {ExternalStatus.Authorized, ExternalStatus.Failed, Voided, Refunded}
           case NoAction =>
             intent.state != DuplicateSuspected
             || neg.status in {ExternalStatus.Authorized, ExternalStatus.Failed, Voided, Refunded}
           case _ => false
         }
  {
  }

  /** A human is asked exactly when the first four rules pass and the confidence is too low or a refund
      too large; every other proposal is approved or refused outright. */
  lemma EscalatedExactlyWhen(intent: IntentView, neg: NegotiatorResult, det: DetectiveResult)
    ensures Evaluate(intent, neg, det).decision == DecisionType.ManualReview <==>
      && intent.state in {Uncertain, Verifying, PendingRail, PaymentState.Authorized, DuplicateSuspected}
      && neg.status != ExternalStatus.Unknown
      && SameMoney(intent, neg)
      && (intent.hasExistingCapture ==>
            intent.state == DuplicateSuspected || det.action in {ActionType.Refund, ActionType.Void})
      && (det.confidence < 0.85 || (det.action == ActionType.Refund && intent.amount > 1000.0))
  {
  }

  /** The rule that a ruling names is the first one that speaks against the proposal. */
  lemma FirstRuleIsNamed(intent: IntentView, neg: NegotiatorResult, det: DetectiveResult)
    ensures var rule := Evaluate(intent, neg, det).rule;
      var state := intent.state in {Uncertain, Verifying, PendingRail, PaymentState.Authorized, DuplicateSuspected};
      var verified := state && neg.status != ExternalStatus.Unknown;
      var identical := verified && SameMoney(intent, neg);
      var single := identical && (intent.hasExistingCapture ==>
        intent.state == DuplicateSuspected || det.action in {ActionType.Refund, ActionType.Void});
      var confident := single && det.confidence >= 0.85;
      var capped := confident && (det.action == ActionType.Refund ==> intent.amount <= 1000.0);
      && (rule == State <==> !state)
      && (rule == VerifiedEvidence <==> state && !verified)
      && (rule == EconomicIdentity <==> verified && !identical)
      && (rule == DuplicateProtection <==> identical && !single)
      && (rule == ConfidenceGuardrail <==> single && !confident)
      && (rule == AutonomyCap <==> confident && !capped)
      && (rule == BoundedAction <==> capped && !Approves(intent, neg, det))
      && (rule == AllPassed <==> Approves(intent, neg, det))
      && (Evaluate(intent, neg, det).decision == DecisionType.ManualReview <==> rule in {ConfidenceGuardrail, AutonomyCap})
  {
  }

  /** The detective's influence is bounded: once it proposes the same action, all that its confidence
      can decide is whether the guardrail fires, and the guardrail never yields an approval. */
  lemma ConfidenceOnlyWithholds(intent: IntentView, neg: NegotiatorResult, det: DetectiveResult, other: DetectiveResult)
    requires det.action == other.action && det.confidence <= other.confidence
    ensures Approves(intent, neg, det) ==> Evaluate(intent, neg, other) == Evaluate(intent, neg, det)
    ensures Evaluate(intent, neg, det) != Evaluate(intent, neg, other) ==>
      Evaluate(intent, neg, det) == Ruling(DecisionType.ManualReview, ConfidenceGuardrail)
  {
  }

  /** A prior capture never turns a refusal into an approval. */
  lemma ExistingCaptureOnlyRestricts(intent: IntentView, neg: NegotiatorResult, det: DetectiveResult)
    requires Approves(intent.(hasExistingCapture := true), neg, det)
    ensures Approves(intent.(hasExistingCapture := false), neg, det)
    ensures det.action != ActionType.Capture
  {
  }
}
