/** The payment state machine: a constant table with a fallback, folded over event sequences. */
module StateMachine {
  import opened Domain

  /** The event names that occur in the transition table.  `Other` stands for every other string,
      such as the resolver's "ACTION_CONFIRMED". */
  datatype Event =
    | Submit | PaymentAuthorized | PaymentCaptured | PaymentFailed | VerifiedFailed
    | RailAck | Timeout | RailReject | VerifiedSuccess | VerifiedAuthorized | UnknownStatus
    | CaptureInitiated | DuplicateDetected | UnknownResponse | Escalate | LateDuplicate
    | RefundInitiated | RefundCompleted | ActionStart | Execute | Confirm | Fail | Resolved
    | ReconcileSuccess | ReconcileFailed | OperatorReconcile | OperatorForceCapture
    | OperatorForceFailed | Other(name: string)

  predicate IsTerminal(s: PaymentState) {
    s in {PaymentState.Captured, PaymentState.Reconciled, PaymentState.ManualReview, PaymentState.Failed}
  }

  /** The explicit transitions. */
  function Table(s: PaymentState, e: Event): Option<PaymentState> {
    match (s, e)
    case (Created, Submit) => Some(PendingRail)
    case (Created, PaymentAuthorized) => Some(PaymentState.Authorized)
    case (Created, PaymentCaptured) => Some(PaymentState.Captured)
    case (Created, PaymentFailed) => Some(PaymentState.Failed)
    case (Created, VerifiedFailed) => Some(PaymentState.Failed)

    case (PendingRail, RailAck) => Some(Verifying)
    case (PendingRail, Timeout) => Some(Uncertain)
    case (PendingRail, RailReject) => Some(PaymentState.Failed)
    case (PendingRail, PaymentFailed) => Some(PaymentState.Failed)
    case (PendingRail, VerifiedFailed) => Some(PaymentState.Failed)

    case (Verifying, VerifiedSuccess) => Some(PaymentState.Captured)
    case (Verifying, VerifiedAuthorized) => Some(PaymentState.Authorized)
    case (Verifying, VerifiedFailed) => Some(PaymentState.Failed)
    case (Verifying, UnknownStatus) => Some(PaymentState.Unknown)

    case (Authorized, CaptureInitiated) => Some(ActionExecuting)
    case (Authorized, PaymentCaptured) => Some(PaymentState.Captured)
    case (Authorized, PaymentFailed) => Some(PaymentState.Failed)

    case (Uncertain, VerifiedSuccess) => Some(PaymentState.Captured)
    case (Uncertain, VerifiedAuthorized) => Some(PaymentState.Authorized)
    case (Uncertain, VerifiedFailed) => Some(PaymentState.Failed)
    case (Uncertain, DuplicateDetected) => Some(DuplicateSuspected)
    case (Uncertain, Timeout) => Some(Uncertain)
    case (Uncertain, UnknownResponse) => Some(PaymentState.Unknown)
    case (Uncertain, Escalate) => Some(PaymentState.ManualReview)

    case (Captured, LateDuplicate) => Some(DuplicateSuspected)
    case (Captured, RefundInitiated) => Some(ActionExecuting)
    case (Captured, RefundCompleted) => Some(Reconciled)

    case (DuplicateSuspected, ActionStart) => Some(ActionPending)
    case (DuplicateSuspected, Escalate) => Some(PaymentState.ManualReview)

    case (ActionPending, Execute) => Some(ActionExecuting)
    case (ActionPending, Escalate) => Some(PaymentState.ManualReview)

    case (ActionExecuting, Confirm) => Some(ActionConfirmed)
    case (ActionExecuting, Fail) => Some(ReconciliationRequired)
    case (ActionExecuting, Escalate) => Some(PaymentState.ManualReview)

    case (ActionConfirmed, Resolved) => Some(Reconciled)
    case (ActionConfirmed, Escalate) => Some(PaymentState.ManualReview)

    case (ReconciliationRequired, Escalate) => Some(PaymentState.ManualReview)
    case (ReconciliationRequired, ReconcileSuccess) => Some(PaymentState.Captured)
    case (ReconciliationRequired, ReconcileFailed) => Some(PaymentState.Failed)

    case (Unknown, Escalate) => Some(PaymentState.ManualReview)
    case (Unknown, VerifiedSuccess) => Some(PaymentState.Captured)
    case (Unknown, VerifiedFailed) => Some(PaymentState.Failed)
    case (Unknown, VerifiedAuthorized) => Some(PaymentState.Authorized)

    case (ManualReview, OperatorReconcile) => Some(Reconciled)
    case (ManualReview, OperatorForceCapture) => Some(PaymentState.Captured)
    case (ManualReview, OperatorForceFailed) => Some(PaymentState.Failed)

    case _ => None
  }

  /** The table read by events: the one state that an event leads to, ... */
  function Destination(e: Event): Option<PaymentState> {
    match e
    case Submit => Some(PendingRail)
    case RailAck => Some(Verifying)
    case Timeout => Some(Uncertain)
    case PaymentAuthorized => Some(PaymentState.Authorized)
    case VerifiedAuthorized => Some(PaymentState.Authorized)
    case UnknownStatus => Some(PaymentState.Unknown)
    case UnknownResponse => Some(PaymentState.Unknown)
    case DuplicateDetected => Some(DuplicateSuspected)
    case LateDuplicate => Some(DuplicateSuspected)
    case ActionStart => Some(ActionPending)
    case CaptureInitiated => Some(ActionExecuting)
    case RefundInitiated => Some(ActionExecuting)
    case Execute => Some(ActionExecuting)
    case Confirm => Some(ActionConfirmed)
    case Fail => Some(ReconciliationRequired)
    case Escalate => Some(PaymentState.ManualReview)
    case RefundCompleted => Some(Reconciled)
    case Resolved => Some(Reconciled)
    case OperatorReconcile => Some(Reconciled)
    case PaymentCaptured => Some(PaymentState.Captured)
    case VerifiedSuccess => Some(PaymentState.Captured)
    case ReconcileSuccess => Some(PaymentState.Captured)
    case OperatorForceCapture => Some(PaymentState.Captured)
    case PaymentFailed => Some(PaymentState.Failed)
    case VerifiedFailed => Some(PaymentState.Failed)
    case RailReject => Some(PaymentState.Failed)
    case ReconcileFailed => Some(PaymentState.Failed)
    case OperatorForceFailed => Some(PaymentState.Failed)
    case Other(_) => None
  }

  /** ... and the states in which it is expected. */
  function Sources(e: Event): set<PaymentState> {
    match e
    case Submit => {Created}
    case PaymentAuthorized => {Created}
    case PaymentCaptured => {Created, PaymentState.Authorized}
    case PaymentFailed => {Created, PendingRail, PaymentState.Authorized}
    case VerifiedFailed => {Created, PendingRail, Verifying, Uncertain, PaymentState.Unknown}
    case VerifiedSuccess => {Verifying, Uncertain, PaymentState.Unknown}
    case VerifiedAuthorized => {Verifying, Uncertain, PaymentState.Unknown}
    case RailAck => {PendingRail}
    case RailReject => {PendingRail}
    case Timeout => {PendingRail, Uncertain}
    case UnknownStatus => {Verifying}
    case UnknownResponse => {Uncertain}
    case DuplicateDetected => {Uncertain}
    case CaptureInitiated => {PaymentState.Authorized}
    case LateDuplicate => {PaymentState.Captured}
    case RefundInitiated => {PaymentState.Captured}
    case RefundCompleted => {PaymentState.Captured}
    case ActionStart => {DuplicateSuspected}
    case Execute => {ActionPending}
    case Confirm => {ActionExecuting}
    case Fail => {ActionExecuting}
    case Resolved => {ActionConfirmed}
    case ReconcileSuccess => {ReconciliationRequired}
    case ReconcileFailed => {ReconciliationRequired}
    case Escalate => {Uncertain, PaymentState.Unknown, DuplicateSuspected, ActionPending, ActionExecuting, ActionConfirmed,
                      ReconciliationRequired}
    case OperatorReconcile => {PaymentState.ManualReview}
    case OperatorForceCapture => {PaymentState.ManualReview}
    case OperatorForceFailed => {PaymentState.ManualReview}
    case Other(_) => {}
  }

  /** An event leads to one and the same state wherever it is expected; elsewhere it leads to manual review,
      but leaves CAPTURED, RECONCILED, MANUAL_REVIEW and FAILED alone. */
  lemma EventsHaveOneDestination(s: PaymentState, e: Event)
    ensures Table(s, e) == if s in Sources(e) then Destination(e) else None
    ensures Transition(s, e) ==
      if s in Sources(e) then Destination(e).value
      else if s in {PaymentState.Captured, Reconciled, PaymentState.ManualReview, PaymentState.Failed} then s
      else PaymentState.ManualReview
  {
  }

  /** A missing entry leaves a terminal state alone and sends any other state to manual review. */
  function Transition(s: PaymentState, e: Event): PaymentState {
    match Table(s, e)
    case Some(next) => next
    case None => if IsTerminal(s) then s else PaymentState.ManualReview
  }

  /** The state after a sequence of events. */
  function Fold(s: PaymentState, es: seq<Event>): PaymentState
    decreases |es|
  {
    if es == [] then s else Fold(Transition(s, es[0]), es[1..])
  }

  /** True if the run over `es` is in a terminal state at its start or after one of its events. */
  predicate VisitsTerminal(s: PaymentState, es: seq<Event>)
    decreases |es|
  {
    IsTerminal(s) || (es != [] && VisitsTerminal(Transition(s, es[0]), es[1..]))
  }

  /** A TIMEOUT taken while UNCERTAIN: the only event that keeps a non-terminal state. */
  predicate IsIdle(s: PaymentState, e: Event) {
    s == Uncertain && e == Timeout
  }

  /** The number of events of the run that are not idle. */
  function Progressing(s: PaymentState, es: seq<Event>): nat
    decreases |es|
  {
    if es == [] then 0
    else (if IsIdle(s, es[0]) then 0 else 1) + Progressing(Transition(s, es[0]), es[1..])
  }

  /** How many progressing events can still pass before a terminal state is reached. */
  function Rank(s: PaymentState): nat {
    match s
    case Created => 7
    case PendingRail => 6
    case Uncertain => 5
    case Verifying => 5
    case Unknown => 4
    case DuplicateSuspected => 4
    case Authorized => 3
    case ActionPending => 3
    case ActionExecuting => 2
    case ActionConfirmed => 1
    case ReconciliationRequired => 1
    case _ => 0
  }

  /** A non-terminal state is kept by an idle event, and lowered in rank by every other one. */
  lemma RankDecreases(s: PaymentState, e: Event)
    requires !IsTerminal(s)
    ensures IsIdle(s, e) ==> Transition(s, e) == s
    ensures !IsIdle(s, e) ==> Rank(Transition(s, e)) < Rank(s) <= 7
  {
  }

  /** Every event sequence with at least `Rank(s)`, at most 7, progressing events visits a terminal
      state, whatever the events are. */
  lemma {:induction false} TerminalWithinSeven(s: PaymentState, es: seq<Event>)
    requires Progressing(s, es) >= Rank(s)
    ensures VisitsTerminal(s, es)
    decreases |es|
  {
    if !IsTerminal(s) && es != [] {
      RankDecreases(s, es[0]);
      TerminalWithinSeven(Transition(s, es[0]), es[1..]);
    }
  }

  /** Extends, at the front, a run that makes `n` progressing events without reaching a terminal state. */
  lemma Prepend(s: PaymentState, e: Event, next: PaymentState, es: seq<Event>, n: nat) returns (longer: seq<Event>)
    requires !IsTerminal(s) && !IsIdle(s, e) && Transition(s, e) == next
    requires Progressing(next, es) == n && !VisitsTerminal(next, es)
    ensures longer == [e] + es
    ensures Progressing(s, longer) == n + 1 && !VisitsTerminal(s, longer)
  {
    longer := [e] + es;
    assert longer[1..] == es;
  }

  /** The run CREATED, PENDING_RAIL, VERIFYING, UNKNOWN, AUTHORIZED, ACTION_EXECUTING, ACTION_CONFIRMED. */
  lemma LongestPath()
    ensures Transition(Created, Submit) == PendingRail
    ensures Transition(PendingRail, RailAck) == Verifying
    ensures Transition(Verifying, UnknownStatus) == PaymentState.Unknown
    ensures Transition(PaymentState.Unknown, VerifiedAuthorized) == PaymentState.Authorized
    ensures Transition(PaymentState.Authorized, CaptureInitiated) == ActionExecuting
    ensures Transition(ActionExecuting, Confirm) == ActionConfirmed
  {
  }

  /** Its last three events. */
  lemma LongestTail() returns (es: seq<Event>)
    ensures Progressing(PaymentState.Unknown, es) == 3 && !VisitsTerminal(PaymentState.Unknown, es)
  {
    LongestPath();
    es := [];
    es := Prepend(ActionExecuting, Confirm, ActionConfirmed, es, 0);
    es := Prepend(PaymentState.Authorized, CaptureInitiated, ActionExecuting, es, 1);
    es := Prepend(PaymentState.Unknown, VerifiedAuthorized, PaymentState.Authorized, es, 2);
  }

  /** The bound is reached from CREATED: six progressing events do not suffice. */
  lemma SevenIsTight() returns (es: seq<Event>)
    ensures Progressing(Created, es) == 6 && !VisitsTerminal(Created, es)
  {
    LongestPath();
    es := LongestTail();
    es := Prepend(Verifying, UnknownStatus, PaymentState.Unknown, es, 3);
    es := Prepend(PendingRail, RailAck, Verifying, es, 4);
    es := Prepend(Created, Submit, PendingRail, es, 5);
  }

  /** FAILED and RECONCILED are never left. */
  lemma {:induction false} AbsorbingStates(s: PaymentState, es: seq<Event>)
    requires s == PaymentState.Failed || s == Reconciled
    ensures Fold(s, es) == s
    decreases |es|
  {
    if es != [] {
      AbsorbingStates(Transition(s, es[0]), es[1..]);
    }
  }

  predicate IsOperatorEvent(e: Event) {
    e in {OperatorReconcile, OperatorForceCapture, OperatorForceFailed}
  }

  /** MANUAL_REVIEW is held throughout a sequence exactly when no operator event occurs in it. */
  lemma {:induction false} ManualReviewNeedsOperator(es: seq<Event>)
    ensures (forall k | 0 <= k <= |es| :: Fold(PaymentState.ManualReview, es[..k]) == PaymentState.ManualReview)
       <==> (forall e | e in es :: !IsOperatorEvent(e))
    decreases |es|
  {
    if es != [] {
      var rest := es[1..];
      ManualReviewNeedsOperator(rest);
      assert forall x | x in es :: x == es[0] || x in rest;
      assert Fold(PaymentState.ManualReview, es[..1]) == Transition(PaymentState.ManualReview, es[0]) by {
        assert es[..1] == [es[0]];
        assert es[..1][1..] == [];
      }
      if !IsOperatorEvent(es[0]) {
        forall k | 0 < k <= |es|
          ensures Fold(PaymentState.ManualReview, es[..k]) == Fold(PaymentState.ManualReview, rest[..k - 1])
        {
          assert es[..k][1..] == rest[..k - 1];
        }
        forall k | 0 <= k <= |rest|
          ensures Fold(PaymentState.ManualReview, rest[..k]) == Fold(PaymentState.ManualReview, es[..k + 1])
        {
        }
      }
    }
  }

  /** The events that report a failure. */
  predicate IsFailureEvent(e: Event) {
    e in {PaymentFailed, VerifiedFailed, RailReject, ReconcileFailed, OperatorForceFailed}
  }

  /** A run enters FAILED only through an explicit failure event: never by a timeout, an unknown
      response or an unlisted event. */
  lemma {:induction false} FailedOnlyByFailureEvent(s: PaymentState, es: seq<Event>)
    requires s != PaymentState.Failed && Fold(s, es) == PaymentState.Failed
    ensures exists e :: e in es && IsFailureEvent(e)
    decreases |es|
  {
    var next := Transition(s, es[0]);
    if next == PaymentState.Failed {
      assert es[0] in es && IsFailureEvent(es[0]);
    } else {
      FailedOnlyByFailureEvent(next, es[1..]);
    }
  }

  /** The events that report a success. */
  predicate IsSuccessEvent(e: Event) {
    e in {PaymentCaptured, VerifiedSuccess, ReconcileSuccess, OperatorForceCapture}
  }

  /** Likewise a run enters CAPTURED only through an explicit success event. */
  lemma {:induction false} CapturedOnlyBySuccessEvent(s: PaymentState, es: seq<Event>)
    requires s != PaymentState.Captured && Fold(s, es) == PaymentState.Captured
    ensures exists e :: e in es && IsSuccessEvent(e)
    decreases |es|
  {
    var next := Transition(s, es[0]);
    if next == PaymentState.Captured {
      assert es[0] in es && IsSuccessEvent(es[0]);
    } else {
      CapturedOnlyBySuccessEvent(next, es[1..]);
    }
  }

  /** The verdicts that a payment provider or the resolver can give. */
  predicate IsVerdict(e: Event) {
    e in {PaymentCaptured, PaymentFailed, VerifiedSuccess, VerifiedFailed}
  }

  /** Of any sequence of verdicts only the first can change the state: late, repeated and
      contradicting verdicts are without effect. */
  lemma {:induction false} OnlyFirstVerdictCounts(s: PaymentState, es: seq<Event>)
    requires es != [] && forall e | e in es :: IsVerdict(e)
    ensures Fold(s, es) == Transition(s, es[0])
    decreases |es|
  {
    if |es| > 1 {
      var next := Transition(s, es[0]);
      assert es[1] in es && IsVerdict(es[1]);
      assert Transition(next, es[1]) == next by { VerdictsSettle(s, es[0], es[1]); }
      OnlyFirstVerdictCounts(next, es[1..]);
      assert es[1..][0] == es[1];
    }
  }

  /** A verdict leads to a terminal state that no further verdict changes. */
  lemma VerdictsSettle(s: PaymentState, e: Event, late: Event)
    requires IsVerdict(e) && IsVerdict(late)
    ensures IsTerminal(Transition(s, e))
    ensures Transition(Transition(s, e), late) == Transition(s, e)
  {
  }
}
