/** Amounts on their way through the components: from the provider's integer to the policy gate, the
    command and back to the provider. */
module EndToEnd {
  import opened Domain
  import opened Money
  import Negotiator
  import Policy
  import Executor
  import Reconciliation

  /** The command that an approved ruling is turned into: the intent's own amount, addressed to the
      payment that the evidence names or else to the intent's active payment. */
  function CommandFor(view: Policy.IntentView, neg: NegotiatorResult, activePayment: Option<string>,
                      det: DetectiveResult, key: string, now: real): Executor.Command
  {
    Executor.Command(Executor.Authorize(det.action, view.amount, view.currency, key, now),
                     TargetPayment(neg, activePayment), None)
  }

  function TargetPayment(neg: NegotiatorResult, activePayment: Option<string>): Option<string> {
    if neg.transactionId.Some? && neg.transactionId.value != "" then neg.transactionId else activePayment
  }

  function UnitsOf(call: Executor.ProviderCall): int {
    call.units
  }

  /** Money has moved by at most one call, only on approval, for exactly the sub-units of the evidence and
      to the payment that it names. */
  predicate MovesAsApproved(before: seq<Executor.ProviderCall>, after: seq<Executor.ProviderCall>,
                            view: Policy.IntentView, neg: NegotiatorResult, det: DetectiveResult)
  {
    after == before
    || (&& |after| == |before| + 1 && after[..|before|] == before
        && Policy.Approves(view, neg, det)
        && (AtMostTwoDecimals(neg.amount) ==> UnitsOf(after[|before|]) as real == neg.amount * 100.0)
        && (neg.transactionId.Some? && neg.transactionId.value != "" ==>
              after[|before|].paymentId == neg.transactionId.value))
  }

  /** The payment that the evidence names, or else the active one; the empty string if there is none. */
  function Target(named: Option<string>, active: Option<string>): string {
    if named.Some? && named.value != "" then named.value else if active.Some? then active.value else ""
  }

  /** The payment that was read: from the record, or from the rail's answer. */
  function NamedBy(reading: Negotiator.Reading): Option<string> {
    match reading
    case Found(info) => info.id
    case ReadError => None
    case Synthetic(_, id) => id
  }

  /** An approved action reaches the provider: it moves money, in time and in a currency that can be sent, and
      there is a payment to address. */
  predicate Calls(view: Policy.IntentView, target: string, action: ActionType, issued: real, env: Executor.Environment) {
    && action in {ActionType.Capture, ActionType.Refund, ActionType.Void}
    && Executor.IsTimely(action, view.amount, issued, env.now)
    && env.mode == Executor.Api && target != ""
    && (action == ActionType.Capture ==> view.currency == "" || Upper(view.currency) in {"INR", "USD", "EUR", "GBP"})
  }

  /** The call that it makes: a void is a refund of the whole amount. */
  function CallFor(view: Policy.IntentView, target: string, action: ActionType): Executor.ProviderCall {
    var units := TruncatedSubunits(view.amount);
    if action == ActionType.Capture
    then Executor.CaptureCall(target, units, if view.currency == "" then "INR" else Upper(view.currency))
    else Executor.RefundCall(target, units)
  }

  /** From evidence to action: rule, authorize, sign, execute. */
  method Dispatch(provider: Executor.Provider, view: Policy.IntentView, activePayment: Option<string>,
                  neg: NegotiatorResult, det: DetectiveResult, key: string,
                  mac: Executor.CommandBody -> string, issued: real, env: Executor.Environment)
      returns (ruling: Policy.Ruling, outcome: Option<Executor.Outcome>)
    modifies provider
    ensures ruling == Policy.Evaluate(view, neg, det)
    ensures outcome.Some? <==> ruling.decision == Approve
    ensures outcome.Some? ==>
      var c := CommandFor(view, neg, activePayment, det, key, issued);
      outcome.value == Executor.Perform(c, mac(c.body) != "", env)
    ensures MovesAsApproved(old(provider.calls), provider.calls, view, neg, det)
    // exactly when the provider is called, and with what
    ensures provider.calls != old(provider.calls) <==>
      && ruling.decision == Approve
      && Calls(view, Target(neg.transactionId, activePayment), det.action, issued, env)
      && mac(Executor.Authorize(det.action, view.amount, view.currency, key, issued)) != ""
    ensures provider.calls != old(provider.calls) ==>
      provider.calls == old(provider.calls) + [CallFor(view, Target(neg.transactionId, activePayment), det.action)]
  {
    ruling := Policy.Evaluate(view, neg, det);
    outcome := None;
    if ruling.decision == Approve {
      var unsigned := CommandFor(view, neg, activePayment, det, key, issued);
      var command := unsigned.(signature := Some(mac(unsigned.body)));
      Executor.OwnSignatureIsAuthentic(unsigned.body, unsigned.paymentId, mac);
      Executor.SignatureDoesNotMatter(unsigned, command.signature, mac(unsigned.body) != "", env);
      if AtMostTwoDecimals(view.amount) {
        FloorUnique(view.amount * 100.0, (view.amount * 100.0).Floor);
      }
      var o := Executor.Execute(provider, command, mac, env);
      outcome := Some(o);
    }
  }

  /** Gather, then dispatch.  When the provider reported n > 0 minor units and money moves, the call is for
      exactly n: the division by 100, the equality of Rule 3 and the truncating multiplication by 100
      lose nothing. */
  method Act(provider: Executor.Provider, view: Policy.IntentView, activePayment: Option<string>,
             reading: Negotiator.Reading, det: DetectiveResult, key: string,
             mac: Executor.CommandBody -> string, issued: real, env: Executor.Environment)
      returns (ruling: Policy.Ruling, outcome: Option<Executor.Outcome>)
    modifies provider
    ensures ruling == Policy.Evaluate(view, Negotiator.Verify(view.amount, view.currency, reading), det)
    ensures outcome.Some? <==> ruling.decision == Approve
    ensures outcome.Some? && outcome.value.Finished? ==> outcome.value.result.action == det.action
    ensures provider.calls == old(provider.calls)
         || (&& |provider.calls| == |old(provider.calls)| + 1
             && provider.calls[..|old(provider.calls)|] == old(provider.calls)
             && ruling.decision == Approve
             && (reading.Found? && reading.info.amount.Some? && reading.info.amount.value > 0 ==>
                   UnitsOf(provider.calls[|old(provider.calls)|]) == reading.info.amount.value)
             && (reading.Found? && reading.info.id.Some? && reading.info.id.value != "" ==>
                   provider.calls[|old(provider.calls)|].paymentId == reading.info.id.value))
    // exactly when the provider is called, and with what
    ensures provider.calls != old(provider.calls) <==>
      && ruling.decision == Approve
      && Calls(view, Target(NamedBy(reading), activePayment), det.action, issued, env)
      && mac(Executor.Authorize(det.action, view.amount, view.currency, key, issued)) != ""
    ensures provider.calls != old(provider.calls) ==>
      provider.calls == old(provider.calls) + [CallFor(view, Target(NamedBy(reading), activePayment), det.action)]
  {
    var neg := Negotiator.Verify(view.amount, view.currency, reading);
    if reading.Found? && reading.info.amount.Some? && reading.info.amount.value > 0 {
      MinorUnitsAreTwoDecimals(reading.info.amount.value);
    }
    ruling, outcome := Dispatch(provider, view, activePayment, neg, det, key, mac, issued, env);
  }

  lemma MinorUnitsAreTwoDecimals(n: int)
    ensures AtMostTwoDecimals(n as real / 100.0) && n as real / 100.0 * 100.0 == n as real
  {
    assert n as real / 100.0 * 100.0 == n as real;
    FloorUnique(n as real, n);
  }

  /** The amount that an approval rests on is the provider's integer, and truncation recovers it. */
  lemma ApprovedUnits(view: Policy.IntentView, info: Negotiator.PaymentInfo, det: DetectiveResult)
    requires info.amount.Some? && info.amount.value > 0
    requires Policy.Approves(view, Negotiator.Verify(view.amount, view.currency, Negotiator.Found(info)), det)
    ensures TruncatedSubunits(view.amount) == info.amount.value
  {
    var n := info.amount.value;
    assert view.amount == n as real / 100.0;
    assert view.amount * 100.0 == n as real;
    FloorUnique(n as real, n);
  }

  /** The provider's record is about the intent's money; what it does not say is taken from the intent. */
  predicate MatchesRecord(view: Policy.IntentView, info: Negotiator.PaymentInfo) {
    && (info.amount.Some? && info.amount.value != 0 ==> info.amount.value as real == view.amount * 100.0)
    && (info.currency.Some? ==> info.currency.value == view.currency)
  }

  predicate InOrdinaryState(view: Policy.IntentView) {
    view.state in {Uncertain, Verifying, PendingRail, PaymentState.Authorized}
  }

  /** A capture in terms of what the provider said: an API record that is captured or authorized, in
      whatever letter case, and about this very money, or a synthetic rail's SUCCESS. */
  lemma CaptureRestsOnTheProvider(view: Policy.IntentView, reading: Negotiator.Reading, det: DetectiveResult)
    requires det.action == ActionType.Capture
    ensures Policy.Approves(view, Negotiator.Verify(view.amount, view.currency, reading), det) <==>
      && !view.hasExistingCapture && InOrdinaryState(view) && det.confidence >= 0.85
      && match reading {
           case Found(info) => Upper(info.status) in {"CAPTURED", "AUTHORIZED"} && MatchesRecord(view, info)
           case ReadError => false
           case Synthetic(status, _) => status == "SUCCESS"
         }
  {
    Policy.CaptureApprovedExactlyWhen(view, Negotiator.Verify(view.amount, view.currency, reading), det);
  }

  /** Money goes back only on a captured API record, or a synthetic rail's SUCCESS or DUPLICATE. */
  lemma MoneyBackRestsOnTheProvider(view: Policy.IntentView, reading: Negotiator.Reading, det: DetectiveResult)
    requires det.action == ActionType.Refund || det.action == ActionType.Void
    ensures Policy.Approves(view, Negotiator.Verify(view.amount, view.currency, reading), det) <==>
      && view.state == DuplicateSuspected && det.confidence >= 0.85
      && (det.action == ActionType.Refund ==> view.amount <= 1000.0)
      && match reading {
           case Found(info) => Upper(info.status) == "CAPTURED" && MatchesRecord(view, info)
           case ReadError => false
           case Synthetic(status, _) => status in {"SUCCESS", "DUPLICATE"}
         }
  {
    Policy.MoneyBackApprovedExactlyWhen(view, Negotiator.Verify(view.amount, view.currency, reading), det);
  }

  /** The proposals that move no money.  VERIFY is never approved.  REROUTE takes a payment that has failed or
      was given back; MANUAL_REVIEW takes a rail's DUPLICATE, or for a suspected duplicate whatever is no
      payment; NO_ACTION takes any definite answer, except that a suspected duplicate that was paid asks
      for an action. */
  lemma OtherActionsRestOnTheProvider(view: Policy.IntentView, reading: Negotiator.Reading, det: DetectiveResult)
    requires det.action !in {ActionType.Capture, ActionType.Refund, ActionType.Void}
    ensures Policy.Approves(view, Negotiator.Verify(view.amount, view.currency, reading), det) <==>
      && (InOrdinaryState(view) || view.state == DuplicateSuspected) && det.confidence >= 0.85
      && (view.hasExistingCapture ==> view.state == DuplicateSuspected)
      && match reading {
           case ReadError => false
           case Found(info) => MatchesRecord(view, info) && RecordAllows(view, det.action, Upper(info.status))
           case Synthetic(status, _) => RailAllows(view, det.action, status)
         }
  {
    var neg := Negotiator.Verify(view.amount, view.currency, reading);
    Policy.OtherActionApprovedExactlyWhen(view, neg, det);
    if reading.Found? {
      Negotiator.RecordCountsAs(reading.info.status);
    } else if reading.Synthetic? {
      Negotiator.RailCountsAs(reading.status);
    }
  }

  predicate RecordAllows(view: Policy.IntentView, action: ActionType, word: string) {
    match action
    case Reroute => InOrdinaryState(view) && word in {"FAILED", "REFUNDED"}
    case ManualReview => !InOrdinaryState(view) && word in {"AUTHORIZED", "FAILED", "REFUNDED"}
    case NoAction => word in {"AUTHORIZED", "FAILED", "REFUNDED"} || (InOrdinaryState(view) && word == "CAPTURED")
    case _ => false
  }

  predicate RailAllows(view: Policy.IntentView, action: ActionType, word: string) {
    match action
    case Reroute => InOrdinaryState(view) && word in {"FAILED", "VOIDED", "REFUNDED"}
    case ManualReview => if InOrdinaryState(view) then word == "DUPLICATE" else word in {"FAILED", "VOIDED", "REFUNDED"}
    case NoAction => word in {"FAILED", "VOIDED", "REFUNDED"} || (InOrdinaryState(view) && word in {"SUCCESS", "DUPLICATE"})
    case _ => false
  }

  /** The amounts column keeps two decimals, rounding ties away from zero. */
  function StoredAmount(amount: Decimal): Decimal {
    RoundHalfUp(amount * 100.0) as real * 0.01
  }

  /** An order of a positive amount is created for `decimal_to_minor_units` of it while its intent
      stores the amount rounded to two decimals.  When the provider echoes the order's own amount,
      Rule 3 accepts it exactly for the currencies that have minor units.  A non-positive stored
      amount is refused by the intents table. */
  lemma OwnEchoPassesRuleThree(amount: Decimal, currency: string, info: Negotiator.PaymentInfo)
    requires IsSupported(currency) && amount > 0.0 && StoredAmount(amount) > 0.0
    requires DecimalToMinorUnits(amount, currency).Ok?
    requires info.amount == Some(DecimalToMinorUnits(amount, currency).value) && info.amount.value > 0
    requires info.currency == Some(currency)
    ensures var stored := StoredAmount(amount);
      var view := Policy.IntentView(Uncertain, stored, currency, false);
      Policy.SameMoney(view, Negotiator.Verify(stored, currency, Negotiator.Found(info))) <==> HasMinorUnits(currency)
  {
    if !HasMinorUnits(currency) {
      assert info.amount.value == amount.Floor >= 1;
      RoundHalfUpIsNearest(amount * 100.0, RoundHalfUp(amount * 100.0));
    }
  }

  /** Rule 3 against the amount check of reconciliation, on the provider's integer n.  For currencies
      with minor units and intents of at most two decimals the two give the same answer for every n
      above 100.  Smaller integers, which reconciliation reads as major units, divide them exactly
      when the intent equals one of the two readings; and for n = 0, which the negotiator replaces by
      the intent's own amount, unless the intent itself is zero. */
  lemma AmountCheckAgainstRuleThree(intent: Reconciliation.LocalIntent, evidence: Reconciliation.Evidence,
                                    info: Negotiator.PaymentInfo, n: int)
    requires Reconciliation.Readable(intent, evidence)
    requires evidence.amount == Reconciliation.Integer(n) && info.amount == Some(n)
    requires HasMinorUnits(intent.currency) && AtMostTwoDecimals(intent.amount)
    ensures var neg := Negotiator.Verify(intent.amount, intent.currency, Negotiator.Found(info));
      (Reconciliation.AmountDiffers(intent, evidence) <==> neg.amount != intent.amount)
      <==> (|| n > 100
            || (n == 0 && intent.amount == 0.0)
            || (n != 0 && intent.amount != n as real && intent.amount != n as real / 100.0))
  {
    ToDecimalAmountRounds(intent.amount);
    if n > 100 {
      assert n as real / 100.0 * 100.0 == n as real;
      RoundHalfUpIsOdd(n as real);
    } else {
      assert n as real * 100.0 == (n * 100) as real;
      FloorUnique(n as real * 100.0, n * 100);
      ToDecimalAmountRounds(n as real);
    }
  }

  /** For example, an intent of 1.00 and the provider's 100 minor units satisfy Rule 3 but are
      reported as an amount mismatch. */
  lemma SmallIntegersAreMisread()
    ensures var intent := Reconciliation.LocalIntent(1.0, "INR", "", "", Uncertain);
      var evidence := Reconciliation.Evidence("captured", "", Reconciliation.Integer(100), "INR");
      && Reconciliation.Readable(intent, evidence)
      && Reconciliation.AmountDiffers(intent, evidence)
      && Negotiator.Verify(1.0, "INR", Negotiator.Found(Negotiator.PaymentInfo("captured", None, Some(100), None))).amount == 1.0
  {
    assert Strip("INR") == "INR";
    assert Upper("INR") == "INR";
    assert "INR" in SUPPORTED_CURRENCIES;
  }

  /** The resolver's second test for ambiguity adds nothing: what the reconciliation reads is what the
      negotiator has read, be it a record, an error or a synthetic rail's answer, so whenever
      reconciliation answers AMBIGUOUS the negotiator's status is already UNKNOWN. */
  lemma AmbiguityIsAlreadyUnknown(intent: Reconciliation.LocalIntent, evidence: Reconciliation.Evidence,
                                  reading: Negotiator.Reading, captures: nat)
    requires Reconciliation.Readable(intent, evidence) && Negotiator.IsReportedStatus(reading, evidence.status)
    requires Reconciliation.StatusOf(intent, evidence, captures) == Reconciliation.Ambiguous
    ensures Negotiator.Verify(intent.amount, intent.currency, reading).status == ExternalStatus.Unknown
  {
    Reconciliation.VerdictsAreInformative(intent, [], evidence, captures);
    Negotiator.UnknownIsUnknown(intent.amount, intent.currency, reading);
  }
}
