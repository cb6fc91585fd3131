/** The executor: a chain of guards in front of the calls that move money. */
module Executor {
  import opened Domain
  import Money

  /** The signed part of an authorized command. */
  datatype CommandBody = CommandBody(
    action: ActionType,
    amount: Decimal,
    currency: string,
    idempotencyKey: string,
    issuedAt: real,
    expiresAt: real)

  /** The body of a command issued at `now`. */
  function Authorize(action: ActionType, amount: Decimal, currency: string, key: string, now: real): CommandBody {
    CommandBody(action, amount, currency, key, now, now + COMMAND_LIFETIME)
  }

  datatype Command = Command(body: CommandBody, paymentId: Option<string>, signature: Option<string>)

  const CLOCK_SKEW: real := 5.0
  const COMMAND_LIFETIME: real := 300.0

  /** The currencies for which the capture wrapper converts to sub-units. */
  const CAPTURE_CURRENCIES: set<string> := {"INR", "USD", "EUR", "GBP"}

  datatype Mode = Api | Simulator

  /** How the outside reacts.  The provider's client reports that a call was accepted, raises an API
      error, or raises something else, such as on an answer it cannot parse; a synthetic rail answers
      with a status, one of which the executor does not list, or raises. */
  datatype ProviderReply = Accepted | ApiError | OtherError
  datatype RailReply = RailSuccess | RailCaptured | RailVoided | RailRefunded | RailFailed | RailOther | RailRaised

  /** `hidden` is the number of captures that are carried out in the course of a capture call beyond
      the one that is reported: behind a timeout, an error or an unreadable answer. */
  datatype Environment = Environment(now: real, mode: Mode, reply: ProviderReply, rail: RailReply, hidden: nat)

  datatype ProviderCall =
    | CaptureCall(paymentId: string, units: int, currency: string)
    | RefundCall(paymentId: string, units: int)

  datatype FinOpsResult = FinOpsResult(action: ActionType, status: ExternalStatus)

  /** `Raised` is an exception that leaves the executor: the capture wrapper refuses the currency, or the
      client raises what is not an API error. */
  datatype Outcome = Finished(result: FinOpsResult) | Raised

  predicate MovesMoney(action: ActionType) {
    action in {ActionType.Capture, ActionType.Refund, ActionType.Void}
  }

  /** Signatures are compared without regard to case. */
  predicate SignatureOk(c: Command, mac: CommandBody -> string) {
    c.signature.Some? && c.signature.value != "" && Money.Upper(c.signature.value) == Money.Upper(mac(c.body))
  }

  predicate PassesGuards(c: Command, signed: bool, now: real) {
    && now <= c.body.expiresAt
    && c.body.issuedAt <= now + CLOCK_SKEW
    && (MovesMoney(c.body.action) ==> signed)
    && (c.body.amount > 0.0 || c.body.action == NoAction)
  }

  predicate UsesProvider(c: Command, env: Environment) {
    env.mode == Api && c.paymentId.Some? && c.paymentId.value != ""
  }

  predicate CapturableCurrency(currency: string) {
    currency == "" || Money.Upper(currency) in CAPTURE_CURRENCIES
  }

  /** The whole sub-units of an amount. */
  predicate IsWhole(units: int, amount: Decimal) {
    units as real <= amount * 100.0 < units as real + 1.0
  }

  function SentCurrency(currency: string): string {
    if currency == "" then "INR" else Money.Upper(currency)
  }

  /** The status that a rail's answer to an attempted action is mapped to. */
  function RailStatus(action: ActionType, rail: RailReply): ExternalStatus {
    if action == NoAction then Success
    else if !MovesMoney(action) then ExternalStatus.Failed
    else match rail
      case RailSuccess => Success
      case RailCaptured => Success
      case RailVoided => Voided
      case RailRefunded => Refunded
      case _ => ExternalStatus.Failed
  }

  /** What the client's answer to a mutating call is mapped to. */
  function Answered(action: ActionType, success: ExternalStatus, reply: ProviderReply): Outcome {
    match reply
    case Accepted => Finished(FinOpsResult(action, success))
    case ApiError => Finished(FinOpsResult(action, ExternalStatus.Failed))
    case OtherError => Raised
  }

  /** What a command leads to. */
  function Perform(c: Command, signed: bool, env: Environment): Outcome {
    var action := c.body.action;
    if !PassesGuards(c, signed, env.now) then
      Finished(FinOpsResult(action, ExternalStatus.Failed))
    else if UsesProvider(c, env) then
      match action
      case Capture =>
        if !CapturableCurrency(c.body.currency) then Raised else Answered(action, Success, env.reply)
      case Refund => Answered(action, Refunded, env.reply)
      case Void => Answered(action, Refunded, env.reply)
      case NoAction => Finished(FinOpsResult(action, Success))
      case _ => Finished(FinOpsResult(action, ExternalStatus.Failed))
    else
      Finished(FinOpsResult(action, RailStatus(action, env.rail)))
  }

  /** The captures that a command really causes, whatever is reported of them. */
  function CapturesMade(c: Command, signed: bool, env: Environment): nat {
    if !PassesGuards(c, signed, env.now) || c.body.action != ActionType.Capture then 0
    else if UsesProvider(c, env) then
      if !CapturableCurrency(c.body.currency) then 0
      else env.hidden + if env.reply == Accepted then 1 else 0
    else env.hidden + if RailStatus(ActionType.Capture, env.rail) == Success then 1 else 0
  }

  /** Nothing is captured but on a capture command that passes the guards, and a capture that is reported
      was made.  What is not reported, or only as a failure, may have been made all the same. */
  lemma ReportedCapturesAreMade(c: Command, signed: bool, env: Environment)
    ensures var outcome, made := Perform(c, signed, env), CapturesMade(c, signed, env);
      && (outcome == Finished(FinOpsResult(ActionType.Capture, Success)) ==> made == env.hidden + 1)
      && (outcome != Finished(FinOpsResult(ActionType.Capture, Success)) ==> made == 0 || made == env.hidden)
      && (made > 0 ==> c.body.action == ActionType.Capture && signed && c.body.amount > 0.0)
  {
  }

  /** The command may still be carried out: it is at most five minutes old and not issued more than five
      seconds ahead of the clock, and it is about a positive amount unless it does nothing. */
  predicate IsTimely(action: ActionType, amount: Decimal, issued: real, now: real) {
    issued - 5.0 <= now <= issued + 300.0 && (amount > 0.0 || action == NoAction)
  }

  lemma FreshCommandRuns(action: ActionType, amount: Decimal, currency: string, key: string, issued: real, now: real,
                         paymentId: Option<string>)
    ensures var body := Authorize(action, amount, currency, key, issued);
      && body == CommandBody(action, amount, currency, key, issued, issued + 300.0)
      && (PassesGuards(Command(body, paymentId, None), true, now) <==> IsTimely(action, amount, issued, now))
  {
  }

  /** The outside confirms an action: the provider's client, if the command goes to it, or the rail. */
  predicate IsConfirmed(action: ActionType, viaProvider: bool, env: Environment) {
    || action == NoAction
    || (action in {ActionType.Capture, ActionType.Refund, ActionType.Void}
        && if viaProvider then env.reply == Accepted
           else env.rail in {RailSuccess, RailCaptured, RailVoided, RailRefunded})
  }

  /** What is reported, in terms of the outside alone.  The client knows two answers, SUCCESS for a capture
      and REFUNDED for a refund or a void; the rail's own word stands for itself; NO_ACTION always
      succeeds; and every other command that leads to an answer is a failure. */
  lemma ReportedExactlyWhen(c: Command, signed: bool, env: Environment)
    ensures var action, outcome := c.body.action, Perform(c, signed, env);
      var moves := action in {ActionType.Capture, ActionType.Refund, ActionType.Void};
      var valid := && c.body.issuedAt - 5.0 <= env.now <= c.body.expiresAt && (c.body.amount > 0.0 || action == NoAction)
                   && (moves ==> signed);
      var viaProvider := env.mode == Api && c.paymentId.Some? && c.paymentId.value != "";
      var refused := action == ActionType.Capture && c.body.currency != ""
                     && Money.Upper(c.body.currency) !in {"INR", "USD", "EUR", "GBP"};
      && (outcome == Raised <==> valid && viaProvider && (refused || (moves && env.reply == OtherError)))
      && (outcome == Finished(FinOpsResult(action, Success)) <==>
            && valid
            && (|| action == NoAction
                || (viaProvider && action == ActionType.Capture && !refused && env.reply == Accepted)
                || (!viaProvider && moves && env.rail in {RailSuccess, RailCaptured})))
      && (outcome == Finished(FinOpsResult(action, Refunded)) <==>
            && valid
            && (|| (viaProvider && action in {ActionType.Refund, ActionType.Void} && env.reply == Accepted)
                || (!viaProvider && moves && env.rail == RailRefunded)))
      && (outcome == Finished(FinOpsResult(action, Voided)) <==> valid && !viaProvider && moves && env.rail == RailVoided)
      && (outcome.Finished? && outcome.result.status !in {Success, Refunded, Voided} ==>
            outcome.result == FinOpsResult(action, ExternalStatus.Failed))
  {
  }

  /** So a signed, fresh command that leads to an answer succeeds exactly if it is timely and the outside
      confirms it. */
  lemma SucceedsExactlyWhen(action: ActionType, amount: Decimal, currency: string, key: string, issued: real,
                            paymentId: Option<string>, env: Environment)
    requires Perform(Command(Authorize(action, amount, currency, key, issued), paymentId, None), true, env).Finished?
    ensures var result := Perform(Command(Authorize(action, amount, currency, key, issued), paymentId, None), true, env).result;
      && result.action == action
      && (result.status in {Success, Refunded, Voided} <==>
            && IsTimely(action, amount, issued, env.now)
            && IsConfirmed(action, env.mode == Api && paymentId.Some? && paymentId.value != "", env))
      && (result.status !in {Success, Refunded, Voided} ==> result.status == ExternalStatus.Failed)
  {
    ReportedExactlyWhen(Command(Authorize(action, amount, currency, key, issued), paymentId, None), true, env);
  }

  /** The statuses that the resolver takes for success. */
  predicate IsEffective(s: ExternalStatus) {
    s in {Success, Refunded, Voided}
  }

  /** The payment provider as the executor sees it: the mutating calls that were made to it.  The client
      may send one call several times. */
  class Provider {
    var calls: seq<ProviderCall>

    constructor ()
      ensures calls == []
    {
      calls := [];
    }

    /** POST payments/{id}/capture */
    method CapturePayment(paymentId: string, amount: Decimal, currency: string)
      requires CapturableCurrency(currency)
      modifies this
      ensures calls == old(calls) + [CaptureCall(paymentId, Money.TruncatedSubunits(amount), SentCurrency(currency))]
      ensures SentCurrency(currency) in CAPTURE_CURRENCIES
      ensures amount >= 0.0 ==> IsWhole(calls[|old(calls)|].units, amount)
    {
      calls := calls + [CaptureCall(paymentId, Money.TruncatedSubunits(amount), SentCurrency(currency))];
    }

    /** POST payments/{id}/refund */
    method CreateRefund(paymentId: string, amount: Decimal)
      modifies this
      ensures calls == old(calls) + [RefundCall(paymentId, Money.TruncatedSubunits(amount))]
      ensures amount >= 0.0 ==> IsWhole(calls[|old(calls)|].units, amount)
    {
      calls := calls + [RefundCall(paymentId, Money.TruncatedSubunits(amount))];
    }
  }

  /** Runs a command.  A call reaches the provider exactly when the command is unexpired, not issued
      in the future, authentically signed, of positive amount and addressed to the API; it is then
      the one call of its action, for the command's own payment and amount. */
  method Execute(provider: Provider, c: Command, mac: CommandBody -> string, env: Environment) returns (outcome: Outcome)
    modifies provider
    ensures outcome == Perform(c, SignatureOk(c, mac), env)
    ensures provider.calls != old(provider.calls) <==>
      && env.now <= c.body.expiresAt
      && c.body.issuedAt <= env.now + CLOCK_SKEW
      && SignatureOk(c, mac)
      && c.body.amount > 0.0
      && UsesProvider(c, env)
      && MovesMoney(c.body.action)
      && (c.body.action == ActionType.Capture ==> CapturableCurrency(c.body.currency))
    ensures provider.calls != old(provider.calls) ==>
      provider.calls == old(provider.calls) + [
        if c.body.action == ActionType.Capture
        then CaptureCall(c.paymentId.value, Money.TruncatedSubunits(c.body.amount), SentCurrency(c.body.currency))
        else RefundCall(c.paymentId.value, Money.TruncatedSubunits(c.body.amount))]
  {
    var action := c.body.action;
    var failed := Finished(FinOpsResult(action, ExternalStatus.Failed));
    if env.now > c.body.expiresAt {
      return failed;
    }
    if c.body.issuedAt > env.now + CLOCK_SKEW {
      return failed;
    }
    if MovesMoney(action) {
      if c.signature.None? || c.signature.value == "" {
        return failed;
      }
      if !SignatureOk(c, mac) {
        return failed;
      }
    }
    if c.body.amount <= 0.0 && action != NoAction {
      return failed;
    }
    if env.mode == Api && c.paymentId.Some? && c.paymentId.value != "" {
      if action == ActionType.Capture {
        if !CapturableCurrency(c.body.currency) {
          return Raised;
        }
        provider.CapturePayment(c.paymentId.value, c.body.amount, c.body.currency);
        return Answered(action, Success, env.reply);
      } else if action == ActionType.Refund || action == ActionType.Void {
        provider.CreateRefund(c.paymentId.value, c.body.amount);
        return Answered(action, Refunded, env.reply);
      } else if action == NoAction {
        return Finished(FinOpsResult(action, Success));
      } else {
        return failed;
      }
    }
    return Finished(FinOpsResult(action, RailStatus(action, env.rail)));
  }

  /** A command that is signed with the executor's own key is authentic, unless the key's code is
      the empty string. */
  lemma OwnSignatureIsAuthentic(body: CommandBody, paymentId: Option<string>, mac: CommandBody -> string)
    ensures SignatureOk(Command(body, paymentId, Some(mac(body))), mac) <==> mac(body) != ""
  {
  }

  /** The executor looks at the authenticity of a signature, not at the signature. */
  lemma SignatureDoesNotMatter(c: Command, signature: Option<string>, signed: bool, env: Environment)
    ensures Perform(c.(signature := signature), signed, env) == Perform(c, signed, env)
  {
  }

  /** Only captures, refunds, voids and NO_ACTION can report success; the reported action is always
      the commanded one; and without an authentic signature no money-moving action succeeds. */
  lemma OnlyListedActionsSucceed(c: Command, signed: bool, env: Environment)
    requires Perform(c, signed, env).Finished?
    ensures var r := Perform(c, signed, env).result;
      && r.action == c.body.action
      && r.status in {Success, Refunded, Voided, ExternalStatus.Failed}
      && (IsEffective(r.status) ==> MovesMoney(r.action) || r.action == NoAction)
      && (IsEffective(r.status) && MovesMoney(r.action) ==> signed && c.body.amount > 0.0)
  {
  }
}
