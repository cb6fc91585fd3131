/** Merchant-side reconciliation: local intent, event history and execution history against the
    provider's record. */
module Reconciliation {
  import opened Domain
  import opened Money

  datatype Divergence =
    | NoDivergence | LostWebhook | AmountMismatch | CurrencyMismatch | PaymentIdMismatch
    | ConflictingProviderState | UnknownProviderState | PossibleDuplicateCapture | ManualReviewRequired

  datatype Status = Consistent | Inconsistent | Ambiguous

  datatype Anomaly =
    | WrongCurrency | WrongOrder | WrongAmount | DuplicateCaptures | LocalConflict | ProviderUnknown

  datatype Report = Report(status: Status, isReconciled: bool, divergence: Divergence, anomalies: seq<Anomaly>)

  /** The provider's amount: absent, an integer, or anything else that is handed to
      `to_decimal_amount`. */
  datatype ApiAmount = Absent | Integer(n: int) | Raw(raw: RawAmount)

  /** The fields of the provider's record that are looked at; absent strings are empty. */
  datatype Evidence = Evidence(status: string, orderId: string, amount: ApiAmount, currency: string)

  datatype LocalIntent = LocalIntent(
    amount: Decimal,
    currency: string,
    orderId: string,
    razorpayOrderId: string,
    state: PaymentState)

  datatype Execution = Execution(operation: ActionType, status: ExternalStatus)

  predicate IsSuccessfulCapture(e: Execution) {
    e.operation == ActionType.Capture && (e.status == Success || e.status == ExternalStatus.Captured)
  }

  predicate ReportsCapture(status: string) {
    status == "captured" || status == "SUCCESS"
  }

  function SuccessfulCaptures(es: seq<Execution>): nat {
    if es == [] then 0
    else (if IsSuccessfulCapture(es[0]) then 1 else 0) + SuccessfulCaptures(es[1..])
  }

  // ---- The verdict, as a priority order over independent findings ----

  /** An integer above 100 is read as minor units, any other amount as major units. */
  function ApiAmountIn(intent: LocalIntent, evidence: Evidence, own: Decimal): Result<Decimal> {
    match evidence.amount
    case Absent => Ok(own)
    case Integer(n) => if n > 100 then MinorUnitsToDecimal(n, intent.currency) else ToDecimalAmount(Number(n as real))
    case Raw(raw) => ToDecimalAmount(raw)
  }

  /** The amounts and the currency can be made sense of; otherwise the engine raises. */
  predicate Readable(intent: LocalIntent, evidence: Evidence) {
    && ToDecimalAmount(Number(intent.amount)).Ok?
    && IsSupported(intent.currency)
    && ApiAmountIn(intent, evidence, ToDecimalAmount(Number(intent.amount)).value).Ok?
  }

  predicate CurrencyDiffers(intent: LocalIntent, evidence: Evidence) {
    evidence.currency != "" && ValidateCurrency(evidence.currency) != ValidateCurrency(intent.currency)
  }

  predicate AmountDiffers(intent: LocalIntent, evidence: Evidence)
    requires Readable(intent, evidence)
  {
    var own := ToDecimalAmount(Number(intent.amount)).value;
    ApiAmountIn(intent, evidence, own).value != own
  }

  predicate OrderDiffers(intent: LocalIntent, evidence: Evidence) {
    intent.razorpayOrderId == "" && evidence.orderId != "" && intent.orderId != "" && evidence.orderId != intent.orderId
  }

  predicate WebhookLost(evidence: Evidence, events: seq<string>) {
    ReportsCapture(evidence.status) && "payment.captured" !in events && "authorized" !in events
  }

  predicate StatesConflict(intent: LocalIntent, evidence: Evidence) {
    intent.state == PaymentState.Failed && ReportsCapture(evidence.status)
  }

  /** The strongest finding wins. */
  function MainDivergence(intent: LocalIntent, events: seq<string>, evidence: Evidence, captures: nat): Divergence
    requires Readable(intent, evidence)
  {
    if captures > 1 then PossibleDuplicateCapture
    else if CurrencyDiffers(intent, evidence) then CurrencyMismatch
    else if OrderDiffers(intent, evidence) then PaymentIdMismatch
    else if AmountDiffers(intent, evidence) then AmountMismatch
    else if StatesConflict(intent, evidence) then ConflictingProviderState
    else if WebhookLost(evidence, events) then LostWebhook
    else NoDivergence
  }

  predicate Clean(intent: LocalIntent, evidence: Evidence, captures: nat)
    requires Readable(intent, evidence)
  {
    && captures <= 1
    && !CurrencyDiffers(intent, evidence)
    && !OrderDiffers(intent, evidence)
    && !AmountDiffers(intent, evidence)
    && !StatesConflict(intent, evidence)
  }

  predicate Definite(status: string) {
    ReportsCapture(status) || status in {"authorized", "PENDING", "failed", "FAILED"}
  }

  function StatusOf(intent: LocalIntent, evidence: Evidence, captures: nat): Status
    requires Readable(intent, evidence)
  {
    if captures <= 1 && evidence.status == "UNKNOWN" then Ambiguous
    else if Clean(intent, evidence, captures) && Definite(evidence.status) then Consistent
    else Inconsistent
  }

  function DivergenceOf(intent: LocalIntent, events: seq<string>, evidence: Evidence, captures: nat): Divergence
    requires Readable(intent, evidence)
  {
    var main := MainDivergence(intent, events, evidence, captures);
    match StatusOf(intent, evidence, captures)
    case Ambiguous => UnknownProviderState
    case Consistent => main
    case Inconsistent => if main == NoDivergence then ManualReviewRequired else main
  }

  function If(condition: bool, a: Anomaly): seq<Anomaly> {
    if condition then [a] else []
  }

  /** The findings in the order in which they are looked for. */
  function AnomaliesOf(intent: LocalIntent, evidence: Evidence, captures: nat): seq<Anomaly>
    requires Readable(intent, evidence)
  {
    If(CurrencyDiffers(intent, evidence), WrongCurrency) + If(OrderDiffers(intent, evidence), WrongOrder)
    + If(AmountDiffers(intent, evidence), WrongAmount) + If(captures > 1, DuplicateCaptures)
    + If(StatesConflict(intent, evidence), LocalConflict)
    + If(captures <= 1 && evidence.status == "UNKNOWN", ProviderUnknown)
  }

  // ---- The verdict outright: the findings read off the record, without the functions above ----

  /** The provider's amount, if it has one, is the intent's: minor units above 100, unless the currency has
      none, and major units otherwise. */
  predicate SameAmount(intent: LocalIntent, evidence: Evidence)
    requires Readable(intent, evidence)
  {
    var own := ToDecimalAmount(Number(intent.amount)).value;
    match evidence.amount
    case Absent => true
    case Integer(n) => n as real == if n > 100 && HasMinorUnits(intent.currency) then own * 100.0 else own
    case Raw(raw) => ToDecimalAmount(raw).value == own
  }

  predicate OtherOrder(intent: LocalIntent, evidence: Evidence) {
    evidence.orderId !in {"", intent.orderId} && intent.orderId != "" && intent.razorpayOrderId == ""
  }

  predicate OtherCurrency(intent: LocalIntent, evidence: Evidence) {
    evidence.currency != "" && ValidateCurrency(evidence.currency) != ValidateCurrency(intent.currency)
  }

  predicate Contradicts(intent: LocalIntent, evidence: Evidence) {
    intent.state == PaymentState.Failed && evidence.status in {"captured", "SUCCESS"}
  }

  /** Nothing speaks against the provider's record. */
  predicate Agrees(intent: LocalIntent, evidence: Evidence, captures: nat)
    requires Readable(intent, evidence)
  {
    && captures <= 1
    && SameAmount(intent, evidence)
    && !OtherCurrency(intent, evidence)
    && !OtherOrder(intent, evidence)
    && !Contradicts(intent, evidence)
  }

  predicate IsAnomaly(intent: LocalIntent, evidence: Evidence, captures: nat, a: Anomaly)
    requires Readable(intent, evidence)
  {
    match a
    case WrongCurrency => OtherCurrency(intent, evidence)
    case WrongOrder => OtherOrder(intent, evidence)
    case WrongAmount => !SameAmount(intent, evidence)
    case DuplicateCaptures => captures > 1
    case LocalConflict => Contradicts(intent, evidence)
    case ProviderUnknown => captures <= 1 && evidence.status == "UNKNOWN"
  }

  lemma AmountIsCompared(intent: LocalIntent, evidence: Evidence)
    requires Readable(intent, evidence)
    ensures AmountDiffers(intent, evidence) <==> !SameAmount(intent, evidence)
  {
    if evidence.amount.Integer? {
      var n := evidence.amount.n;
      RoundHalfUpIsOdd(n as real);
      RoundHalfUpIsOdd(n as real * 100.0);
      assert n as real / 100.0 * 100.0 == n as real;
      assert n as real * 100.0 == (n * 100) as real;
      FloorUnique(n as real, n);
      FloorUnique(n as real * 100.0, n * 100);
    }
  }

  /** CONSISTENT, exactly: nothing speaks against the record, and its status is one of the six that say
      what has become of the payment. */
  lemma ConsistentExactlyWhen(intent: LocalIntent, evidence: Evidence, captures: nat)
    requires Readable(intent, evidence)
    ensures Clean(intent, evidence, captures) <==> Agrees(intent, evidence, captures)
    ensures StatusOf(intent, evidence, captures) == Consistent <==>
      Agrees(intent, evidence, captures)
      && evidence.status in {"captured", "SUCCESS", "authorized", "PENDING", "failed", "FAILED"}
  {
    AmountIsCompared(intent, evidence);
  }

  lemma MembersOfIfs(a: Anomaly, b1: bool, b2: bool, b3: bool, b4: bool, b5: bool, b6: bool)
    ensures a in If(b1, WrongCurrency) + If(b2, WrongOrder) + If(b3, WrongAmount) + If(b4, DuplicateCaptures)
                 + If(b5, LocalConflict) + If(b6, ProviderUnknown) <==>
      match a
      case WrongCurrency => b1
      case WrongOrder => b2
      case WrongAmount => b3
      case DuplicateCaptures => b4
      case LocalConflict => b5
      case ProviderUnknown => b6
  {
  }

  /** What is listed, exactly. */
  lemma AnomaliesExactlyWhen(intent: LocalIntent, evidence: Evidence, captures: nat, a: Anomaly)
    requires Readable(intent, evidence)
    ensures a in AnomaliesOf(intent, evidence, captures) <==> IsAnomaly(intent, evidence, captures, a)
  {
    AmountIsCompared(intent, evidence);
    MembersOfIfs(a, CurrencyDiffers(intent, evidence), OrderDiffers(intent, evidence), AmountDiffers(intent, evidence),
                 captures > 1, StatesConflict(intent, evidence), captures <= 1 && evidence.status == "UNKNOWN");
  }

  /** What each divergence stands for, exactly, from the strongest finding to none. */
  lemma DivergenceExactlyWhen(intent: LocalIntent, events: seq<string>, evidence: Evidence, captures: nat)
    requires Readable(intent, evidence)
    ensures var divergence := DivergenceOf(intent, events, evidence, captures);
      var single := captures <= 1;
      var known := single && evidence.status != "UNKNOWN";
      var sameCurrency := known && !OtherCurrency(intent, evidence);
      var sameOrder := sameCurrency && !OtherOrder(intent, evidence);
      var sameAmount := sameOrder && SameAmount(intent, evidence);
      var compatible := sameAmount && !Contradicts(intent, evidence);
      var lost := evidence.status in {"captured", "SUCCESS"} && forall e | e in events :: e !in {"payment.captured", "authorized"};
      var definite := evidence.status in {"captured", "SUCCESS", "authorized", "PENDING", "failed", "FAILED"};
      && (divergence == PossibleDuplicateCapture <==> !single)
      && (divergence == UnknownProviderState <==> single && !known)
      && (divergence == CurrencyMismatch <==> known && !sameCurrency)
      && (divergence == PaymentIdMismatch <==> sameCurrency && !sameOrder)
      && (divergence == AmountMismatch <==> sameOrder && !sameAmount)
      && (divergence == ConflictingProviderState <==> sameAmount && !compatible)
      && (divergence == LostWebhook <==> compatible && lost)
      && (divergence == ManualReviewRequired <==> compatible && !definite)
      && (divergence == NoDivergence <==> compatible && !lost && definite)
  {
    AmountIsCompared(intent, evidence);
  }

  /** The engine raises exactly on an unsupported currency and on amounts that cannot be read: text, infinities
      and numbers of more than 28 digits. */
  lemma ReadableExactlyWhen(intent: LocalIntent, evidence: Evidence)
    ensures Readable(intent, evidence) <==>
      && IsSupported(intent.currency)
      && Fits(intent.amount)
      && match evidence.amount {
           case Absent => true
           case Integer(n) => if n > 100 && HasMinorUnits(intent.currency) then Fits(n as real / 100.0) else Fits(n as real)
           case Raw(raw) => raw.Number? && Fits(raw.value)
         }
  {
    if evidence.amount.Integer? {
      var n := evidence.amount.n;
      RoundHalfUpIsOdd(n as real);
      RoundHalfUpIsOdd(n as real * 100.0);
      assert n as real / 100.0 * 100.0 == n as real;
      assert n as real * 100.0 == (n * 100) as real;
      FloorUnique(n as real, n);
      FloorUnique(n as real * 100.0, n * 100);
    }
  }

  /** The amount rounds to fewer than 10^28 hundredths. */
  predicate Fits(amount: Decimal) {
    -10_000_000_000_000_000_000_000_000_000 < RoundHalfUp(amount * 100.0) < 10_000_000_000_000_000_000_000_000_000
  }

  // ---- The engine ----

  method Reconcile(intent: LocalIntent, events: seq<string>, evidence: Evidence, executions: seq<Execution>)
      returns (report: Option<Report>)
    ensures report.None? <==> !Readable(intent, evidence)
    ensures report.Some? ==>
      var r, captures := report.value, SuccessfulCaptures(executions);
      && r.status == StatusOf(intent, evidence, captures)
      && r.divergence == DivergenceOf(intent, events, evidence, captures)
      && (r.anomalies == [] <==> Clean(intent, evidence, captures) && evidence.status != "UNKNOWN")
      && (r.isReconciled <==> r.status == Consistent && evidence.status !in {"authorized", "PENDING"})
      && r.anomalies == AnomaliesOf(intent, evidence, captures)
      // outright: which record is consistent, and which is settled
      && (r.status == Consistent <==>
            Agrees(intent, evidence, captures)
            && evidence.status in {"captured", "SUCCESS", "authorized", "PENDING", "failed", "FAILED"})
      && (r.isReconciled <==>
            Agrees(intent, evidence, captures) && evidence.status in {"captured", "SUCCESS", "failed", "FAILED"})
  {
    var own := ToDecimalAmount(Number(intent.amount));
    if own.Err? || !IsSupported(intent.currency) {
      return None;
    }
    var amount := ApiAmountIn(intent, evidence, own.value);
    if amount.Err? {
      return None;
    }
    var captures := SuccessfulCaptures(executions);
    var captured := ReportsCapture(evidence.status);
    var apiOrderId := if evidence.orderId != "" then evidence.orderId else intent.razorpayOrderId;
    var anomalies, divergence := Inspect(
      evidence.currency != "" && ValidateCurrency(evidence.currency) != ValidateCurrency(intent.currency),
      apiOrderId != "" && intent.orderId != "" && apiOrderId != intent.orderId && intent.razorpayOrderId == "",
      amount.value != own.value,
      captures,
      captured && "payment.captured" !in events && "authorized" !in events,
      captured && intent.state == PaymentState.Failed);
    ConsistentExactlyWhen(intent, evidence, captures);
    assert divergence == MainDivergence(intent, events, evidence, captures);
    assert anomalies == [] <==> Clean(intent, evidence, captures);
    var conclusion := Resolution(evidence.status, captures, divergence, anomalies);
    return Some(conclusion);
  }

  /** The findings one after the other.  A later one takes the divergence only if it is still free, except that
      a duplicate capture always does and a conflict replaces a lost webhook. */
  method Inspect(wrongCurrency: bool, wrongOrder: bool, wrongAmount: bool, captures: nat, lost: bool, conflict: bool)
      returns (anomalies: seq<Anomaly>, divergence: Divergence)
    ensures anomalies == If(wrongCurrency, WrongCurrency) + If(wrongOrder, WrongOrder) + If(wrongAmount, WrongAmount)
                         + If(captures > 1, DuplicateCaptures) + If(conflict, LocalConflict)
    ensures divergence == if captures > 1 then PossibleDuplicateCapture
                          else if wrongCurrency then CurrencyMismatch
                          else if wrongOrder then PaymentIdMismatch
                          else if wrongAmount then AmountMismatch
                          else if conflict then ConflictingProviderState
                          else if lost then LostWebhook
                          else NoDivergence
  {
    anomalies, divergence := [], NoDivergence;
    if wrongCurrency {
      anomalies := anomalies + [WrongCurrency];
      divergence := CurrencyMismatch;
    }
    // 1. Identity
    if wrongOrder {
      anomalies := anomalies + [WrongOrder];
      if divergence == NoDivergence {
        divergence := PaymentIdMismatch;
      }
    }
    // 2. Amount
    if wrongAmount {
      anomalies := anomalies + [WrongAmount];
      if divergence == NoDivergence {
        divergence := AmountMismatch;
      }
    }
    // 3. Duplicate captures
    if captures > 1 {
      anomalies := anomalies + [DuplicateCaptures];
      divergence := PossibleDuplicateCapture;
    }
    // 4. Webhook against API, and state conflicts
    if lost && divergence == NoDivergence {
      divergence := LostWebhook;
    }
    if conflict {
      anomalies := anomalies + [LocalConflict];
      if divergence == NoDivergence || divergence == LostWebhook {
        divergence := ConflictingProviderState;
      }
    }
  }

  /** The last step, on what the others have found. */
  method Resolution(status: string, captures: nat, divergence: Divergence, anomalies: seq<Anomaly>) returns (r: Report)
    requires captures > 1 ==> anomalies != [] && divergence == PossibleDuplicateCapture
    ensures r.status == Ambiguous <==> captures <= 1 && status == "UNKNOWN"
    ensures r.status == Consistent <==>
      anomalies == [] && status in {"captured", "SUCCESS", "authorized", "PENDING", "failed", "FAILED"}
    ensures r.isReconciled <==> anomalies == [] && status in {"captured", "SUCCESS", "failed", "FAILED"}
    ensures r.divergence == match r.status
                            case Ambiguous => UnknownProviderState
                            case Consistent => divergence
                            case Inconsistent => if divergence == NoDivergence then ManualReviewRequired else divergence
    ensures r.anomalies == anomalies + If(r.status == Ambiguous, ProviderUnknown)
  {
    if anomalies == [] {
      if ReportsCapture(status) {
        return Report(Consistent, true, divergence, []);
      } else if status == "authorized" || status == "PENDING" {
        return Report(Consistent, false, divergence, []);
      } else if status == "failed" || status == "FAILED" {
        return Report(Consistent, true, divergence, []);
      }
    }
    if captures > 1 {
      return Report(Inconsistent, false, PossibleDuplicateCapture, anomalies);
    }
    if status == "UNKNOWN" {
      return Report(Ambiguous, false, UnknownProviderState, anomalies + [ProviderUnknown]);
    }
    return Report(Inconsistent, false, if divergence != NoDivergence then divergence else ManualReviewRequired, anomalies);
  }

  // ---- Soundness ----

  /** CONSISTENT vouches for the amount, the currency where one is given, and a single capture.
      It rules out every divergence but a lost webhook. */
  lemma ConsistentIsSound(intent: LocalIntent, events: seq<string>, evidence: Evidence, captures: nat)
    requires Readable(intent, evidence) && StatusOf(intent, evidence, captures) == Consistent
    ensures var own := ToDecimalAmount(Number(intent.amount)).value;
      ApiAmountIn(intent, evidence, own) == Ok(own)
    ensures evidence.currency != "" ==> ValidateCurrency(evidence.currency) == ValidateCurrency(intent.currency)
    ensures captures <= 1
    ensures DivergenceOf(intent, events, evidence, captures) ==
      if WebhookLost(evidence, events) then LostWebhook else NoDivergence
  {
  }

  /** INCONSISTENT always names a divergence, and AMBIGUOUS is exactly an unknown provider state
      with at most one capture. */
  lemma VerdictsAreInformative(intent: LocalIntent, events: seq<string>, evidence: Evidence, captures: nat)
    requires Readable(intent, evidence)
    ensures StatusOf(intent, evidence, captures) == Inconsistent ==>
      DivergenceOf(intent, events, evidence, captures) !in {NoDivergence, UnknownProviderState}
    ensures StatusOf(intent, evidence, captures) == Ambiguous
       <==> DivergenceOf(intent, events, evidence, captures) == UnknownProviderState
    ensures StatusOf(intent, evidence, captures) == Ambiguous <==> evidence.status == "UNKNOWN" && captures <= 1
    ensures captures > 1 ==> DivergenceOf(intent, events, evidence, captures) == PossibleDuplicateCapture
  {
  }

  // ---- Independence of order and repetition ----

  lemma {:induction false} CapturesOfConcatenation(a: seq<Execution>, b: seq<Execution>)
    ensures SuccessfulCaptures(a + b) == SuccessfulCaptures(a) + SuccessfulCaptures(b)
  {
    if a == [] {
      assert a + b == b;
    } else {
      assert (a + b)[1..] == a[1..] + b;
      CapturesOfConcatenation(a[1..], b);
    }
  }

  predicate IsCaptured(es: seq<Execution>, k: nat) {
    k < |es| && es[k].operation == ActionType.Capture && es[k].status in {Success, ExternalStatus.Captured}
  }

  /** In the rest of the executions each has one place less. */
  lemma CapturedInRest(es: seq<Execution>, k: nat)
    requires es != []
    ensures IsCaptured(es[1..], k) <==> IsCaptured(es, k + 1)
  {
  }

  lemma {:induction false} CapturedSomewhere(es: seq<Execution>)
    ensures SuccessfulCaptures(es) > 0 <==> exists k: nat :: IsCaptured(es, k)
  {
    if es != [] {
      CapturedSomewhere(es[1..]);
      forall k: nat {
        CapturedInRest(es, k);
      }
      if k: nat :| IsCaptured(es[1..], k) {
        assert IsCaptured(es, k + 1);
      } else if k: nat :| IsCaptured(es, k) {
        assert k > 0 ==> IsCaptured(es[1..], k - 1);
      }
      assert IsSuccessfulCapture(es[0]) <==> IsCaptured(es, 0);
    }
  }

  /** A duplicate is counted exactly if two executions are captures that have succeeded. */
  lemma {:induction false} DuplicateExactlyWhen(es: seq<Execution>)
    ensures SuccessfulCaptures(es) > 1 <==> exists j: nat, k: nat :: j < k && IsCaptured(es, j) && IsCaptured(es, k)
  {
    if es != [] {
      var rest := es[1..];
      DuplicateExactlyWhen(rest);
      CapturedSomewhere(rest);
      forall k: nat {
        CapturedInRest(es, k);
      }
      assert IsSuccessfulCapture(es[0]) <==> IsCaptured(es, 0);
      if SuccessfulCaptures(rest) > 1 {
        var j: nat, k: nat :| j < k && IsCaptured(rest, j) && IsCaptured(rest, k);
        assert IsCaptured(es, j + 1) && IsCaptured(es, k + 1);
      } else if SuccessfulCaptures(es) > 1 {
        var k: nat :| IsCaptured(rest, k);
        assert IsCaptured(es, k + 1);
      } else if j: nat, k: nat :| j < k && IsCaptured(es, j) && IsCaptured(es, k) {
        assert IsCaptured(rest, k - 1);
        assert j > 0 ==> IsCaptured(rest, j - 1);
      }
    }
  }

  lemma CapturesWithout(b: seq<Execution>, k: nat)
    requires k < |b|
    ensures SuccessfulCaptures(b)
         == (if IsSuccessfulCapture(b[k]) then 1 else 0) + SuccessfulCaptures(b[..k] + b[k + 1..])
  {
    var front, back, tail := b[..k], b[k + 1..], b[k..];
    assert b == front + tail;
    assert tail[0] == b[k] && tail[1..] == back;
    CapturesOfConcatenation(front, back);
    CapturesOfConcatenation(front, tail);
  }

  lemma MembersWithout(a: seq<Execution>, b: seq<Execution>, k: nat)
    requires multiset(a) == multiset(b) && a != [] && k < |b| && b[k] == a[0]
    ensures multiset(a[1..]) == multiset(b[..k] + b[k + 1..])
  {
    assert a == [a[0]] + a[1..];
    assert b == b[..k] + ([b[k]] + b[k + 1..]);
    assert multiset(b) == multiset(b[..k] + b[k + 1..]) + multiset{a[0]};
    assert multiset(a[1..]) == multiset(a) - multiset{a[0]};
  }

  /** Counting captures does not depend on the order of the executions. */
  lemma {:induction false} CapturesOfPermutation(a: seq<Execution>, b: seq<Execution>)
    requires multiset(a) == multiset(b)
    ensures SuccessfulCaptures(a) == SuccessfulCaptures(b)
    decreases |a|
  {
    if a == [] {
      assert |multiset(b)| == 0;
    } else {
      assert a[0] in multiset(b);
      var k :| 0 <= k < |b| && b[k] == a[0];
      MembersWithout(a, b, k);
      CapturesOfPermutation(a[1..], b[..k] + b[k + 1..]);
      CapturesWithout(b, k);
    }
  }

  /** Neither reordering or repeating events nor reordering executions changes the verdict. */
  lemma VerdictIgnoresOrder(intent: LocalIntent, evidence: Evidence,
                            events: seq<string>, events': seq<string>,
                            executions: seq<Execution>, executions': seq<Execution>)
    requires Readable(intent, evidence)
    requires forall e :: e in events <==> e in events'
    requires multiset(executions) == multiset(executions')
    ensures var n, n' := SuccessfulCaptures(executions), SuccessfulCaptures(executions');
      && StatusOf(intent, evidence, n) == StatusOf(intent, evidence, n')
      && DivergenceOf(intent, events, evidence, n) == DivergenceOf(intent, events', evidence, n')
  {
    CapturesOfPermutation(executions, executions');
  }
}
