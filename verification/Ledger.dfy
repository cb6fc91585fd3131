/** The financial summaries computed from the evidence: per intent by a loop over its rows, for the
    whole system by one aggregate query. */
module Ledger {
  import opened Domain
  import opened Counting
  import opened Intents
  import opened Protocol
  import ProtocolTheorems
  import ProtocolMoney

  datatype Summary = Summary(captured: Decimal, refunded: Decimal, voided: Decimal) {
    function NetEffect(): Decimal {
      captured - refunded
    }

    function Plus(e: EvidenceRow): Summary {
      match e.action
      case Capture => this.(captured := captured + e.amount)
      case Refund => this.(refunded := refunded + e.amount)
      case Void => this.(voided := voided + e.amount)
      case _ => this
    }
  }

  /** The amount that a row gives for one action, as in the CASE expression of the aggregate query. */
  function AmountUnder(a: ActionType): EvidenceRow -> Decimal {
    (e: EvidenceRow) => if e.action == a then e.amount else 0.0
  }

  function EachOnce(): EvidenceRow -> Decimal {
    (e: EvidenceRow) => 1.0
  }

  /** The same for the rows of one intent only. */
  function Of(i: IntentId, f: EvidenceRow -> Decimal): EvidenceRow -> Decimal {
    (e: EvidenceRow) => if e.intent == i then f(e) else 0.0
  }

  function SummaryOf(log: seq<EvidenceRow>, i: IntentId): Summary {
    Summary(
      Sum(log, Of(i, AmountUnder(Capture))),
      Sum(log, Of(i, AmountUnder(Refund))),
      Sum(log, Of(i, AmountUnder(Void))))
  }

  /** The rows that the query for one intent returns, in the order they were written. */
  function RowsOf(log: seq<EvidenceRow>, i: IntentId): seq<EvidenceRow> {
    if log == [] then []
    else if log[|log| - 1].intent == i then RowsOf(log[..|log| - 1], i) + [log[|log| - 1]]
    else RowsOf(log[..|log| - 1], i)
  }

  lemma {:induction false} SumOfRows(log: seq<EvidenceRow>, i: IntentId, f: EvidenceRow -> Decimal)
    ensures Sum(RowsOf(log, i), f) == Sum(log, Of(i, f))
  {
    if log != [] {
      var front, e := log[..|log| - 1], log[|log| - 1];
      SumOfRows(front, i, f);
      if e.intent == i {
        SumAppend(RowsOf(front, i), e, f);
      }
    }
  }

  method GetFinancialSummary(log: seq<EvidenceRow>, i: IntentId) returns (s: Summary)
    ensures s == SummaryOf(log, i)
  {
    var rows := RowsOf(log, i);
    var captured, refunded, voided := 0.0, 0.0, 0.0;
    for k := 0 to |rows|
      invariant captured == Sum(rows[..k], AmountUnder(Capture))
      invariant refunded == Sum(rows[..k], AmountUnder(Refund))
      invariant voided == Sum(rows[..k], AmountUnder(Void))
    {
      assert rows[..k + 1][..k] == rows[..k];
      match rows[k].action
      case Capture => captured := captured + rows[k].amount;
      case Refund => refunded := refunded + rows[k].amount;
      case Void => voided := voided + rows[k].amount;
      case _ =>
    }
    assert rows[..|rows|] == rows;
    SumOfRows(log, i, AmountUnder(Capture));
    SumOfRows(log, i, AmountUnder(Refund));
    SumOfRows(log, i, AmountUnder(Void));
    return Summary(captured, refunded, voided);
  }

  /** The aggregate over the whole log, and the number of its rows. */
  function SystemSummary(log: seq<EvidenceRow>): (Summary, nat) {
    (Summary(Sum(log, AmountUnder(Capture)), Sum(log, AmountUnder(Refund)), Sum(log, AmountUnder(Void))), |log|)
  }

  // ---- The partition ----

  function TotalOf(log: seq<EvidenceRow>, f: EvidenceRow -> Decimal): IntentId -> Decimal {
    (i: IntentId) => Sum(log, Of(i, f))
  }

  predicate Partitions(ids: seq<IntentId>, log: seq<EvidenceRow>) {
    && (forall j, k | 0 <= j < k < |ids| :: ids[j] != ids[k])
    && (forall e | e in log :: e.intent in ids)
  }

  /** Of the terms of a sum over distinct intents a new row changes the one of its own intent. */
  lemma {:induction false} OneTermChanges(ids: seq<IntentId>, log: seq<EvidenceRow>, e: EvidenceRow, f: EvidenceRow -> Decimal)
    requires forall j, k | 0 <= j < k < |ids| :: ids[j] != ids[k]
    ensures Sum(ids, TotalOf(log + [e], f)) == Sum(ids, TotalOf(log, f)) + if e.intent in ids then f(e) else 0.0
  {
    if ids != [] {
      var front, i := ids[..|ids| - 1], ids[|ids| - 1];
      OneTermChanges(front, log, e, f);
      SumAppend(log, e, Of(i, f));
      assert ids == front + [i];
      assert i !in front;
    }
  }

  lemma {:induction false} TotalsAddUp(ids: seq<IntentId>, log: seq<EvidenceRow>, f: EvidenceRow -> Decimal)
    requires Partitions(ids, log)
    ensures Sum(ids, TotalOf(log, f)) == Sum(log, f)
  {
    if log == [] {
      SumOfNothing(ids, f);
    } else {
      var front, e := log[..|log| - 1], log[|log| - 1];
      assert log == front + [e];
      TotalsAddUp(ids, front, f);
      OneTermChanges(ids, front, e, f);
    }
  }

  lemma {:induction false} SumOfNothing(ids: seq<IntentId>, f: EvidenceRow -> Decimal)
    ensures Sum(ids, TotalOf([], f)) == 0.0
  {
    if ids != [] {
      SumOfNothing(ids[..|ids| - 1], f);
    }
  }

  lemma {:induction false} SumOfDifferences(ids: seq<IntentId>, log: seq<EvidenceRow>)
    ensures Sum(ids, (i: IntentId) => SummaryOf(log, i).NetEffect())
         == Sum(ids, TotalOf(log, AmountUnder(Capture))) - Sum(ids, TotalOf(log, AmountUnder(Refund)))
  {
    if ids != [] {
      SumOfDifferences(ids[..|ids| - 1], log);
    }
  }

  lemma {:induction false} SumOfOnes(rows: seq<EvidenceRow>)
    ensures Sum(rows, EachOnce()) == |rows| as real
  {
    if rows != [] {
      SumOfOnes(rows[..|rows| - 1]);
    }
  }

  lemma {:induction false} SameTerms(ids: seq<IntentId>, f: IntentId -> Decimal, g: IntentId -> Decimal)
    requires forall i :: f(i) == g(i)
    ensures Sum(ids, f) == Sum(ids, g)
  {
    if ids != [] {
      SameTerms(ids[..|ids| - 1], f, g);
    }
  }

  /** The summaries of distinct intents that cover the log add up to the system summary, in every
      column, in the net effect, and in the number of rows they are made of. */
  lemma SummariesAddUp(ids: seq<IntentId>, log: seq<EvidenceRow>)
    requires Partitions(ids, log)
    ensures var (system, actions) := SystemSummary(log);
      && Sum(ids, (i: IntentId) => SummaryOf(log, i).captured) == system.captured
      && Sum(ids, (i: IntentId) => SummaryOf(log, i).refunded) == system.refunded
      && Sum(ids, (i: IntentId) => SummaryOf(log, i).voided) == system.voided
      && Sum(ids, (i: IntentId) => SummaryOf(log, i).NetEffect()) == system.NetEffect()
      && Sum(ids, (i: IntentId) => |RowsOf(log, i)| as real) == actions as real
  {
    forall a: ActionType {
      TotalsAddUp(ids, log, AmountUnder(a));
    }
    SumOfDifferences(ids, log);
    SameTerms(ids, (i: IntentId) => SummaryOf(log, i).captured, TotalOf(log, AmountUnder(Capture)));
    SameTerms(ids, (i: IntentId) => SummaryOf(log, i).refunded, TotalOf(log, AmountUnder(Refund)));
    SameTerms(ids, (i: IntentId) => SummaryOf(log, i).voided, TotalOf(log, AmountUnder(Void)));
    RowsAddUp(ids, log);
  }

  lemma RowsAddUp(ids: seq<IntentId>, log: seq<EvidenceRow>)
    requires Partitions(ids, log)
    ensures Sum(ids, (i: IntentId) => |RowsOf(log, i)| as real) == |log| as real
  {
    TotalsAddUp(ids, log, EachOnce());
    SumOfOnes(log);
    forall i: IntentId ensures |RowsOf(log, i)| as real == TotalOf(log, EachOnce())(i) {
      SumOfOnes(RowsOf(log, i));
      SumOfRows(log, i, EachOnce());
    }
    SameTerms(ids, (i: IntentId) => |RowsOf(log, i)| as real, TotalOf(log, EachOnce()));
  }

  // ---- The protocol's rows ----

  /** Of all steps only the evidence step of a run changes a summary, and it changes that of the run's
      intent alone, by exactly the row it writes. */
  lemma StepChangesOneSummary(w: World, s: Step, j: IntentId)
    ensures var w' := Next(w, s);
      if w'.evidence == w.evidence then SummaryOf(w'.evidence, j) == SummaryOf(w.evidence, j)
      else
        && s.DoEvidence? && s.r in w.runs && w.runs[s.r].phase.Settled?
        && var e := EvidenceOf(w.runs[s.r].intent, w.runs[s.r].phase.job, w.runs[s.r].phase.fin);
           SummaryOf(w'.evidence, j) == if j == e.intent then SummaryOf(w.evidence, j).Plus(e) else SummaryOf(w.evidence, j)
  {
    var w' := Next(w, s);
    if w'.evidence != w.evidence {
      var e := EvidenceOf(w.runs[s.r].intent, w.runs[s.r].phase.job, w.runs[s.r].phase.fin);
      assert w'.evidence == w.evidence + [e];
      SumAppend(w.evidence, e, Of(j, AmountUnder(Capture)));
      SumAppend(w.evidence, e, Of(j, AmountUnder(Refund)));
      SumAppend(w.evidence, e, Of(j, AmountUnder(Void)));
    }
  }

  lemma {:induction false} SummaryIsEvidencedMoney(log: seq<EvidenceRow>, i: IntentId)
    ensures SummaryOf(log, i).captured + SummaryOf(log, i).refunded + SummaryOf(log, i).voided
         == Sum(log, ProtocolMoney.MoneyOf(i))
  {
    if log != [] {
      SummaryIsEvidencedMoney(log[..|log| - 1], i);
    }
  }

  /** What the summary of an intent of fixed amount shows in any reachable state: the amount once for each
      run that has attempted to move money, and no more than the amount exactly if there is at most one. */
  lemma SummaryIsExact(steps: seq<Step>, i: IntentId, amount: Decimal)
    requires amount > 0.0 && forall s | s in steps :: ProtocolMoney.KeepsAmount(s, i, amount)
    ensures var w := ProtocolTheorems.Reached(steps);
      var s, n := SummaryOf(w.evidence, i), ProtocolMoney.MoneyAttempts(w, i);
      && s.captured + s.refunded + s.voided == amount * n as real
      && (s.captured + s.refunded + s.voided <= amount <==> n <= 1)
  {
    ProtocolMoney.EvidencedMoneyIsExact(steps, i, amount);
    ProtocolMoney.EvidencedMoneyWithinExactlyWhen(steps, i, amount);
    SummaryIsEvidencedMoney(ProtocolTheorems.Reached(steps).evidence, i);
  }

  /** So it stays within the amount as long as no checkout verification reopens the intent and no failure
      hits one of its runs between the evidence of a movement of money and the update. */
  lemma SummaryWithinAmount(steps: seq<Step>, i: IntentId, amount: Decimal)
    requires amount >= 0.0 && forall s | s in steps :: ProtocolMoney.KeepsAmount(s, i, amount)
    requires ProtocolMoney.Losings(Empty, steps, i) == 0 && forall s | s in steps :: !(s.DoCheckout? && s.i == i)
    ensures var s := SummaryOf(ProtocolTheorems.Reached(steps).evidence, i);
      s.captured + s.refunded + s.voided <= amount
  {
    ProtocolMoney.EvidencedMoneyWithinAmount(steps, i, amount);
    SummaryIsEvidencedMoney(ProtocolTheorems.Reached(steps).evidence, i);
  }
}
