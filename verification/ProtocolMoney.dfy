/** The money that the evidence shows: exactly the amount for each run that attempted to move it. */
module ProtocolMoney {
  import opened Domain
  import opened Counting
  import opened Intents
  import opened Protocol
  import opened ProtocolSafety
  import opened ProtocolTheorems
  import Executor

  function MoneyOf(i: IntentId): EvidenceRow -> Decimal {
    (e: EvidenceRow) => if e.intent == i && Executor.MovesMoney(e.action) then e.amount else 0.0
  }

  /** Captured, refunded and voided amounts of an intent's evidence together. */
  function EvidencedMoney(w: World, i: IntentId): Decimal {
    Sum(w.evidence, MoneyOf(i))
  }

  /** Neither the order nor a webhook gives the intent another amount. */
  predicate KeepsAmount(s: Step, i: IntentId, amount: Decimal) {
    && (s.DoCreateOrder? && s.i == i ==> s.amount == amount)
    && (s.DoWebhook? && s.i == i ==> s.amount == amount || s.amount <= 0.0)
  }

  /** The row that a run has loaded. */
  function LoadedRow(p: Phase): Option<Intent> {
    match p
    case Loaded(row) => Some(row)
    case Counted(row, _) => Some(row)
    case Gathered(job) => Some(job.row)
    case Logged(job) => Some(job.row)
    case Acted(job, _) => Some(job.row)
    case Settled(job, _, _) => Some(job.row)
    case Evidenced(job, _, _) => Some(job.row)
    case Effected(job, _, _) => Some(job.row)
    case _ => None
  }

  predicate AmountFixed(w: World, i: IntentId, amount: Decimal) {
    && (i in w.intents ==> w.intents[i].amount == amount)
    && (forall e | e in w.evidence :: e.intent == i ==> e.amount == amount)
    && (forall r | r in w.runs :: w.runs[r].intent == i && LoadedRow(w.runs[r].phase).Some?
          ==> LoadedRow(w.runs[r].phase).value.amount == amount)
  }

  lemma ReadingKeepsAmount(w: World, s: Step, i: IntentId, amount: Decimal)
    requires AmountFixed(w, i, amount) && IsReading(s)
    ensures AmountFixed(Next(w, s), i, amount)
  {
  }

  lemma ExecutionKeepsAmount(w: World, r: RunId, c: Circumstances, i: IntentId, amount: Decimal)
    requires AmountFixed(w, i, amount)
    ensures AmountFixed(Act(w, r, c), i, amount)
  {
  }

  lemma SettlementKeepsAmount(w: World, r: RunId, ok: bool, command: nat, i: IntentId, amount: Decimal)
    requires AmountFixed(w, i, amount)
    ensures AmountFixed(Settle(w, r, ok, command), i, amount)
  {
  }

  lemma ActingKeepsAmount(w: World, s: Step, i: IntentId, amount: Decimal)
    requires AmountFixed(w, i, amount) && IsActing(s)
    ensures AmountFixed(Next(w, s), i, amount)
  {
    match s
    case DoExecute(r, c) => ExecutionKeepsAmount(w, r, c, i, amount);
    case DoSettle(r, ok, command) => SettlementKeepsAmount(w, r, ok, command, i, amount);
  }

  lemma RecordingKeepsAmount(w: World, s: Step, i: IntentId, amount: Decimal)
    requires AmountFixed(w, i, amount) && IsRecording(s)
    ensures AmountFixed(Next(w, s), i, amount)
  {
  }

  lemma OtherStepKeepsAmount(w: World, s: Step, i: IntentId, amount: Decimal)
    requires AmountFixed(w, i, amount) && KeepsAmount(s, i, amount)
    requires !IsReading(s) && !IsActing(s) && !IsRecording(s)
    ensures AmountFixed(Next(w, s), i, amount)
  {
  }

  lemma StepKeepsAmount(w: World, s: Step, i: IntentId, amount: Decimal)
    requires AmountFixed(w, i, amount) && KeepsAmount(s, i, amount)
    ensures AmountFixed(Next(w, s), i, amount)
  {
    if IsReading(s) {
      ReadingKeepsAmount(w, s, i, amount);
    } else if IsActing(s) {
      ActingKeepsAmount(w, s, i, amount);
    } else if IsRecording(s) {
      RecordingKeepsAmount(w, s, i, amount);
    } else {
      OtherStepKeepsAmount(w, s, i, amount);
    }
  }

  lemma {:induction false} AmountStaysFixed(w: World, steps: seq<Step>, i: IntentId, amount: Decimal)
    requires AmountFixed(w, i, amount) && forall s | s in steps :: KeepsAmount(s, i, amount)
    ensures AmountFixed(RunAll(w, steps), i, amount)
    decreases |steps|
  {
    if steps != [] {
      StepKeepsAmount(w, steps[0], i, amount);
      AmountStaysFixed(Next(w, steps[0]), steps[1..], i, amount);
    }
  }

  lemma AmountFixedWhenReached(steps: seq<Step>, i: IntentId, amount: Decimal)
    requires forall s | s in steps :: KeepsAmount(s, i, amount)
    ensures AmountFixed(Reached(steps), i, amount)
  {
    AmountStaysFixed(Empty, steps, i, amount);
  }

  // ---- Rows that name a movement of money ----

  lemma {:induction false} MoneyIsCounted(evidence: seq<EvidenceRow>, i: IntentId, amount: Decimal)
    requires forall e | e in evidence :: e.intent == i ==> e.amount == amount
    ensures Sum(evidence, MoneyOf(i)) == amount * TrailOf(evidence, i).moneys as real
  {
    if evidence != [] {
      var last := |evidence| - 1;
      MoneyIsCounted(evidence[..last], i, amount);
      assert evidence[last] in evidence;
      OneMore(amount, TrailOf(evidence[..last], i).moneys);
    }
  }

  lemma OneMore(a: real, n: nat)
    ensures a * (n + 1) as real == a * n as real + a
  {
  }

  function MoneyCompletions(w: World, i: IntentId): nat {
    HistoryOf(w.journal, i).moneyDone
  }

  function LostMoney(w: World, i: IntentId): nat {
    HistoryOf(w.journal, i).lostMoney
  }

  /** The runs of an intent that have attempted to move money and written their evidence: completed, lost
      before their update, or now between the two. */
  function MoneyAttempts(w: World, i: IntentId): nat {
    MoneyCompletions(w, i) + LostMoney(w, i) + MoneyInHand(InFlight(w, i))
  }

  lemma MoneyBalances(b: Books)
    requires Balanced(b)
    ensures b.trail.moneys == b.history.moneyDone + b.history.lostMoney + MoneyInHand(b.phase)
    ensures b.history.moneyDone + MoneyInHand(b.phase) <= 1 + b.history.reopened
  {
    assert MoneyInHand(b.phase) == 1 ==> Allowance(b) == 0;
  }

  lemma AttemptsAreRows(w: World, i: IntentId, b: Books)
    requires b == BooksOf(w, i) && Balanced(b)
    ensures TrailOf(w.evidence, i).moneys == MoneyAttempts(w, i)
  {
    MoneyBalances(b);
  }

  lemma AttemptsBounded(w: World, i: IntentId, b: Books)
    requires b == BooksOf(w, i) && Balanced(b)
    ensures MoneyAttempts(w, i) <= 1 + Reopenings(w, i) + LostMoney(w, i)
  {
    MoneyBalances(b);
  }

  lemma AttemptsWhenReached(steps: seq<Step>, i: IntentId)
    ensures var w := Reached(steps);
      && TrailOf(w.evidence, i).moneys == MoneyAttempts(w, i)
      && MoneyAttempts(w, i) <= 1 + Reopenings(w, i) + LostMoney(w, i)
  {
    var w := Reached(steps);
    ReachedBalances(steps, i);
    AttemptsAreRows(w, i, BooksOf(w, i));
    AttemptsBounded(w, i, BooksOf(w, i));
  }

  lemma EvidencedMoneyIn(w: World, i: IntentId, amount: Decimal)
    requires AmountFixed(w, i, amount) && TrailOf(w.evidence, i).moneys == MoneyAttempts(w, i)
    ensures EvidencedMoney(w, i) == amount * MoneyAttempts(w, i) as real
  {
    MoneyIsCounted(w.evidence, i, amount);
  }

  /** An intent of fixed amount: the evidence shows the amount exactly once for each attempt. */
  lemma EvidencedMoneyIsExact(steps: seq<Step>, i: IntentId, amount: Decimal)
    requires forall s | s in steps :: KeepsAmount(s, i, amount)
    ensures var w := Reached(steps); EvidencedMoney(w, i) == amount * MoneyAttempts(w, i) as real
  {
    AmountFixedWhenReached(steps, i, amount);
    AttemptsWhenReached(steps, i);
    EvidencedMoneyIn(Reached(steps), i, amount);
  }

  lemma TimesAtMost(a: real, n: nat, m: nat)
    requires a >= 0.0 && n <= m
    ensures a * n as real <= a * m as real
  {
  }

  lemma WithinOnce(a: real, n: nat)
    requires a > 0.0
    ensures a * n as real <= a <==> n <= 1
  {
    if n > 1 {
      OneMore(a, n - 1);
      TimesAtMost(a, 1, n - 1);
    }
  }

  /** So captured, refunded and voided evidence together stays within the amount if and only if at most
      one run has attempted to move money. */
  lemma EvidencedMoneyWithinExactlyWhen(steps: seq<Step>, i: IntentId, amount: Decimal)
    requires amount > 0.0 && forall s | s in steps :: KeepsAmount(s, i, amount)
    ensures var w := Reached(steps); EvidencedMoney(w, i) <= amount <==> MoneyAttempts(w, i) <= 1
  {
    EvidencedMoneyIsExact(steps, i, amount);
    WithinOnce(amount, MoneyAttempts(Reached(steps), i));
  }

  /** It never shows more than the amount once for each time the intent was opened and once for each
      attempt that was lost between its evidence and its update. */
  lemma EvidencedMoneyBounded(steps: seq<Step>, i: IntentId, amount: Decimal)
    requires amount >= 0.0 && forall s | s in steps :: KeepsAmount(s, i, amount)
    ensures var w := Reached(steps);
      EvidencedMoney(w, i) <= amount * (1 + Reopenings(w, i) + LostMoney(w, i)) as real
  {
    var w := Reached(steps);
    EvidencedMoneyIsExact(steps, i, amount);
    AttemptsWhenReached(steps, i);
    TimesAtMost(amount, MoneyAttempts(w, i), 1 + Reopenings(w, i) + LostMoney(w, i));
  }

  // ---- Which steps lose an attempt ----

  /** The step ends a run of the intent that has attempted to move money and has yet to update. */
  predicate LosesMoney(w: World, s: Step, i: IntentId) {
    IsFailure(s) && AwaitsUpdate(w, s.r, i, true)
  }

  /** The step's entry, if any, in terms of the world `w'` after it. */
  lemma NoteLosesMoney(w: World, s: Step, w': World, note: Option<Entry>, i: IntentId)
    requires w'.journal == if note.None? then w.journal else w.journal + [note.value]
    requires note.Some? ==> IsNoteOf(w, s, note.value)
    requires note.None? && IsFailure(s) ==> !IsBetween(w, s.r)
    ensures LostMoney(w', i) == LostMoney(w, i) + if LosesMoney(w, s, i) then 1 else 0
  {
    if note.Some? {
      AppendEntry(w.journal, note.value, i);
    }
  }

  lemma StepLosesMoney(w: World, s: Step, i: IntentId)
    ensures LostMoney(Next(w, s), i) == LostMoney(w, i) + if LosesMoney(w, s, i) then 1 else 0
  {
    var note := StepNotes(w, s);
    NoteLosesMoney(w, s, Next(w, s), note, i);
  }

  /** How often that happens along a behaviour. */
  function Losings(w: World, steps: seq<Step>, i: IntentId): nat
    decreases |steps|
  {
    if steps == [] then 0
    else (if LosesMoney(w, steps[0], i) then 1 else 0) + Losings(Next(w, steps[0]), steps[1..], i)
  }

  lemma {:induction false} LostMoneyIsLosings(w: World, steps: seq<Step>, i: IntentId)
    ensures LostMoney(RunAll(w, steps), i) == LostMoney(w, i) + Losings(w, steps, i)
    decreases |steps|
  {
    if steps != [] {
      StepLosesMoney(w, steps[0], i);
      LostMoneyIsLosings(Next(w, steps[0]), steps[1..], i);
    }
  }

  /** In particular the evidence never exceeds the amount when no checkout verification reopens the
      intent and no failure hits one of its runs between the evidence of a movement of money and the
      update.  Any other exception or crash, of this intent or another, does no harm. */
  lemma EvidencedMoneyWithinAmount(steps: seq<Step>, i: IntentId, amount: Decimal)
    requires amount >= 0.0 && forall s | s in steps :: KeepsAmount(s, i, amount)
    requires Losings(Empty, steps, i) == 0 && forall s | s in steps :: !(s.DoCheckout? && s.i == i)
    ensures EvidencedMoney(Reached(steps), i) <= amount
  {
    EvidencedMoneyBounded(steps, i, amount);
    ReopenedOnlyByCheckout(Empty, steps, i);
    LostMoneyIsLosings(Empty, steps, i);
  }
}
