/** Behaviours of the resolution protocol that show that the bounds of ProtocolTheorems are reached
    and where their conditions cannot be dropped. */
module ProtocolWitnesses {
  import opened Domain
  import opened Counting
  import opened Intents
  import opened StateMachine
  import opened Protocol
  import opened ProtocolSafety
  import opened ProtocolTheorems
  import opened ProtocolMoney
  import Money
  import Executor
  import Reconciliation
  import ProtocolExpiry

  // ---- An intent of 100.00 INR, positive evidence, and a detective that wants to capture ----

  const PAYMENT := Some("pay_1")

  const ROW := Fresh(100.0, "INR", PendingRail, PAYMENT)

  const ARRIVAL := DoWebhook(0, false, 100.0, "INR", PAYMENT)

  const ANSWERS := Answers(
    NegotiatorResult(Success, PAYMENT, 100.0, "INR"),
    DetectiveResult(ActionType.Capture, 0.9), false, Reconciliation.NoDivergence)

  function CircumstancesWith(reply: Executor.ProviderReply): Circumstances {
    Circumstances("key", PAYMENT, 0.0, Executor.Environment(0.0, Executor.Api, reply, Executor.RailOther, 0))
  }

  /** The provider captures, and its answer cannot be read. */
  const UNREADABLE := Circumstances("key", PAYMENT, 0.0,
                                    Executor.Environment(0.0, Executor.Api, Executor.OtherError, Executor.RailOther, 1))

  function TheJob(row: Intent): Job {
    JobOf(row, false, ANSWERS)
  }

  function Answer(reply: Executor.ProviderReply): Executor.FinOpsResult {
    Executor.FinOpsResult(ActionType.Capture, if reply == Executor.Accepted then Success else ExternalStatus.Failed)
  }

  predicate IsWorkable(row: Intent) {
    row.amount == 100.0 && row.currency == "INR" && row.state in {PendingRail, PaymentState.Authorized}
  }

  predicate IsOpen(w: World, i: IntentId, r: RunId) {
    && i in w.intents && i !in w.locks && r !in w.runs && Captures(w, i) == 0
    && IsWorkable(w.intents[i])
  }

  /** The statements of a run up to the count of captures. */
  function Opening(r: RunId, i: IntentId): seq<Step> {
    [DoBegin(r, i)] + [DoConnect(r, true)] + [DoLoad(r)] + [DoCount(r)]
  }

  /** ... and up to the policy's decision; the VERIFY row's insert fails. */
  function Approach(r: RunId, i: IntentId): seq<Step> {
    Opening(r, i) + [DoGather(r, ANSWERS)] + [DoLogVerify(r, false)]
  }

  lemma OpeningReaches(w: World, r: RunId, i: IntentId)
    requires IsOpen(w, i, r)
    ensures RunAll(w, Opening(r, i)) == AtPhase(w, r, i, Counted(w.intents[i], false))
  {
    var row := w.intents[i];
    var w1, w2, w3 := AtPhase(w, r, i, Locked), AtPhase(w, r, i, Connected), AtPhase(w, r, i, Loaded(row));
    assert RunAll(w, []) == w;
    var steps := Advance(w, [], w, DoBegin(r, i), w1);
    MoveOn(w, r, i, Locked, Connected);
    steps := Advance(w, steps, w1, DoConnect(r, true), w2);
    MoveOn(w, r, i, Connected, Loaded(row));
    steps := Advance(w, steps, w2, DoLoad(r), w3);
    MoveOn(w, r, i, Loaded(row), Counted(row, false));
    assert Captures(w3, i) == Captures(w, i);
    steps := Advance(w, steps, w3, DoCount(r), AtPhase(w, r, i, Counted(row, false)));
    assert [] + [DoBegin(r, i)] == [DoBegin(r, i)];
  }

  lemma ApproachReaches(w: World, r: RunId, i: IntentId)
    requires IsOpen(w, i, r)
    ensures RunAll(w, Approach(r, i)) == AtPhase(w, r, i, Logged(TheJob(w.intents[i])))
  {
    var row := w.intents[i];
    OpeningReaches(w, r, i);
    MoveOn(w, r, i, Counted(row, false), Gathered(TheJob(row)));
    MoveOn(w, r, i, Gathered(TheJob(row)), Logged(TheJob(row)));
    var steps := Advance(w, Opening(r, i), AtPhase(w, r, i, Counted(row, false)), DoGather(r, ANSWERS),
                         AtPhase(w, r, i, Gathered(TheJob(row))));
    steps := Advance(w, steps, AtPhase(w, r, i, Gathered(TheJob(row))), DoLogVerify(r, false),
                     AtPhase(w, r, i, Logged(TheJob(row))));
  }

  /** The job is approved, and the executor answers with what the provider's reply means. */
  lemma JobIsApproved(row: Intent, reply: Executor.ProviderReply)
    requires reply != Executor.OtherError
    requires IsWorkable(row)
    ensures TheJob(row).Approved()
    ensures OutcomeOf(TheJob(row), CircumstancesWith(reply)) == Executor.Finished(Answer(reply))
    ensures FinalState(TheJob(row), Some(Answer(reply)))
         == if reply == Executor.ApiError && row.state == PendingRail then PaymentState.Failed else PaymentState.ManualReview
  {
    assert Money.Upper("INR") == "INR";
  }

  function Captured(w: World, i: IntentId, reply: Executor.ProviderReply): World {
    if reply == Executor.Accepted then w.(journal := w.journal + [CaptureCall(i, 1, true)]) else w
  }

  lemma ActReaches(w: World, r: RunId, i: IntentId, row: Intent, reply: Executor.ProviderReply)
    requires reply != Executor.OtherError
    requires IsWorkable(row)
    ensures Next(AtPhase(w, r, i, Logged(TheJob(row))), DoExecute(r, CircumstancesWith(reply)))
         == AtPhase(Captured(w, i, reply), r, i, Acted(TheJob(row), Some(Answer(reply))))
  {
    JobIsApproved(row, reply);
    MoveOn(Captured(w, i, reply), r, i, Logged(TheJob(row)), Acted(TheJob(row), Some(Answer(reply))));
  }

  /** A run from its beginning to the executor's answer. */
  lemma Attempt(w0: World, steps: seq<Step>, w: World, r: RunId, i: IntentId, reply: Executor.ProviderReply)
      returns (longer: seq<Step>)
    requires RunAll(w0, steps) == w && IsOpen(w, i, r) && reply != Executor.OtherError
    ensures longer == steps + Approach(r, i) + [DoExecute(r, CircumstancesWith(reply))]
    ensures RunAll(w0, longer)
         == AtPhase(Captured(w, i, reply), r, i, Acted(TheJob(w.intents[i]), Some(Answer(reply))))
  {
    RunConcat(w0, steps, Approach(r, i));
    ApproachReaches(w, r, i);
    ActReaches(w, r, i, w.intents[i], reply);
    longer := Advance(w0, steps + Approach(r, i), AtPhase(w, r, i, Logged(TheJob(w.intents[i]))),
                      DoExecute(r, CircumstancesWith(reply)),
                      AtPhase(Captured(w, i, reply), r, i, Acted(TheJob(w.intents[i]), Some(Answer(reply)))));
  }

  lemma DieReaches(w: World, r: RunId, i: IntentId, phase: Phase)
    requires r !in w.runs
    ensures Next(AtPhase(w, r, i, phase), DoCrash(r)) == NoteLoss(w, i, phase).(locks := w.locks[i := r])
  {
    assert w.runs[r := Run(i, phase)] - {r} == w.runs;
  }

  lemma ExpireReaches(w: World, r: RunId, i: IntentId)
    requires r !in w.runs && i !in w.locks
    ensures Next(w.(locks := w.locks[i := r]), DoExpire(i)) == w
  {
    assert w.locks[i := r] - {i} == w.locks;
  }

  /** The run's process dies, and the lock expires. */
  lemma DieAndExpire(w0: World, steps: seq<Step>, w: World, r: RunId, i: IntentId, phase: Phase)
      returns (longer: seq<Step>)
    requires RunAll(w0, steps) == AtPhase(w, r, i, phase) && r !in w.runs && i !in w.locks
    ensures longer == steps + [DoCrash(r)] + [DoExpire(i)]
    ensures RunAll(w0, longer) == NoteLoss(w, i, phase)
  {
    var noted := NoteLoss(w, i, phase);
    var dead := noted.(locks := noted.locks[i := r]);
    DieReaches(w, r, i, phase);
    ExpireReaches(noted, r, i);
    longer := Advance(w0, steps, AtPhase(w, r, i, phase), DoCrash(r), dead);
    longer := Advance(w0, longer, dead, DoExpire(i), noted);
  }

  const START := Empty.(intents := map[0 := ROW])

  lemma Arrive() returns (steps: seq<Step>)
    ensures steps == [ARRIVAL] && Reached(steps) == START
  {
    assert RunAll(Empty, []) == Empty;
    assert map[][0 := ROW] == map[0 := ROW];
    steps := Advance(Empty, [], Empty, ARRIVAL, START);
  }

  lemma StartIsOpen(journal: seq<Entry>, evidence: seq<EvidenceRow>, r: RunId)
    ensures IsOpen(START.(journal := journal, evidence := evidence), 0, r)
  {
  }

  /** A crash between the provider's capture and the insert of its row lets the intent be captured
      again: two captures at the provider, one of them unrecorded. */
  lemma CaptureTwiceAtProvider() returns (steps: seq<Step>)
    ensures ProviderCaptures(Reached(steps), 0) == 2 && UnrecordedCaptures(Reached(steps), 0) == 1
    ensures Reopenings(Reached(steps), 0) == 0
  {
    var done, lost := CaptureCall(0, 1, true), UnrecordedCapture(0);
    steps := Arrive();
    StartIsOpen([], [], 1);
    steps := Attempt(Empty, steps, START, 1, 0, Executor.Accepted);
    steps := DieAndExpire(Empty, steps, START.(journal := [done]), 1, 0, Acted(TheJob(ROW), Some(Answer(Executor.Accepted))));
    var w := START.(journal := [done] + [lost]);
    StartIsOpen([done] + [lost], [], 2);
    steps := Attempt(Empty, steps, w, 2, 0, Executor.Accepted);
    assert Reached(steps).journal == [done] + [lost] + [done];
    AppendEntry([done] + [lost], done, 0);
    AppendEntry([done], lost, 0);
    AppendEntry([], done, 0);
    assert [] + [done] == [done];
  }

  lemma UnreadableEnds(w: World, r: RunId, i: IntentId, row: Intent)
    requires r !in w.runs && i !in w.locks && IsWorkable(row)
    ensures Next(AtPhase(w, r, i, Logged(TheJob(row))), DoExecute(r, UNREADABLE))
         == w.(journal := w.journal + [CaptureCall(i, 1, false)])
  {
    JobIsApproved(row, Executor.Accepted);
    UnreadableRaises(row);
    FinishAt(w.(journal := w.journal + [CaptureCall(i, 1, false)]), r, i, Logged(TheJob(row)));
    assert w.locks - {i} == w.locks;
  }

  /** The run of a call whose answer cannot be read: it ends with an error and leaves no trace. */
  lemma UnreadableAnswer(w0: World, steps: seq<Step>, w: World, r: RunId, i: IntentId) returns (longer: seq<Step>)
    requires RunAll(w0, steps) == w && IsOpen(w, i, r)
    ensures longer == steps + Approach(r, i) + [DoExecute(r, UNREADABLE)]
    ensures RunAll(w0, longer) == w.(journal := w.journal + [CaptureCall(i, 1, false)])
  {
    RunConcat(w0, steps, Approach(r, i));
    ApproachReaches(w, r, i);
    UnreadableEnds(w, r, i, w.intents[i]);
    longer := Advance(w0, steps + Approach(r, i), AtPhase(w, r, i, Logged(TheJob(w.intents[i]))), DoExecute(r, UNREADABLE),
                      w.(journal := w.journal + [CaptureCall(i, 1, false)]));
  }

  lemma UnreadableRaises(row: Intent)
    requires IsWorkable(row)
    ensures OutcomeOf(TheJob(row), UNREADABLE) == Executor.Raised && CapturesMade(TheJob(row), UNREADABLE) == 1
  {
    assert Money.Upper("INR") == "INR";
  }

  /** Neither an exception from outside the call nor a crash, nor a checkout. */
  predicate IsCalm(s: Step) {
    !IsFailure(s) && !s.DoCrashInCall? && !s.DoCheckout?
  }

  lemma ApproachIsCalm(r: RunId, i: IntentId)
    ensures forall s | s in Approach(r, i) :: IsCalm(s)
  {
  }

  const HIDDEN := CaptureCall(0, 1, false)
  const REPORTED := CaptureCall(0, 1, true)

  lemma LoseSight() returns (steps: seq<Step>)
    ensures Reached(steps) == START.(journal := [HIDDEN])
    ensures forall s | s in steps :: IsCalm(s)
  {
    var arrived := Arrive();
    StartIsOpen([], [], 1);
    steps := UnreadableAnswer(Empty, arrived, START, 1, 0);
    ApproachIsCalm(1, 0);
    assert [] + [HIDDEN] == [HIDDEN];
  }

  lemma TwiceInTheHistory()
    ensures var h := HistoryOf([HIDDEN] + [REPORTED], 0); h.provided == 2 && h.unreported == 1 && h.unrecorded == 0
  {
    AppendEntry([HIDDEN], REPORTED, 0);
    AppendEntry([], HIDDEN, 0);
    assert [] + [HIDDEN] == [HIDDEN];
  }

  /** Without any crash or lost row: a capture whose answer cannot be read is not known to the service,
      and the next run captures again. */
  lemma CaptureTwiceUnreported() returns (steps: seq<Step>)
    ensures forall s | s in steps :: IsCalm(s)
    ensures ProviderCaptures(Reached(steps), 0) == 2 && UnreportedCaptures(Reached(steps), 0) == 1
    ensures UnrecordedCaptures(Reached(steps), 0) == 0
  {
    var blind := LoseSight();
    StartIsOpen([HIDDEN], [], 2);
    steps := Attempt(Empty, blind, START.(journal := [HIDDEN]), 2, 0, Executor.Accepted);
    ApproachIsCalm(2, 0);
    TwiceInTheHistory();
    assert Reached(steps).journal == [HIDDEN] + [REPORTED];
  }

  const FAILED_CAPTURE := EvidenceRow(0, ActionType.Capture, 100.0, Approve)

  /** The state in which a failed capture leaves the intent. */
  function FailedState(row: Intent): PaymentState {
    if row.state == PendingRail then PaymentState.Failed else PaymentState.ManualReview
  }

  function FailedPhase(row: Intent): Phase {
    Evidenced(TheJob(row), Some(Answer(Executor.ApiError)), FailedState(row))
  }

  lemma FailedSettles(w: World, r: RunId, row: Intent)
    requires IsWorkable(row)
    ensures var fin := Some(Answer(Executor.ApiError));
      Next(AtPhase(w, r, 0, Acted(TheJob(row), fin)), DoSettle(r, true, 0))
      == AtPhase(w, r, 0, Settled(TheJob(row), fin, FailedState(row)))
  {
    JobIsApproved(row, Executor.ApiError);
    var job, fin := TheJob(row), Some(Answer(Executor.ApiError));
    MoveOn(w, r, 0, Acted(job, fin), Settled(job, fin, FailedState(row)));
  }

  lemma FailedIsEvidenced(w: World, r: RunId, row: Intent)
    requires IsWorkable(row)
    ensures Next(AtPhase(w, r, 0, Settled(TheJob(row), Some(Answer(Executor.ApiError)), FailedState(row))), DoEvidence(r))
         == AtPhase(w.(evidence := w.evidence + [FAILED_CAPTURE]), r, 0, FailedPhase(row))
  {
    JobIsApproved(row, Executor.ApiError);
    MoveOn(w.(evidence := w.evidence + [FAILED_CAPTURE]), r, 0,
           Settled(TheJob(row), Some(Answer(Executor.ApiError)), FailedState(row)), FailedPhase(row));
  }

  /** From a failed capture to its evidence row. */
  lemma WriteEvidence(w0: World, steps: seq<Step>, w: World, r: RunId, row: Intent) returns (longer: seq<Step>)
    requires IsWorkable(row)
    requires RunAll(w0, steps) == AtPhase(w, r, 0, Acted(TheJob(row), Some(Answer(Executor.ApiError))))
    ensures longer == steps + [DoSettle(r, true, 0)] + [DoEvidence(r)]
    ensures RunAll(w0, longer) == AtPhase(w.(evidence := w.evidence + [FAILED_CAPTURE]), r, 0, FailedPhase(row))
  {
    var fin := Some(Answer(Executor.ApiError));
    var acted, settled := AtPhase(w, r, 0, Acted(TheJob(row), fin)), AtPhase(w, r, 0, Settled(TheJob(row), fin, FailedState(row)));
    FailedSettles(w, r, row);
    longer := Advance(w0, steps, acted, DoSettle(r, true, 0), settled);
    FailedIsEvidenced(w, r, row);
    longer := Advance(w0, longer, settled, DoEvidence(r),
                      AtPhase(w.(evidence := w.evidence + [FAILED_CAPTURE]), r, 0, FailedPhase(row)));
  }

  /** Neither a checkout verification nor a change of the amount. */
  predicate IsHarmless(s: Step) {
    KeepsAmount(s, 0, 100.0) && !s.DoCheckout?
  }

  lemma HarmlessAttempt(steps: seq<Step>, r: RunId) returns (longer: seq<Step>)
    requires forall s | s in steps :: IsHarmless(s)
    ensures longer == steps + Approach(r, 0) + [DoExecute(r, CircumstancesWith(Executor.ApiError))]
                    + [DoSettle(r, true, 0)] + [DoEvidence(r)]
    ensures forall s | s in longer :: IsHarmless(s)
  {
    longer := steps + Approach(r, 0) + [DoExecute(r, CircumstancesWith(Executor.ApiError))]
            + [DoSettle(r, true, 0)] + [DoEvidence(r)];
    assert forall s | s in Approach(r, 0) :: IsHarmless(s);
  }

  const LOSS := LostUpdate(0, true, true, false)
  const LOST_ONCE := START.(evidence := [FAILED_CAPTURE], journal := [LOSS])

  lemma LoseOnce() returns (died: seq<Step>)
    ensures Reached(died) == LOST_ONCE
    ensures forall s | s in died :: IsHarmless(s)
  {
    var arrived := Arrive();
    StartIsOpen([], [], 1);
    var first := FailedAttempt(arrived, START, 1);
    var a := HarmlessAttempt(arrived, 1);
    assert [] + [LOSS] == [LOSS] && [] + [FAILED_CAPTURE] == [FAILED_CAPTURE];
    FailedLoss(START.(evidence := [FAILED_CAPTURE]));
    died := DieAndExpire(Empty, first, START.(evidence := [FAILED_CAPTURE]), 1, 0, FailedPhase(ROW));
  }

  lemma FailedLoss(w: World)
    ensures NoteLoss(w, 0, FailedPhase(ROW)) == w.(journal := w.journal + [LOSS])
  {
    JobIsApproved(ROW, Executor.ApiError);
  }

  /** A crash between the evidence and the update of the intent: two attempted captures, both of them
      failed, are both in the evidence, which then shows twice the amount. */
  lemma EvidenceExceedsAmount() returns (steps: seq<Step>)
    ensures forall s | s in steps :: KeepsAmount(s, 0, 100.0) && !s.DoCheckout?
    ensures EvidencedMoney(Reached(steps), 0) == 200.0
    ensures ProviderCaptures(Reached(steps), 0) == 0
  {
    var died := LoseOnce();
    StartIsOpen([LOSS], [FAILED_CAPTURE], 2);
    steps := FailedAttempt(died, LOST_ONCE, 2);
    var b := HarmlessAttempt(died, 2);
    TwiceTheMoney();
    AppendEntry([], LOSS, 0);
    assert [] + [LOSS] == [LOSS];
  }

  lemma FailedAttempt(steps: seq<Step>, w: World, r: RunId) returns (longer: seq<Step>)
    requires RunAll(Empty, steps) == w && IsOpen(w, 0, r)
    ensures longer == steps + Approach(r, 0) + [DoExecute(r, CircumstancesWith(Executor.ApiError))]
                    + [DoSettle(r, true, 0)] + [DoEvidence(r)]
    ensures RunAll(Empty, longer) == AtPhase(w.(evidence := w.evidence + [FAILED_CAPTURE]), r, 0, FailedPhase(w.intents[0]))
  {
    longer := Attempt(Empty, steps, w, r, 0, Executor.ApiError);
    longer := WriteEvidence(Empty, longer, w, r, w.intents[0]);
  }

  function Done(row: Intent): Intent {
    row.(state := FailedState(row), version := row.version + 1, resolution := Resolution.Resolved)
  }

  /** From the evidence of a failed capture to the end of the run. */
  lemma Complete(steps: seq<Step>, w: World, r: RunId, row: Intent) returns (longer: seq<Step>)
    requires 0 in w.intents && w.intents[0] == row && IsWorkable(row) && 0 !in w.locks && r !in w.runs
    requires RunAll(Empty, steps) == AtPhase(w, r, 0, FailedPhase(row))
    ensures longer == steps + [DoEffect(r)] + [DoUpdate(r)] + [DoRelease(r)]
    ensures RunAll(Empty, longer) == w.(
      intents := w.intents[0 := Done(row)],
      journal := w.journal + [Completed(0, row.version, true, true, false, FailedState(row))])
  {
    var job, fin, final := TheJob(row), Some(Answer(Executor.ApiError)), FailedState(row);
    MoveOn(w, r, 0, FailedPhase(row), Effected(job, fin, final));
    assert Next(AtPhase(w, r, 0, FailedPhase(row)), DoEffect(r)) == AtPhase(w, r, 0, Effected(job, fin, final));
    longer := Advance(Empty, steps, AtPhase(w, r, 0, FailedPhase(row)), DoEffect(r),
                      AtPhase(w, r, 0, Effected(job, fin, final)));
    var w' := w.(intents := w.intents[0 := Done(row)],
                 journal := w.journal + [Completed(0, row.version, true, true, false, final)]);
    UpdateReaches(w, r, row);
    longer := Advance(Empty, longer, AtPhase(w, r, 0, Effected(job, fin, final)), DoUpdate(r), AtPhase(w', r, 0, Updated));
    ReleaseReaches(w', r);
    longer := Advance(Empty, longer, AtPhase(w', r, 0, Updated), DoRelease(r), w');
  }

  lemma ReleaseReaches(w: World, r: RunId)
    requires 0 !in w.locks && r !in w.runs
    ensures Next(AtPhase(w, r, 0, Updated), DoRelease(r)) == w
  {
    assert w.runs[r := Run(0, Updated)] - {r} == w.runs;
    assert w.locks[0 := r] - {0} == w.locks;
  }

  lemma UpdateReaches(w: World, r: RunId, row: Intent)
    requires 0 in w.intents && w.intents[0] == row && IsWorkable(row)
    ensures var final := FailedState(row);
      Next(AtPhase(w, r, 0, Effected(TheJob(row), Some(Answer(Executor.ApiError)), final)), DoUpdate(r))
      == AtPhase(w.(intents := w.intents[0 := Done(row)],
                    journal := w.journal + [Completed(0, row.version, true, true, false, final)]), r, 0, Updated)
  {
    JobIsApproved(row, Executor.ApiError);
    MoveOn(w.(intents := w.intents[0 := Done(row)],
              journal := w.journal + [Completed(0, row.version, true, true, false, FailedState(row))]), r, 0,
           Effected(TheJob(row), Some(Answer(Executor.ApiError)), FailedState(row)), Updated);
  }

  // ---- A run that refuses to decide, overtaken by a failure report ----

  const HESITANT := ANSWERS.(det := DetectiveResult(ActionType.Capture, 0.5))

  const IDLE := JobOf(ROW, false, HESITANT)

  const HESITATION := EvidenceRow(0, NoAction, 100.0, DecisionType.ManualReview)

  lemma IdleIsUndecided()
    ensures IDLE.Decision() == DecisionType.ManualReview && !IDLE.OpensCase() && FinalState(IDLE, None) == PendingRail
  {
  }

  lemma IdleNext(w: World)
    ensures Next(AtPhase(w, 1, 0, Counted(ROW, false)), DoGather(1, HESITANT)) == AtPhase(w, 1, 0, Gathered(IDLE))
    ensures Next(AtPhase(w, 1, 0, Gathered(IDLE)), DoLogVerify(1, false)) == AtPhase(w, 1, 0, Logged(IDLE))
    ensures Next(AtPhase(w, 1, 0, Logged(IDLE)), DoExecute(1, UNREADABLE)) == AtPhase(w, 1, 0, Acted(IDLE, None))
  {
    IdleIsUndecided();
    MoveOn(w, 1, 0, Counted(ROW, false), Gathered(IDLE));
    MoveOn(w, 1, 0, Gathered(IDLE), Logged(IDLE));
    MoveOn(w, 1, 0, Logged(IDLE), Acted(IDLE, None));
  }

  lemma IdleSettles(w: World)
    ensures Next(AtPhase(w, 1, 0, Acted(IDLE, None)), DoSettle(1, true, 0))
         == AtPhase(w, 1, 0, Settled(IDLE, None, PendingRail))
    ensures Next(AtPhase(w, 1, 0, Evidenced(IDLE, None, PendingRail)), DoEffect(1))
         == AtPhase(w, 1, 0, Effected(IDLE, None, PendingRail))
  {
    IdleIsUndecided();
    MoveOn(w, 1, 0, Acted(IDLE, None), Settled(IDLE, None, PendingRail));
    MoveOn(w, 1, 0, Evidenced(IDLE, None, PendingRail), Effected(IDLE, None, PendingRail));
  }

  const HELD := START.(evidence := [HESITATION])
  const REPORTED_ROW := ROW.(state := PaymentState.Failed)
  const REVERTED_ROW := ROW.(version := 2, resolution := InProgress)
  const IDLE_DONE := Completed(0, 1, false, false, false, PendingRail)

  lemma IdleIsEvidenced()
    ensures Next(AtPhase(START, 1, 0, Settled(IDLE, None, PendingRail)), DoEvidence(1))
         == AtPhase(HELD, 1, 0, Evidenced(IDLE, None, PendingRail))
  {
    IdleIsUndecided();
    assert START.evidence + [HESITATION] == [HESITATION];
    MoveOn(HELD, 1, 0, Settled(IDLE, None, PendingRail), Evidenced(IDLE, None, PendingRail));
  }

  lemma IdleActs() returns (steps: seq<Step>)
    ensures Reached(steps) == AtPhase(START, 1, 0, Acted(IDLE, None))
    ensures forall s | s in steps :: !s.DoCheckout?
  {
    steps := Arrive();
    StartIsOpen([], [], 1);
    OpeningReaches(START, 1, 0);
    RunConcat(Empty, steps, Opening(1, 0));
    steps := steps + Opening(1, 0);
    IdleNext(START);
    steps := Advance(Empty, steps, AtPhase(START, 1, 0, Counted(ROW, false)), DoGather(1, HESITANT), AtPhase(START, 1, 0, Gathered(IDLE)));
    steps := Advance(Empty, steps, AtPhase(START, 1, 0, Gathered(IDLE)), DoLogVerify(1, false), AtPhase(START, 1, 0, Logged(IDLE)));
    steps := Advance(Empty, steps, AtPhase(START, 1, 0, Logged(IDLE)), DoExecute(1, UNREADABLE), AtPhase(START, 1, 0, Acted(IDLE, None)));
  }

  /** Up to the final update of the run. */
  lemma IdleRun() returns (steps: seq<Step>)
    ensures Reached(steps) == AtPhase(HELD, 1, 0, Effected(IDLE, None, PendingRail))
    ensures forall s | s in steps :: !s.DoCheckout?
  {
    steps := IdleActs();
    var settled := AtPhase(START, 1, 0, Settled(IDLE, None, PendingRail));
    var evidenced := AtPhase(HELD, 1, 0, Evidenced(IDLE, None, PendingRail));
    IdleSettles(START);
    IdleIsEvidenced();
    IdleSettles(HELD);
    steps := Advance(Empty, steps, AtPhase(START, 1, 0, Acted(IDLE, None)), DoSettle(1, true, 0), settled);
    steps := Advance(Empty, steps, settled, DoEvidence(1), evidenced);
    steps := Advance(Empty, steps, evidenced, DoEffect(1), AtPhase(HELD, 1, 0, Effected(IDLE, None, PendingRail)));
  }

  lemma ReportNext(w: World, phase: Phase)
    requires w.intents == map[0 := ROW]
    ensures Next(AtPhase(w, 1, 0, phase), DoReportFailure(0, None)) == AtPhase(w.(intents := map[0 := REPORTED_ROW]), 1, 0, phase)
  {
    assert map[0 := ROW][0 := REPORTED_ROW] == map[0 := REPORTED_ROW];
  }

  lemma RevertNext(w: World)
    requires w.intents == map[0 := REPORTED_ROW]
    ensures Next(AtPhase(w, 1, 0, Effected(IDLE, None, PendingRail)), DoUpdate(1))
         == AtPhase(w.(intents := map[0 := REVERTED_ROW], journal := w.journal + [IDLE_DONE]), 1, 0, Updated)
  {
    IdleIsUndecided();
    assert map[0 := REPORTED_ROW][0 := REVERTED_ROW] == map[0 := REVERTED_ROW];
    var done := w.(intents := map[0 := REVERTED_ROW], journal := w.journal + [IDLE_DONE]);
    MoveOn(done, 1, 0, Effected(IDLE, None, PendingRail), Updated);
  }

  const REVERTED := HELD.(intents := map[0 := REVERTED_ROW], journal := [IDLE_DONE])

  /** Without any checkout: the failure report makes the intent terminal, the run's final update makes it
      resolvable again, and the next run captures it. */
  lemma StaleUpdateReopens() returns (before: seq<Step>, after: seq<Step>, captured: seq<Step>)
    ensures forall s | s in captured :: !s.DoCheckout?
    ensures before <= after <= captured
    ensures 0 in Reached(before).intents && Reached(before).intents[0].state == PaymentState.Failed
    ensures 0 in Reached(after).intents && Reached(after).intents[0].state == PendingRail
    ensures Reopenings(Reached(after), 0) == 0
    ensures ProviderCaptures(Reached(captured), 0) == 1
  {
    var idle := IdleRun();
    var reported := HELD.(intents := map[0 := REPORTED_ROW]);
    ReportNext(HELD, Effected(IDLE, None, PendingRail));
    RevertNext(reported);
    before := Advance(Empty, idle, AtPhase(HELD, 1, 0, Effected(IDLE, None, PendingRail)), DoReportFailure(0, None),
                      AtPhase(reported, 1, 0, Effected(IDLE, None, PendingRail)));
    assert [] + [IDLE_DONE] == [IDLE_DONE];
    after := Advance(Empty, before, AtPhase(reported, 1, 0, Effected(IDLE, None, PendingRail)), DoUpdate(1),
                     AtPhase(REVERTED, 1, 0, Updated));
    ReopenedOnlyByCheckout(Empty, after, 0);
    captured := CaptureReverted(after);
  }

  lemma CaptureReverted(steps: seq<Step>) returns (longer: seq<Step>)
    requires Reached(steps) == AtPhase(REVERTED, 1, 0, Updated)
    requires forall s | s in steps :: !s.DoCheckout?
    ensures steps <= longer && forall s | s in longer :: !s.DoCheckout?
    ensures ProviderCaptures(Reached(longer), 0) == 1
  {
    ReleaseReaches(REVERTED, 1);
    var released := Advance(Empty, steps, AtPhase(REVERTED, 1, 0, Updated), DoRelease(1), REVERTED);
    RevertedIsOpen();
    longer := Attempt(Empty, released, REVERTED, 2, 0, Executor.Accepted);
    ApproachIsCalm(2, 0);
    AppendEntry([IDLE_DONE], REPORTED, 0);
    AppendEntry([], IDLE_DONE, 0);
    assert [] + [IDLE_DONE] == [IDLE_DONE];
    assert Reached(longer).journal == [IDLE_DONE] + [REPORTED];
  }

  lemma RevertedIsOpen()
    ensures IsOpen(REVERTED, 0, 2)
  {
  }

  /** The intent after the failed capture, and after a checkout has authorized it again. */
  const FAILED_ROW := Done(ROW)
  const REOPENED_ROW := FAILED_ROW.(state := PaymentState.Authorized, activePayment := Some("pay_2"))

  const FIRST_DONE := Completed(0, 1, true, true, false, PaymentState.Failed)
  const SECOND_DONE := Completed(0, 2, true, true, false, PaymentState.ManualReview)

  lemma FirstRunThenCheckout() returns (steps: seq<Step>)
    ensures Reached(steps) == START.(
      intents := map[0 := REOPENED_ROW], evidence := [FAILED_CAPTURE], journal := [FIRST_DONE] + [Reopened(0)])
  {
    steps := Arrive();
    StartIsOpen([], [], 1);
    steps := FailedAttempt(steps, START, 1);
    var w1 := START.(evidence := [FAILED_CAPTURE]);
    steps := Complete(steps, w1, 1, ROW);
    var w2 := w1.(intents := map[0 := FAILED_ROW], journal := [FIRST_DONE]);
    assert START.intents[0 := FAILED_ROW] == map[0 := FAILED_ROW];
    var w3 := w1.(intents := map[0 := REOPENED_ROW], journal := [FIRST_DONE] + [Reopened(0)]);
    assert map[0 := FAILED_ROW][0 := REOPENED_ROW] == map[0 := REOPENED_ROW];
    steps := Advance(Empty, steps, w2, DoCheckout(0, "pay_2", FAILED_ROW), w3);
  }

  /** A checkout verification reopens a terminal intent, and a second run of it is approved. */
  lemma ApprovedTwiceAfterCheckout() returns (steps: seq<Step>)
    ensures ApprovedCompletions(Reached(steps), 0) == 2 && Reopenings(Reached(steps), 0) == 1
  {
    steps := FirstRunThenCheckout();
    var w := Reached(steps);
    steps := FailedAttempt(steps, w, 2);
    steps := Complete(steps, w.(evidence := w.evidence + [FAILED_CAPTURE]), 2, REOPENED_ROW);
    assert Reached(steps).journal == [FIRST_DONE] + [Reopened(0)] + [SECOND_DONE];
    AppendEntry([FIRST_DONE] + [Reopened(0)], SECOND_DONE, 0);
    AppendEntry([FIRST_DONE], Reopened(0), 0);
    AppendEntry([], FIRST_DONE, 0);
    assert [] + [FIRST_DONE] == [FIRST_DONE];
  }

  lemma TwiceTheMoney()
    ensures Sum([FAILED_CAPTURE] + [FAILED_CAPTURE], MoneyOf(0)) == 200.0
  {
    SumAppend([FAILED_CAPTURE], FAILED_CAPTURE, MoneyOf(0));
    SumAppend([], FAILED_CAPTURE, MoneyOf(0));
    assert [] + [FAILED_CAPTURE] == [FAILED_CAPTURE];
  }

  /** If a lock may expire under its living run, two runs can pass the count of captures together: one
      such expiry, and two captures on record. */
  lemma ExpiryUnderLivingRun() returns (xs: seq<ProtocolExpiry.TimedStep>)
    ensures ProtocolExpiry.LivingExpiries(Empty, xs, 0) == 1
    ensures Captures(ProtocolExpiry.RunTimed(Empty, xs), 0) == 2
  {
    var acted := Acted(TheJob(ROW), Some(Answer(Executor.Accepted)));
    var before := Arrive();
    StartIsOpen([], [], 1);
    before := Attempt(Empty, before, START, 1, 0, Executor.Accepted);
    var w := AtPhase(Captured(START, 0, Executor.Accepted), 1, 0, acted);
    var expired := w.(locks := w.locks - {0});
    assert expired.locks == map[];
    var after := SecondCapture(expired);
    var head, tail := ProtocolExpiry.Lift(before), ProtocolExpiry.Lift(after);
    var expiry := [ProtocolExpiry.KeyExpires(0)];
    ProtocolExpiry.LiftRuns(Empty, before, 0);
    ProtocolExpiry.LiftRuns(expired, after, 0);
    ExpiryStep(w, expired);
    ProtocolExpiry.TimedConcat(w, expiry, tail, 0);
    ProtocolExpiry.TimedConcat(Empty, head, expiry + tail, 0);
    xs := head + (expiry + tail);
  }

  lemma ExpiryStep(w: World, expired: World)
    requires InFlight(w, 0).Some? && expired == w.(locks := w.locks - {0})
    ensures var expiry := [ProtocolExpiry.KeyExpires(0)];
      ProtocolExpiry.RunTimed(w, expiry) == expired && ProtocolExpiry.LivingExpiries(w, expiry, 0) == 1
  {
    var expiry := [ProtocolExpiry.KeyExpires(0)];
    assert expiry[1..] == [];
    assert ProtocolExpiry.RunTimed(expired, []) == expired && ProtocolExpiry.LivingExpiries(expired, [], 0) == 0;
  }

  /** Run 1 has captured and lost its lock; run 2 comes and settles first. */
  lemma SecondCapture(expired: World) returns (after: seq<Step>)
    requires expired == START.(journal := [CaptureCall(0, 1, true)], locks := map[],
                               runs := map[1 := Run(0, Acted(TheJob(ROW), Some(Answer(Executor.Accepted))))])
    ensures Captures(RunAll(expired, after), 0) == 2
  {
    var fin, job := Answer(Executor.Accepted), TheJob(ROW);
    var settled := Settled(job, Some(fin), FinalState(job, Some(fin)));
    assert RunAll(expired, []) == expired;
    after := Attempt(expired, [], expired, 2, 0, Executor.Accepted);
    var w1 := AtPhase(Captured(expired, 0, Executor.Accepted), 2, 0, Acted(job, Some(fin)));
    var row1, row2 := MutationRow(0, job, fin, 10), MutationRow(0, job, fin, 20);
    var w2 := Move(w1.(execs := [row2]), 2, settled);
    var w3 := Move(w2.(execs := [row2] + [row1]), 1, settled);
    JobIsApproved(ROW, Executor.Accepted);
    SettleReaches(w1, 2, 20, job, fin);
    assert [] + [row2] == [row2];
    after := Advance(expired, after, w1, DoSettle(2, true, 20), w2);
    SettleReaches(w2, 1, 10, job, fin);
    after := Advance(expired, after, w2, DoSettle(1, true, 10), w3);
    TwoCaptures(row2, row1);
  }

  lemma TwoCaptures(a: ExecRow, b: ExecRow)
    requires IsCapture(0)(a) && IsCapture(0)(b)
    ensures Count([a] + [b], IsCapture(0)) == 2
  {
    CountAppend([a], b, IsCapture(0));
    CountAppend([], a, IsCapture(0));
    assert [] + [a] == [a];
  }

  lemma SettleReaches(w: World, r: RunId, command: nat, job: Job, fin: Executor.FinOpsResult)
    requires At(w, r) && w.runs[r] == Run(0, Acted(job, Some(fin)))
    requires job.Approved() && fin == Answer(Executor.Accepted) && KeyFree(w.execs, MutationKey(command))
    ensures Next(w, DoSettle(r, true, command))
         == Move(w.(execs := w.execs + [MutationRow(0, job, fin, command)]), r,
                 Settled(job, Some(fin), FinalState(job, Some(fin))))
  {
    var execs := w.execs + [MutationRow(0, job, fin, command)];
    assert |execs| == |w.execs| + 1;
    assert !job.OpensCase();
  }
}
