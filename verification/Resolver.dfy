/** The resolver as it is written: one run, statement after statement, over the tables it updates.
    Undisturbed, it does exactly what the protocol's steps do one after the other. */
module Resolver {
  import opened Domain
  import opened Counting
  import opened Intents
  import opened StateMachine
  import opened Protocol
  import Policy
  import Executor
  import EndToEnd
  import ProtocolSafety

  /** The statement at which the database or the outside raises, if any. */
  datatype Fault = NoFault | AtPool | AtLoad | AtGather | AtEvidence | AtUpdate

  /** What one run meets: the outside's answers, the two inserts whose failure is ignored, the fresh
      command's identifier and issue time, and the environment of the execution. */
  datatype Encounter = Encounter(
    answers: Answers,
    verifyLogged: bool,
    executionLogged: bool,
    command: nat,
    key: string,
    issuedAt: real,
    env: Executor.Environment,
    fault: Fault)

  datatype Answer =
    | Skipped
    | Error
    | PoolFailure                    // raised to the caller, the lock left behind
    | Done(final: PaymentState, decision: DecisionType, action: ActionType)

  function CircumstancesOf(row: Intent, e: Encounter): Circumstances {
    Circumstances(e.key, EndToEnd.TargetPayment(e.answers.neg, row.activePayment), e.issuedAt, e.env)
  }

  /** The row whose active payment the command falls back to. */
  function RowAt(w: World, i: IntentId): Intent {
    if i in w.intents then w.intents[i] else Fresh(1.0, "INR", Created, None)
  }

  function RaiseIf(w: World, r: RunId, raised: bool): World {
    if raised then Raise(w, r) else w
  }

  /** From the acquisition of the lock to the loaded row. */
  function SoloLoad(w: World, r: RunId, i: IntentId, e: Encounter): World {
    var w1 := Connect(Begin(w, r, i), r, e.fault != AtPool);
    Load(RaiseIf(w1, r, e.fault == AtLoad), r)
  }

  /** From the loaded row to the settled outcome. */
  function SoloDecide(w: World, r: RunId, row: Intent, e: Encounter): World {
    var w1 := CountCaptures(w, r);
    var w2 := LogVerify(Gather(RaiseIf(w1, r, e.fault == AtGather), r, e.answers), r, e.verifyLogged);
    Settle(Act(w2, r, CircumstancesOf(row, e)), r, e.executionLogged, e.command)
  }

  /** From the settled outcome to the release of the lock. */
  function SoloClose(w: World, r: RunId, e: Encounter): World {
    var w1 := RecordEffect(RecordEvidence(RaiseIf(w, r, e.fault == AtEvidence), r), r);
    Release(Update(RaiseIf(w1, r, e.fault == AtUpdate), r), r)
  }

  /** The protocol's steps of one run without interference. */
  function Solo(w: World, r: RunId, i: IntentId, e: Encounter): World {
    SoloClose(SoloDecide(SoloLoad(w, r, i, e), r, RowAt(w, i), e), r, e)
  }

  function RaiseSteps(r: RunId, raised: bool): seq<Step> {
    if raised then [DoRaise(r)] else []
  }

  /** Extends a behaviour by a possible exception and one step. */
  lemma AdvanceBy(start: World, steps: seq<Step>, r: RunId, raised: bool, s: Step) returns (longer: seq<Step>)
    ensures longer == steps + (RaiseSteps(r, raised) + [s])
    ensures RunAll(start, longer) == Next(RaiseIf(RunAll(start, steps), r, raised), s)
  {
    if raised {
      longer := Advance(start, steps, RunAll(start, steps), DoRaise(r), Raise(RunAll(start, steps), r));
      longer := Advance(start, longer, RunAll(start, longer), s, Next(RunAll(start, longer), s));
      assert steps + [DoRaise(r)] + [s] == steps + ([DoRaise(r)] + [s]);
    } else {
      longer := Advance(start, steps, RunAll(start, steps), s, Next(RunAll(start, steps), s));
      assert [] + [s] == [s];
    }
  }

  lemma LoadIsABehaviour(start: World, steps: seq<Step>, r: RunId, i: IntentId, e: Encounter) returns (longer: seq<Step>)
    ensures steps <= longer && RunAll(start, longer) == SoloLoad(RunAll(start, steps), r, i, e)
  {
    longer := AdvanceBy(start, steps, r, false, DoBegin(r, i));
    longer := AdvanceBy(start, longer, r, false, DoConnect(r, e.fault != AtPool));
    longer := AdvanceBy(start, longer, r, e.fault == AtLoad, DoLoad(r));
  }

  lemma DecideIsABehaviour(start: World, steps: seq<Step>, r: RunId, row: Intent, e: Encounter) returns (longer: seq<Step>)
    ensures steps <= longer && RunAll(start, longer) == SoloDecide(RunAll(start, steps), r, row, e)
  {
    longer := AdvanceBy(start, steps, r, false, DoCount(r));
    longer := AdvanceBy(start, longer, r, e.fault == AtGather, DoGather(r, e.answers));
    longer := AdvanceBy(start, longer, r, false, DoLogVerify(r, e.verifyLogged));
    longer := AdvanceBy(start, longer, r, false, DoExecute(r, CircumstancesOf(row, e)));
    longer := AdvanceBy(start, longer, r, false, DoSettle(r, e.executionLogged, e.command));
  }

  lemma RecordIsABehaviour(start: World, steps: seq<Step>, r: RunId, e: Encounter) returns (longer: seq<Step>)
    ensures steps <= longer
    ensures RunAll(start, longer)
         == RecordEffect(RecordEvidence(RaiseIf(RunAll(start, steps), r, e.fault == AtEvidence), r), r)
  {
    longer := AdvanceBy(start, steps, r, e.fault == AtEvidence, DoEvidence(r));
    longer := AdvanceBy(start, longer, r, false, DoEffect(r));
  }

  lemma CloseIsABehaviour(start: World, steps: seq<Step>, r: RunId, e: Encounter) returns (longer: seq<Step>)
    ensures steps <= longer && RunAll(start, longer) == SoloClose(RunAll(start, steps), r, e)
  {
    longer := RecordIsABehaviour(start, steps, r, e);
    longer := AdvanceBy(start, longer, r, e.fault == AtUpdate, DoUpdate(r));
    longer := AdvanceBy(start, longer, r, false, DoRelease(r));
  }

  /** So a solo run is one of the protocol's behaviours, and what holds of all of them holds after it. */
  lemma SoloIsABehaviour(start: World, steps: seq<Step>, r: RunId, i: IntentId, e: Encounter) returns (longer: seq<Step>)
    ensures steps <= longer && RunAll(start, longer) == Solo(RunAll(start, steps), r, i, e)
  {
    longer := LoadIsABehaviour(start, steps, r, i, e);
    longer := DecideIsABehaviour(start, longer, r, RowAt(RunAll(start, steps), i), e);
    longer := CloseIsABehaviour(start, longer, r, e);
  }

  /** A run that has ended takes no further step. */
  lemma GoneIsGone(w: World, r: RunId, row: Intent, e: Encounter)
    requires r !in w.runs
    ensures SoloDecide(w, r, row, e) == w && SoloClose(w, r, e) == w
  {
  }

  /** A successful capture of the intent is on record. */
  predicate HasCapture(execs: seq<ExecRow>, i: IntentId) {
    exists k | 0 <= k < |execs| ::
      execs[k].intent == i && execs[k].operation == ActionType.Capture && execs[k].status in {Success, ExternalStatus.Captured}
  }

  /** How a completed run has decided and what it has written as the state, in terms of the loaded row and of
      what the run has met. */
  predicate EndsIn(hasCapture: bool, row: Intent, e: Encounter, decision: DecisionType, final: PaymentState) {
    var a, view := e.answers, Policy.IntentView(row.state, row.amount, row.currency, hasCapture);
    && decision == Policy.Evaluate(view, a.neg, a.det).decision
    && if decision != Approve then ProtocolSafety.RefusedMeans(row.state, a.neg.status, a.ambiguous, final)
       else ProtocolSafety.ApprovedMeans(row.state, a.det.action, Succeeds(row, e), final)
  }

  /** The approved action is carried out: in time, and confirmed by the provider if the evidence or the row
      names a payment there, or else by the rail. */
  predicate Succeeds(row: Intent, e: Encounter) {
    var action, named := e.answers.det.action, e.answers.neg.transactionId;
    && Executor.IsTimely(action, row.amount, e.issuedAt, e.env.now)
    && Executor.IsConfirmed(action, e.env.mode == Executor.Api && (IsNamed(named) || IsNamed(row.activePayment)), e.env)
  }

  predicate IsNamed(payment: Option<string>) {
    payment.Some? && payment.value != ""
  }

  /** The row that the evidence check leaves: one for each version, and none for an authorized payment,
      whose status the table does not admit. */
  function CheckRows(before: seq<ExecRow>, i: IntentId, row: Intent, e: Encounter): seq<ExecRow> {
    var status := e.answers.neg.status;
    if e.verifyLogged && status != ExternalStatus.Authorized && (forall x | x in before :: x.key != VerifyKey(i, row.version))
    then [ExecRow(i, ActionType.Verify, row.amount, status, VerifyKey(i, row.version))] else []
  }

  /** What the executor answers to the approved command, unless it raises. */
  function Reported(row: Intent, e: Encounter): Option<Executor.FinOpsResult> {
    var body := Executor.Authorize(e.answers.det.action, row.amount, row.currency, e.key, e.issuedAt);
    match Executor.Perform(Executor.Command(body, EndToEnd.TargetPayment(e.answers.neg, row.activePayment), None), true, e.env)
    case Finished(result) => Some(result)
    case Raised => None
  }

  /** The executor raises on an approved command. */
  predicate Raises(hasCapture: bool, row: Intent, e: Encounter) {
    && Policy.Approves(Policy.IntentView(row.state, row.amount, row.currency, hasCapture), e.answers.neg, e.answers.det)
    && Reported(row, e).None?
  }

  /** The rows that a completed run leaves: of the check, and of the execution if there was one. */
  function RowsOf(before: seq<ExecRow>, i: IntentId, row: Intent, e: Encounter, decision: DecisionType): seq<ExecRow> {
    var checked := CheckRows(before, i, row, e);
    checked + MovementRows(before + checked, i, row, if decision == Approve then Reported(row, e) else None, e)
  }

  /** The row that a successful execution leaves, under the command's own key. */
  function MovementRows(before: seq<ExecRow>, i: IntentId, row: Intent, fin: Option<Executor.FinOpsResult>, e: Encounter): seq<ExecRow> {
    if && e.executionLogged && fin.Some? && fin.value.status in {Success, Refunded, Voided}
       && forall x | x in before :: x.key != MutationKey(e.command)
    then [ExecRow(i, fin.value.action, row.amount, fin.value.status, MutationKey(e.command))] else []
  }

  class Tables {
    var intents: Table
    var execs: seq<ExecRow>
    var evidence: seq<EvidenceRow>
    var cases: seq<CaseRow>
    var lockKeys: set<IntentId>

    ghost var holders: map<IntentId, RunId>
    ghost var runs: map<RunId, Run>
    ghost var journal: seq<Entry>

    ghost predicate Valid()
      reads this
    {
      lockKeys == holders.Keys
    }

    ghost function View(): World
      reads this
    {
      World(intents, execs, evidence, cases, holders, runs, journal)
    }

    constructor ()
      ensures Valid() && View() == Empty
    {
      intents, execs, evidence, cases, lockKeys := map[], [], [], [], {};
      holders, runs, journal := map[], map[], [];
    }

    method AcquireIntentLock(i: IntentId, ghost r: RunId) returns (locked: bool)
      requires Valid()
      modifies `lockKeys, `holders
      ensures Valid()
      ensures locked <==> i !in old(lockKeys)
      ensures holders == if locked then old(holders)[i := r] else old(holders)
    {
      locked := i !in lockKeys;
      if locked {
        lockKeys := lockKeys + {i};
        holders := holders[i := r];
      }
    }

    /** Deletes the key, whoever set it. */
    method ReleaseIntentLock(i: IntentId)
      requires Valid()
      modifies `lockKeys, `holders
      ensures Valid() && i !in lockKeys
      ensures holders == old(holders) - {i}
    {
      lockKeys := lockKeys - {i};
      holders := holders - {i};
    }

    method CountSuccessfulCaptures(i: IntentId) returns (n: nat)
      ensures n == Captures(View(), i)
      ensures n > 0 <==> HasCapture(execs, i)
    {
      n := 0;
      for k := 0 to |execs|
        invariant n == Count(execs[..k], IsCapture(i))
        invariant n > 0 <==> exists j | 0 <= j < k :: IsCapture(i)(execs[j])
      {
        assert execs[..k + 1] == execs[..k] + [execs[k]];
        CountAppend(execs[..k], execs[k], IsCapture(i));
        if IsCapture(i)(execs[k]) {
          n := n + 1;
        }
      }
      assert execs[..|execs|] == execs;
    }

    /** Inserts unless the key is taken or a check of the table refuses the row. */
    method InsertExecution(row: ExecRow)
      modifies `execs
      ensures execs == InsertExec(old(execs), row)
    {
      var free := true;
      for k := 0 to |execs|
        invariant free <==> forall j | 0 <= j < k :: execs[j].key != row.key
      {
        if execs[k].key == row.key {
          free := false;
        }
      }
      assert free <==> KeyFree(execs, row.key);
      if free && row.status != ExternalStatus.Authorized && row.operation !in {Reroute, ActionType.ManualReview} {
        execs := execs + [row];
      }
    }
  }

  /** Decides, and acts on an approval with a freshly signed command. */
  method DecideAndAct(provider: Executor.Provider, mac: Executor.CommandBody -> string, job: Job, row: Intent, e: Encounter)
      returns (outcome: Option<Executor.Outcome>)
    requires job == JobOf(row, job.hasCapture, e.answers)
    requires forall body :: mac(body) != ""
    modifies provider
    ensures outcome == if job.Approved() then Some(OutcomeOf(job, CircumstancesOf(row, e))) else None
    ensures EndToEnd.MovesAsApproved(old(provider.calls), provider.calls, job.View(), job.neg, job.det)
  {
    var ruling;
    ruling, outcome := EndToEnd.Dispatch(provider, job.View(), row.activePayment, job.neg, job.det, e.key, mac, e.issuedAt, e.env);
  }

  function CasesOpened(i: IntentId, job: Job): seq<CaseRow> {
    if job.OpensCase() then [CaseRow(i, job.divergence, Open)] else []
  }

  /** A row enters the table exactly if its key is free and the table admits its status and operation. */
  lemma InsertsExactlyWhen(execs: seq<ExecRow>, row: ExecRow)
    ensures InsertExec(execs, row) in {execs, execs + [row]}
    ensures InsertExec(execs, row) != execs <==>
      && (forall x | x in execs :: x.key != row.key)
      && row.status != ExternalStatus.Authorized && row.operation != Reroute && row.operation != ActionType.ManualReview
  {
    assert |execs + [row]| != |execs|;
  }

  /** A listed action passes the checks of the table. */
  lemma MovementIsInserted(before: seq<ExecRow>, i: IntentId, job: Job, fin: Option<Executor.FinOpsResult>, e: Encounter)
    requires ProtocolSafety.FinOk(job, fin)
    ensures before + MovementRows(before, i, job.row, fin, e)
         == if fin.Some? && fin.value.status in {Success, Refunded, Voided} && e.executionLogged
            then InsertExec(before, MutationRow(i, job, fin.value, e.command)) else before
  {
  }

  lemma SettledTables(w: World, execs: seq<ExecRow>, r: RunId, i: IntentId, job: Job, fin: Option<Executor.FinOpsResult>, e: Encounter)
    requires execs == if fin.Some? && fin.value.status in {Success, Refunded, Voided} && e.executionLogged
                      then InsertExec(w.execs, MutationRow(i, job, fin.value, e.command)) else w.execs
    ensures var journal := if IsCaptureSuccess(fin) && execs == w.execs then w.journal + [UnrecordedCapture(i)] else w.journal;
      Settle(AtPhase(w, r, i, Acted(job, fin)), r, e.executionLogged, e.command)
      == AtPhase(w.(execs := execs, cases := w.cases + CasesOpened(i, job), journal := journal), r, i,
                 Settled(job, fin, FinalState(job, fin)))
  {
    MoveOn(w.(execs := execs), r, i, Acted(job, fin), Settled(job, fin, FinalState(job, fin)));
  }

  /** Records a successful execution, or opens a case, and chooses the final state. */
  method SettleOutcome(t: Tables, ghost r: RunId, i: IntentId, job: Job, fin: Option<Executor.FinOpsResult>, e: Encounter)
      returns (final: PaymentState)
    requires fin.Some? <==> job.Approved()
    requires fin.Some? ==> fin.value.action == job.det.action
    modifies t`execs, t`cases, t`journal
    ensures AtPhase(t.View(), r, i, Settled(job, fin, final))
         == Settle(AtPhase(old(t.View()), r, i, Acted(job, fin)), r, e.executionLogged, e.command)
    ensures final == FinalState(job, fin)
    ensures !job.Approved() && !IsTerminal(job.row.state) ==>
      ProtocolSafety.RefusedMeans(job.row.state, job.neg.status, job.ambiguous, final)
    ensures t.cases == old(t.cases) + CasesOpened(i, job)
    ensures ProtocolSafety.FinOk(job, fin) ==> t.execs == old(t.execs) + MovementRows(old(t.execs), i, job.row, fin, e)
  {
    ghost var before := t.View();
    if !job.Approved() && !IsTerminal(job.row.state) {
      ProtocolSafety.RefusedStateMeans(job);
    }
    if ProtocolSafety.FinOk(job, fin) {
      MovementIsInserted(before.execs, i, job, fin, e);
    }
    final := job.row.state;
    if fin.Some? {
      if fin.value.status in {Success, Refunded, Voided} {
        if e.executionLogged {
          t.InsertExecution(MutationRow(i, job, fin.value, e.command));
        }
        if job.det.action == ActionType.Capture || job.det.action == NoAction {
          final := Transition(job.row.state, VerifiedSuccess);
        } else if job.det.action == ActionType.Void || job.det.action == ActionType.Refund {
          final := Transition(job.row.state, Other("ACTION_CONFIRMED"));
        }
      } else {
        final := Transition(job.row.state, VerifiedFailed);
      }
    } else if job.neg.status == ExternalStatus.Failed {
      final := Transition(job.row.state, VerifiedFailed);
    } else if job.neg.status == Duplicate {
      final := Transition(job.row.state, DuplicateDetected);
    } else if job.neg.status == ExternalStatus.Unknown || job.ambiguous {
      final := PaymentState.ManualReview;
      t.cases := t.cases + [CaseRow(i, job.divergence, Open)];
    }
    if IsCaptureSuccess(fin) && t.execs == before.execs {
      t.journal := t.journal + [UnrecordedCapture(i)];
    }
    SettledTables(before, t.execs, r, i, job, fin, e);
  }

  /** The intent counts as resolved; nothing else changes. */
  function Marked(t: Table, i: IntentId): Table {
    if i in t then t[i := t[i].(resolution := Resolution.Resolved)] else t
  }

  /** The next version of the intent, in its new state. */
  function Advanced(row: Intent, final: PaymentState): Intent {
    Intent(row.amount, row.currency, final, row.activePayment, row.version + 1,
           if final in {PaymentState.Captured, Reconciled, PaymentState.ManualReview, PaymentState.Failed}
           then Resolution.Resolved else InProgress)
  }

  lemma MarkedThenAdvanced(t: Table, i: IntentId, final: PaymentState)
    requires i in t
    ensures Marked(t, i)[i := Advanced(Marked(t, i)[i], final)] == t[i := Advanced(t[i], final)]
  {
  }

  /** Writes the evidence and marks the effect. */
  method WriteEvidence(t: Tables, ghost r: RunId, i: IntentId, job: Job, fin: Option<Executor.FinOpsResult>,
                       ghost final: PaymentState)
      returns (action: ActionType)
    modifies t`evidence, t`intents
    ensures AtPhase(t.View(), r, i, Effected(job, fin, final))
         == RecordEffect(RecordEvidence(AtPhase(old(t.View()), r, i, Settled(job, fin, final)), r), r)
    ensures action == if fin.Some? then fin.value.action else NoAction
    ensures t.evidence == old(t.evidence) + [EvidenceRow(i, action, job.row.amount, job.Decision())]
    ensures t.intents == if fin.Some? && fin.value.status in {Success, Refunded} then Marked(old(t.intents), i) else old(t.intents)
  {
    action := if fin.Some? then fin.value.action else NoAction;
    t.evidence := t.evidence + [EvidenceRow(i, action, job.row.amount, job.Decision())];
    MoveOn(t.View(), r, i, Settled(job, fin, final), Evidenced(job, fin, final));
    if fin.Some? && fin.value.status in {Success, Refunded} && i in t.intents {
      t.intents := t.intents[i := t.intents[i].(resolution := Resolution.Resolved)];
    }
    MoveOn(t.View(), r, i, Evidenced(job, fin, final), Effected(job, fin, final));
  }

  /** Writes the final state under the next version. */
  method UpdateIntent(t: Tables, ghost r: RunId, i: IntentId, job: Job, ghost fin: Option<Executor.FinOpsResult>,
                      final: PaymentState)
    requires i in t.intents
    modifies t`intents, t`journal
    ensures AtPhase(t.View(), r, i, Updated) == Update(AtPhase(old(t.View()), r, i, Effected(job, fin, final)), r)
    ensures t.intents == old(t.intents)[i := Advanced(old(t.intents)[i], final)]
  {
    var row := t.intents[i];
    t.intents := t.intents[i := row.(state := final, version := row.version + 1,
                                     resolution := if IsTerminal(final) then Resolution.Resolved else InProgress)];
    t.journal := t.journal + [CompletionOf(i, job, fin, final)];
    MoveOn(t.View(), r, i, Effected(job, fin, final), Updated);
  }

  lemma RaiseAt(w: World, r: RunId, i: IntentId, p: Phase)
    requires r !in w.runs && !p.Locked?
    ensures Raise(AtPhase(w, r, i, p), r) == w.(locks := w.locks - {i}, journal := NoteLoss(w, i, p).journal)
  {
    FinishAt(NoteLoss(w, i, p), r, i, p);
  }

  /** Counts the captures on record and logs the evidence check. */
  method CountAndLog(t: Tables, ghost r: RunId, i: IntentId, row: Intent, e: Encounter) returns (job: Job)
    modifies t`execs
    ensures job == JobOf(row, job.hasCapture, e.answers) && job.hasCapture == (Captures(old(t.View()), i) > 0)
    ensures job.hasCapture == HasCapture(old(t.execs), i)
    ensures t.execs == old(t.execs) + CheckRows(old(t.execs), i, row, e)
    ensures AtPhase(t.View(), r, i, Logged(job))
         == LogVerify(Gather(CountCaptures(AtPhase(old(t.View()), r, i, Loaded(row)), r), r, e.answers), r, e.verifyLogged)
  {
    ghost var before := t.View();
    var n := t.CountSuccessfulCaptures(i);
    job := JobOf(row, n > 0, e.answers);
    MoveOn(before, r, i, Loaded(row), Counted(row, n > 0));
    MoveOn(before, r, i, Counted(row, n > 0), Gathered(job));
    if e.verifyLogged {
      t.InsertExecution(VerifyRow(i, job));
    }
    MoveOn(t.View(), r, i, Gathered(job), Logged(job));
  }

  lemma EvidenceFaultEnds(w: World, r: RunId, i: IntentId, p: Phase, e: Encounter)
    requires r !in w.runs && !p.Locked? && e.fault == AtEvidence
    ensures SoloClose(AtPhase(w, r, i, p), r, e) == w.(locks := w.locks - {i}, journal := NoteLoss(w, i, p).journal)
  {
    RaiseAt(w, r, i, p);
  }

  lemma UpdateFaultEnds(w: World, effected: World, r: RunId, i: IntentId, p: Phase, q: Phase, e: Encounter)
    requires r !in effected.runs && !q.Locked? && e.fault == AtUpdate
    requires RecordEffect(RecordEvidence(AtPhase(w, r, i, p), r), r) == AtPhase(effected, r, i, q)
    ensures SoloClose(AtPhase(w, r, i, p), r, e)
         == effected.(locks := effected.locks - {i}, journal := NoteLoss(effected, i, q).journal)
  {
    RaiseAt(effected, r, i, q);
  }

  lemma UpdateEnds(w: World, effected: World, updated: World, r: RunId, i: IntentId, p: Phase, q: Phase, e: Encounter)
    requires r !in updated.runs && e.fault != AtEvidence && e.fault != AtUpdate
    requires RecordEffect(RecordEvidence(AtPhase(w, r, i, p), r), r) == AtPhase(effected, r, i, q)
    requires Update(AtPhase(effected, r, i, q), r) == AtPhase(updated, r, i, Updated)
    ensures SoloClose(AtPhase(w, r, i, p), r, e) == updated.(locks := updated.locks - {i})
  {
    FinishAt(updated, r, i, Updated);
  }

  lemma RowsAddUp(before: seq<ExecRow>, i: IntentId, row: Intent, e: Encounter, decision: DecisionType)
    ensures var checked := before + CheckRows(before, i, row, e);
      checked + MovementRows(checked, i, row, if decision == Approve then Reported(row, e) else None, e)
      == before + RowsOf(before, i, row, e, decision)
  {
  }

  lemma LoggedIsDecided(w: World, logged: World, r: RunId, i: IntentId, row: Intent, job: Job, e: Encounter)
    requires e.fault != AtGather
    requires LogVerify(Gather(CountCaptures(AtPhase(w, r, i, Loaded(row)), r), r, e.answers), r, e.verifyLogged)
          == AtPhase(logged, r, i, Logged(job))
    ensures SoloDecide(AtPhase(w, r, i, Loaded(row)), r, row, e)
         == Settle(Act(AtPhase(logged, r, i, Logged(job)), r, CircumstancesOf(row, e)), r, e.executionLogged, e.command)
  {
  }

  /** The statements from the settled outcome to the update. */
  method Record(t: Tables, ghost r: RunId, i: IntentId, job: Job, fin: Option<Executor.FinOpsResult>, final: PaymentState,
                e: Encounter)
      returns (answer: Answer)
    requires i in t.intents && r !in t.runs
    modifies t`evidence, t`intents, t`journal
    ensures t.View().(locks := t.holders - {i}) == SoloClose(AtPhase(old(t.View()), r, i, Settled(job, fin, final)), r, e)
    ensures answer == if e.fault == AtEvidence || e.fault == AtUpdate then Error
                      else Done(final, job.Decision(), if fin.Some? then fin.value.action else NoAction)
    ensures answer.Done? ==>
      && t.intents == old(t.intents)[i := Advanced(old(t.intents)[i], final)]
      && t.evidence == old(t.evidence) + [EvidenceRow(i, answer.action, job.row.amount, answer.decision)]
    ensures e.fault == AtEvidence ==> t.evidence == old(t.evidence) && t.intents == old(t.intents)
    ensures !answer.Done? ==> t.intents == old(t.intents) || t.intents == Marked(old(t.intents), i)
  {
    ghost var before := t.View();
    if e.fault == AtEvidence {
      EvidenceFaultEnds(before, r, i, Settled(job, fin, final), e);
      t.journal := NoteLoss(before, i, Settled(job, fin, final)).journal;
      return Error;
    }
    var action := WriteEvidence(t, r, i, job, fin, final);
    ghost var effected := t.View();
    if e.fault == AtUpdate {
      UpdateFaultEnds(before, effected, r, i, Settled(job, fin, final), Effected(job, fin, final), e);
      t.journal := NoteLoss(effected, i, Effected(job, fin, final)).journal;
      return Error;
    }
    MarkedThenAdvanced(before.intents, i, final);
    UpdateIntent(t, r, i, job, fin, final);
    UpdateEnds(before, effected, t.View(), r, i, Settled(job, fin, final), Effected(job, fin, final), e);
    return Done(final, job.Decision(), action);
  }

  /** The case that an unapproved run with ambiguous evidence opens. */
  function AmbiguityCases(i: IntentId, a: Answers, decision: DecisionType): seq<CaseRow> {
    if && decision != Approve
       && a.neg.status != ExternalStatus.Failed && a.neg.status != Duplicate
       && (a.neg.status == ExternalStatus.Unknown || a.ambiguous)
    then [CaseRow(i, a.divergence, Open)] else []
  }

  /** What a run that has ended before its evidence leaves in place. */
  twostate predicate NothingWritten(t: Tables)
    reads t
  {
    t.evidence == old(t.evidence) && t.intents == old(t.intents)
  }

  lemma EndsAsMeant(job: Job, row: Intent, e: Encounter, fin: Option<Executor.FinOpsResult>)
    requires job == JobOf(row, job.hasCapture, e.answers) && !IsTerminal(row.state)
    requires if job.Approved() then fin.Some? && OutcomeOf(job, CircumstancesOf(row, e)) == Executor.Finished(fin.value)
             else fin.None?
    ensures EndsIn(job.hasCapture, row, e, job.Decision(), FinalState(job, fin))
  {
    if job.Approved() {
      var c := CircumstancesOf(row, e);
      ProtocolSafety.OutcomeIsConsistent(job, c);
      ProtocolSafety.ApprovedStateMeans(job, fin.value);
      Executor.SucceedsExactlyWhen(job.det.action, row.amount, row.currency, c.key, c.issuedAt, c.paymentId, c.env);
    } else {
      ProtocolSafety.RefusedStateMeans(job);
    }
  }

  /** From the logged evidence check to the settled outcome; None if the executor raised. */
  method Conclude(t: Tables, provider: Executor.Provider, mac: Executor.CommandBody -> string,
                  ghost r: RunId, i: IntentId, job: Job, row: Intent, e: Encounter)
      returns (settled: bool, fin: Option<Executor.FinOpsResult>, final: PaymentState)
    requires r !in t.runs && job == JobOf(row, job.hasCapture, e.answers)
    requires forall body :: mac(body) != ""
    modifies t`execs, t`cases, t`journal, provider
    ensures var before := AtPhase(old(t.View()), r, i, Logged(job));
      Settle(Act(before, r, CircumstancesOf(row, e)), r, e.executionLogged, e.command)
      == if settled then AtPhase(t.View(), r, i, Settled(job, fin, final))
         else t.View().(locks := t.holders - {i})
    ensures settled ==> (fin.Some? <==> job.Approved()) && final == FinalState(job, fin)
    ensures t.cases == old(t.cases) + if settled then CasesOpened(i, job) else []
    ensures settled && job.OpensCase() ==> final == PaymentState.ManualReview
    ensures fin.Some? ==> fin.value.action == job.det.action
    ensures settled && !IsTerminal(row.state) ==> EndsIn(job.hasCapture, row, e, job.Decision(), final)
    ensures settled ==> fin == (if job.Approved() then Reported(row, e) else None)
    ensures settled ==> t.execs == old(t.execs) + MovementRows(old(t.execs), i, row, fin, e)
    ensures !settled <==> job.Approved() && Reported(row, e).None?
    ensures !settled ==> t.execs == old(t.execs)
    ensures EndToEnd.MovesAsApproved(old(provider.calls), provider.calls, job.View(), job.neg, job.det)
  {
    ghost var before := t.View();
    var outcome := DecideAndAct(provider, mac, job, row, e);
    fin, final := None, job.row.state;
    if outcome.Some? {
      ghost var reported := outcome.value.Finished? && IsCaptureSuccess(Some(outcome.value.result));
      t.journal := Note(before, i, CapturesMade(job, CircumstancesOf(row, e)), reported).journal;
    }
    if outcome.Some? && outcome.value.Raised? {
      FinishAt(t.View(), r, i, Logged(job));
      return false, None, final;
    }
    if outcome.Some? {
      fin := Some(outcome.value.result);
      ProtocolSafety.OutcomeIsConsistent(job, CircumstancesOf(row, e));
    }
    MoveOn(t.View(), r, i, Logged(job), Acted(job, fin));
    final := SettleOutcome(t, r, i, job, fin, e);
    if !IsTerminal(row.state) {
      EndsAsMeant(job, row, e, fin);
    }
    settled := true;
  }

  lemma CasesAgree(i: IntentId, job: Job, row: Intent, e: Encounter)
    requires job == JobOf(row, job.hasCapture, e.answers)
    ensures CasesOpened(i, job) == AmbiguityCases(i, e.answers, job.Decision())
  {
  }

  lemma GatherFaultEnds(w: World, r: RunId, i: IntentId, row: Intent, e: Encounter)
    requires r !in w.runs && e.fault == AtGather
    ensures SoloClose(SoloDecide(AtPhase(w, r, i, Loaded(row)), r, row, e), r, e) == w.(locks := w.locks - {i})
  {
    var counted := Counted(row, Captures(w, i) > 0);
    MoveOn(w, r, i, Loaded(row), counted);
    RaiseAt(w, r, i, counted);
    GoneIsGone(w.(locks := w.locks - {i}), r, row, e);
  }

  /** From the loaded row to the settled outcome. */
  method Decide(t: Tables, provider: Executor.Provider, mac: Executor.CommandBody -> string,
                ghost r: RunId, i: IntentId, row: Intent, e: Encounter)
      returns (settled: bool, job: Job, fin: Option<Executor.FinOpsResult>, final: PaymentState)
    requires r !in t.runs && e.fault != AtGather
    requires forall body :: mac(body) != ""
    modifies t`execs, t`cases, t`journal, provider
    ensures job == JobOf(row, Captures(old(t.View()), i) > 0, e.answers)
    ensures SoloDecide(AtPhase(old(t.View()), r, i, Loaded(row)), r, row, e)
         == if settled then AtPhase(t.View(), r, i, Settled(job, fin, final)) else t.View().(locks := t.holders - {i})
    ensures settled ==> (fin.Some? <==> job.Approved())
    ensures t.cases == old(t.cases) + if settled then CasesOpened(i, job) else []
    ensures settled && job.OpensCase() ==> final == PaymentState.ManualReview
    ensures fin.Some? ==> fin.value.action == job.det.action
    ensures !settled <==> Raises(HasCapture(old(t.execs), i), row, e)
    ensures settled && !IsTerminal(row.state) ==> EndsIn(HasCapture(old(t.execs), i), row, e, job.Decision(), final)
    ensures settled ==> t.execs == old(t.execs) + RowsOf(old(t.execs), i, row, e, job.Decision())
    ensures EndToEnd.MovesAsApproved(old(provider.calls), provider.calls, job.View(), job.neg, job.det)
  {
    ghost var before := t.View();
    job := CountAndLog(t, r, i, row, e);
    LoggedIsDecided(before, t.View(), r, i, row, job, e);
    RowsAddUp(before.execs, i, row, e, job.Decision());
    settled, fin, final := Conclude(t, provider, mac, r, i, job, row, e);
  }

  /** The body of the `try` after the row has been loaded. */
  method Work(t: Tables, provider: Executor.Provider, mac: Executor.CommandBody -> string,
              ghost r: RunId, i: IntentId, row: Intent, e: Encounter)
      returns (answer: Answer)
    requires i in t.intents && t.intents[i] == row && !IsTerminal(row.state) && r !in t.runs
    requires forall body :: mac(body) != ""
    modifies t`intents, t`execs, t`evidence, t`cases, t`journal, provider
    ensures t.View().(locks := t.holders - {i})
         == SoloClose(SoloDecide(AtPhase(old(t.View()), r, i, Loaded(row)), r, row, e), r, e)
    ensures var job := JobOf(row, Captures(old(t.View()), i) > 0, e.answers);
      EndToEnd.MovesAsApproved(old(provider.calls), provider.calls, job.View(), job.neg, job.det)
    ensures answer == Error || answer.Done?
    ensures answer.Done? <==> e.fault !in {AtGather, AtEvidence, AtUpdate} && !Raises(HasCapture(old(t.execs), i), row, e)
    ensures !answer.Done? && e.fault != AtUpdate ==> NothingWritten(t)
    ensures !answer.Done? ==> t.intents == old(t.intents) || t.intents == Marked(old(t.intents), i)
    ensures answer.Done? ==>
      && t.intents == old(t.intents)[i := Advanced(row, answer.final)]
      && EndsIn(HasCapture(old(t.execs), i), row, e, answer.decision, answer.final)
      && t.execs == old(t.execs) + RowsOf(old(t.execs), i, row, e, answer.decision)
      && t.evidence == old(t.evidence) + [EvidenceRow(i, answer.action, row.amount, answer.decision)]
      && (answer.decision == Approve ==> IsTerminal(answer.final) && answer.action == e.answers.det.action)
      && (answer.decision != Approve ==> answer.action == NoAction)
      && t.cases == old(t.cases) + AmbiguityCases(i, e.answers, answer.decision)
      && (AmbiguityCases(i, e.answers, answer.decision) != [] ==> answer.final == PaymentState.ManualReview)
  {
    ghost var before := t.View();
    if e.fault == AtGather {
      GatherFaultEnds(before, r, i, row, e);
      return Error;
    }
    var settled, job, fin, final := Decide(t, provider, mac, r, i, row, e);
    CasesAgree(i, job, row, e);
    if !settled {
      GoneIsGone(t.View().(locks := t.holders - {i}), r, row, e);
      return Error;
    }
    answer := Record(t, r, i, job, fin, final, e);
  }

  /** `resolve`: acquire the lock, load, work, and release the lock whatever happened. */
  method Resolve(t: Tables, provider: Executor.Provider, mac: Executor.CommandBody -> string,
                 ghost r: RunId, i: IntentId, e: Encounter)
      returns (answer: Answer)
    requires t.Valid() && r !in t.runs
    requires forall body :: mac(body) != ""
    modifies t, provider
    ensures t.Valid()
    ensures t.View() == Solo(old(t.View()), r, i, e)
    // the lock is what it was, except that a failing pool leaves it behind
    ensures i in old(t.lockKeys) ==> answer == Skipped && t.View() == old(t.View())
    ensures i !in old(t.lockKeys) ==> (i in t.lockKeys <==> answer == PoolFailure)
    // which answer it is
    ensures answer == PoolFailure <==> i !in old(t.lockKeys) && e.fault == AtPool
    ensures answer == Skipped <==>
      || i in old(t.lockKeys)
      || (e.fault !in {AtPool, AtLoad} && i in old(t.intents) && IsTerminal(old(t.intents)[i].state))
    ensures answer.Done? <==>
      && i !in old(t.lockKeys) && e.fault == NoFault && i in old(t.intents) && !IsTerminal(old(t.intents)[i].state)
      && !Raises(HasCapture(old(t.execs), i), old(t.intents)[i], e)
    // money moves by at most one call, only on approval, for exactly the sub-units of the evidence
    ensures provider.calls != old(provider.calls) ==>
      && i in old(t.intents) && i !in old(t.lockKeys)
      && var job := JobOf(old(t.intents)[i], Captures(old(t.View()), i) > 0, e.answers);
         EndToEnd.MovesAsApproved(old(provider.calls), provider.calls, job.View(), job.neg, job.det)
    // short of the update, an early end leaves intents and evidence alone
    ensures !answer.Done? && e.fault != AtUpdate ==> t.evidence == old(t.evidence) && t.intents == old(t.intents)
    ensures !answer.Done? ==> t.intents == old(t.intents) || t.intents == Marked(old(t.intents), i)
    // a completed run: the state that the evidence or the execution asks for, under the next version, the rows
    // of the check and of the execution, one row of evidence, a terminal state if it was approved, and one
    // open case if it was not and the evidence is ambiguous
    ensures answer.Done? ==>
      && i in old(t.intents) && !IsTerminal(old(t.intents)[i].state)
      && t.intents == old(t.intents)[i := Advanced(old(t.intents)[i], answer.final)]
      && EndsIn(HasCapture(old(t.execs), i), old(t.intents)[i], e, answer.decision, answer.final)
      && t.execs == old(t.execs) + RowsOf(old(t.execs), i, old(t.intents)[i], e, answer.decision)
      && t.evidence == old(t.evidence) + [EvidenceRow(i, answer.action, old(t.intents)[i].amount, answer.decision)]
      && (answer.decision == Approve ==> IsTerminal(answer.final) && answer.action == e.answers.det.action)
      && (answer.decision != Approve ==> answer.action == NoAction)
      && t.cases == old(t.cases) + AmbiguityCases(i, e.answers, answer.decision)
      && (AmbiguityCases(i, e.answers, answer.decision) != [] ==> answer.final == PaymentState.ManualReview)
  {
    ghost var w := t.View();
    var locked := t.AcquireIntentLock(i, r);
    if !locked {
      assert SoloLoad(w, r, i, e) == w;
      GoneIsGone(w, r, RowAt(w, i), e);
      return Skipped;
    }
    ghost var held := t.View();
    assert Begin(w, r, i) == AtPhase(held, r, i, Locked);
    if e.fault == AtPool {
      assert held.runs[r := Run(i, Locked)] - {r} == held.runs;
      assert SoloLoad(w, r, i, e) == held;
      GoneIsGone(held, r, RowAt(w, i), e);
      return PoolFailure;
    }
    MoveOn(held, r, i, Locked, Connected);
    if e.fault == AtLoad {
      RaiseAt(held, r, i, Connected);
      GoneIsGone(held.(locks := held.locks - {i}), r, RowAt(w, i), e);
      answer := Error;
    } else if i !in t.intents {
      FinishAt(held, r, i, Connected);
      GoneIsGone(held.(locks := held.locks - {i}), r, RowAt(w, i), e);
      answer := Error;
    } else if IsTerminal(t.intents[i].state) {
      FinishAt(held, r, i, Connected);
      GoneIsGone(held.(locks := held.locks - {i}), r, RowAt(w, i), e);
      answer := Skipped;
    } else {
      MoveOn(held, r, i, Connected, Loaded(t.intents[i]));
      answer := Work(t, provider, mac, r, i, t.intents[i], e);
    }
    t.ReleaseIntentLock(i);
  }
}
