/** The resolution protocol as a transition system over its tables.  Any number of `resolve` runs are
    interleaved statement by statement with each other and with the other writers of the intents
    table; processes may die at any point, and any statement may raise. */
module Protocol {
  import opened Domain
  import opened Counting
  import opened Intents
  import opened StateMachine
  import Policy
  import Executor
  import Reconciliation

  type RunId = nat

  // ---- Tables ----

  /** Unique keys of the executions table. */
  datatype ExecKey = VerifyKey(intent: IntentId, version: nat) | MutationKey(command: nat)

  datatype ExecRow = ExecRow(intent: IntentId, operation: ActionType, amount: Decimal, status: ExternalStatus, key: ExecKey)

  datatype EvidenceRow = EvidenceRow(intent: IntentId, action: ActionType, amount: Decimal, decision: DecisionType)

  datatype CaseStatus = Open | Closed

  datatype CaseRow = CaseRow(intent: IntentId, divergence: Reconciliation.Divergence, status: CaseStatus)

  // ---- Runs ----

  /** What a run knows once the outside has been asked. */
  datatype Job = Job(
    row: Intent,
    hasCapture: bool,
    neg: NegotiatorResult,
    det: DetectiveResult,
    ambiguous: bool,
    divergence: Reconciliation.Divergence)
  {
    function View(): Policy.IntentView {
      Policy.IntentView(row.state, row.amount, row.currency, hasCapture)
    }

    function Decision(): DecisionType {
      Policy.Evaluate(View(), neg, det).decision
    }

    predicate Approved() {
      Decision() == Approve
    }

    /** The rejected run that opens a case. */
    predicate OpensCase() {
      && !Approved()
      && neg.status != ExternalStatus.Failed
      && neg.status != Duplicate
      && (neg.status == ExternalStatus.Unknown || ambiguous)
    }
  }

  /** Where a run stands.  `fin` is the executor's answer, present in approved runs. */
  datatype Phase =
    | Locked                                          // holds the lock, no connection yet
    | Connected
    | Loaded(row: Intent)
    | Counted(row: Intent, hasCapture: bool)
    | Gathered(job: Job)
    | Logged(job: Job)
    | Acted(job: Job, fin: Option<Executor.FinOpsResult>)
    | Settled(job: Job, fin: Option<Executor.FinOpsResult>, final: PaymentState)
    | Evidenced(job: Job, fin: Option<Executor.FinOpsResult>, final: PaymentState)
    | Effected(job: Job, fin: Option<Executor.FinOpsResult>, final: PaymentState)
    | Updated

  datatype Run = Run(intent: IntentId, phase: Phase)

  // ---- History, kept for stating theorems only ----

  datatype Entry =
    | CaptureCall(intent: IntentId, made: nat, reported: bool)  // captures made in a call; was one reported?
    | UnrecordedCapture(intent: IntentId)              // a reported capture whose row was never written
    | Completed(intent: IntentId, version: nat, approved: bool, moves: bool, openedCase: bool, final: PaymentState)
    | LostUpdate(intent: IntentId, approved: bool, moves: bool, openedCase: bool)  // evidence written, intent never updated
    | LostCase(intent: IntentId)                       // case opened, evidence never written
    | Reopened(intent: IntentId)                       // a terminal intent was authorized again

  /** `locks` maps a locked intent to the run that set the key.  The key itself carries no owner; the
      value only serves to say that no lock expires while its run is alive. */
  datatype World = World(
    intents: Table,
    execs: seq<ExecRow>,
    evidence: seq<EvidenceRow>,
    cases: seq<CaseRow>,
    locks: map<IntentId, RunId>,
    runs: map<RunId, Run>,
    journal: seq<Entry>)

  const Empty := World(map[], [], [], [], map[], map[], [])

  // ---- Derived quantities ----

  function IsCapture(i: IntentId): ExecRow -> bool {
    (e: ExecRow) => e.intent == i && e.operation == ActionType.Capture && e.status in {Success, ExternalStatus.Captured}
  }

  function Captures(w: World, i: IntentId): nat {
    Count(w.execs, IsCapture(i))
  }

  predicate KeyFree(execs: seq<ExecRow>, key: ExecKey) {
    forall e | e in execs :: e.key != key
  }

  /** INSERT ... ON CONFLICT (idempotency_key) DO NOTHING, under the table's checks on status and
      operation. */
  function InsertExec(execs: seq<ExecRow>, row: ExecRow): seq<ExecRow> {
    if KeyFree(execs, row.key) && row.status != ExternalStatus.Authorized
       && row.operation !in {Reroute, ActionType.ManualReview}
    then execs + [row] else execs
  }

  /** The phase of the living run that holds the intent's lock, if there is one. */
  function InFlight(w: World, i: IntentId): Option<Phase> {
    if i in w.locks && w.locks[i] in w.runs && w.runs[w.locks[i]].intent == i
    then Some(w.runs[w.locks[i]].phase) else None
  }

  // ---- The statements of a run ----

  predicate At(w: World, r: RunId) {
    r in w.runs
  }

  function Move(w: World, r: RunId, phase: Phase): World
    requires At(w, r)
  {
    w.(runs := w.runs[r := Run(w.runs[r].intent, phase)])
  }

  /** The world in which run `r` holds the lock of intent `i` and stands at `phase`. */
  function AtPhase(w: World, r: RunId, i: IntentId, phase: Phase): World {
    w.(locks := w.locks[i := r], runs := w.runs[r := Run(i, phase)])
  }

  lemma MoveOn(w: World, r: RunId, i: IntentId, p: Phase, q: Phase)
    ensures At(AtPhase(w, r, i, p), r) && AtPhase(w, r, i, p).runs[r] == Run(i, p)
    ensures Move(AtPhase(w, r, i, p), r, q) == AtPhase(w, r, i, q)
  {
    assert w.runs[r := Run(i, p)][r := Run(i, q)] == w.runs[r := Run(i, q)];
  }

  /** The run is over and its `finally` has deleted the lock key. */
  function Finish(w: World, r: RunId): World
    requires At(w, r)
  {
    w.(runs := w.runs - {r}, locks := w.locks - {w.runs[r].intent})
  }

  lemma FinishAt(w: World, r: RunId, i: IntentId, p: Phase)
    requires r !in w.runs
    ensures Finish(AtPhase(w, r, i, p), r) == w.(locks := w.locks - {i})
  {
    assert w.runs[r := Run(i, p)] - {r} == w.runs;
    assert w.locks[i := r] - {i} == w.locks - {i};
  }

  /** The run is over and its lock key is still there. */
  function Vanish(w: World, r: RunId): World {
    w.(runs := w.runs - {r})
  }

  /** Setting the lock key succeeds only if it is absent; otherwise the run is skipped. */
  function Begin(w: World, r: RunId, i: IntentId): World {
    if r in w.runs || i in w.locks then w
    else w.(locks := w.locks[i := r], runs := w.runs[r := Run(i, Locked)])
  }

  /** Obtaining the pool happens outside the `try`: a failure leaves the lock behind. */
  function Connect(w: World, r: RunId, ok: bool): World {
    if !(At(w, r) && w.runs[r].phase.Locked?) then w
    else if ok then Move(w, r, Connected)
    else Vanish(w, r)
  }

  /** A missing intent is an error, a terminal one is skipped; both release the lock. */
  function Load(w: World, r: RunId): World {
    if !(At(w, r) && w.runs[r].phase.Connected?) then w
    else
      var i := w.runs[r].intent;
      if i !in w.intents || IsTerminal(w.intents[i].state) then Finish(w, r)
      else Move(w, r, Loaded(w.intents[i]))
  }

  function CountCaptures(w: World, r: RunId): World {
    if !(At(w, r) && w.runs[r].phase.Loaded?) then w
    else Move(w, r, Counted(w.runs[r].phase.row, Captures(w, w.runs[r].intent) > 0))
  }

  /** The outside's answers: evidence, detective, and the two results of the reconciliation that
      matter later. */
  datatype Answers = Answers(
    neg: NegotiatorResult,
    det: DetectiveResult,
    ambiguous: bool,
    divergence: Reconciliation.Divergence)

  function JobOf(row: Intent, hasCapture: bool, a: Answers): Job {
    Job(row, hasCapture, a.neg, a.det, a.ambiguous, a.divergence)
  }

  function Gather(w: World, r: RunId, a: Answers): World {
    if !(At(w, r) && w.runs[r].phase.Counted?) then w
    else Move(w, r, Gathered(JobOf(w.runs[r].phase.row, w.runs[r].phase.hasCapture, a)))
  }

  /** The row that records the evidence check, keyed by intent and version. */
  function VerifyRow(i: IntentId, job: Job): ExecRow {
    ExecRow(i, ActionType.Verify, job.row.amount, job.neg.status, VerifyKey(i, job.row.version))
  }

  /** A failing insert is logged and ignored. */
  function LogVerify(w: World, r: RunId, ok: bool): World {
    if !(At(w, r) && w.runs[r].phase.Gathered?) then w
    else
      var job := w.runs[r].phase.job;
      var w' := if ok then w.(execs := InsertExec(w.execs, VerifyRow(w.runs[r].intent, job))) else w;
      Move(w', r, Logged(job))
  }

  function CommandOf(job: Job, key: string, paymentId: Option<string>, issuedAt: real): Executor.Command {
    Executor.Command(Executor.Authorize(job.det.action, job.row.amount, job.row.currency, key, issuedAt), paymentId, None)
  }

  /** The circumstances of an execution: the command's target and issue time, and the outside. */
  datatype Circumstances = Circumstances(key: string, paymentId: Option<string>, issuedAt: real, env: Executor.Environment)

  /** The executor runs the freshly signed command. */
  function OutcomeOf(job: Job, c: Circumstances): Executor.Outcome {
    Executor.Perform(CommandOf(job, c.key, c.paymentId, c.issuedAt), true, c.env)
  }

  function CapturesMade(job: Job, c: Circumstances): nat {
    Executor.CapturesMade(CommandOf(job, c.key, c.paymentId, c.issuedAt), true, c.env)
  }

  /** Notes the captures that a call has made, if it has made any. */
  function Note(w: World, i: IntentId, made: nat, reported: bool): World {
    if made == 0 then w else w.(journal := w.journal + [CaptureCall(i, made, reported)])
  }

  predicate IsCaptureSuccess(fin: Option<Executor.FinOpsResult>) {
    fin.Some? && fin.value.action == ActionType.Capture && fin.value.status == Success
  }

  /** Approved runs execute; an exception from the executor ends the run with an error. */
  function Act(w: World, r: RunId, c: Circumstances): World {
    if !(At(w, r) && w.runs[r].phase.Logged?) then w
    else
      var job := w.runs[r].phase.job;
      if !job.Approved() then Move(w, r, Acted(job, None))
      else
        var i, made := w.runs[r].intent, CapturesMade(job, c);
        match OutcomeOf(job, c)
        case Raised => Finish(Note(w, i, made, false), r)
        case Finished(result) =>
          Move(Note(w, i, made, IsCaptureSuccess(Some(result))), r, Acted(job, Some(result)))
  }

  /** The process dies while the executor's call is under way. */
  function CrashInCall(w: World, r: RunId, c: Circumstances): World {
    if !(At(w, r) && w.runs[r].phase.Logged? && w.runs[r].phase.job.Approved()) then w
    else Vanish(Note(w, w.runs[r].intent, CapturesMade(w.runs[r].phase.job, c), false), r)
  }

  /** The state that the run will write. */
  function FinalState(job: Job, fin: Option<Executor.FinOpsResult>): PaymentState {
    var s := job.row.state;
    if fin.Some? then
      if Executor.IsEffective(fin.value.status) then
        if job.det.action in {ActionType.Capture, NoAction} then Transition(s, VerifiedSuccess)
        else if job.det.action in {ActionType.Void, ActionType.Refund} then Transition(s, Other("ACTION_CONFIRMED"))
        else s
      else Transition(s, VerifiedFailed)
    else if job.neg.status == ExternalStatus.Failed then Transition(s, VerifiedFailed)
    else if job.neg.status == Duplicate then Transition(s, DuplicateDetected)
    else if job.neg.status == ExternalStatus.Unknown || job.ambiguous then PaymentState.ManualReview
    else s
  }

  function MutationRow(i: IntentId, job: Job, fin: Executor.FinOpsResult, command: nat): ExecRow {
    ExecRow(i, fin.action, job.row.amount, fin.status, MutationKey(command))
  }

  /** Records a successful execution, if the insert works, or opens the case of an ambiguous
      rejection, and fixes the final state. */
  function Settle(w: World, r: RunId, ok: bool, command: nat): World {
    if !(At(w, r) && w.runs[r].phase.Acted?) then w
    else
      var i, job, fin := w.runs[r].intent, w.runs[r].phase.job, w.runs[r].phase.fin;
      var execs := if fin.Some? && Executor.IsEffective(fin.value.status) && ok
                   then InsertExec(w.execs, MutationRow(i, job, fin.value, command)) else w.execs;
      var cases := if job.OpensCase() then w.cases + [CaseRow(i, job.divergence, Open)] else w.cases;
      var journal := if IsCaptureSuccess(fin) && execs == w.execs
                     then w.journal + [UnrecordedCapture(i)] else w.journal;
      Move(w.(execs := execs, cases := cases, journal := journal), r, Settled(job, fin, FinalState(job, fin)))
  }

  /** The evidence names the attempted action, whether or not it succeeded. */
  function EvidenceOf(i: IntentId, job: Job, fin: Option<Executor.FinOpsResult>): EvidenceRow {
    EvidenceRow(i, if fin.Some? then fin.value.action else NoAction, job.row.amount, job.Decision())
  }

  function RecordEvidence(w: World, r: RunId): World {
    if !(At(w, r) && w.runs[r].phase.Settled?) then w
    else
      var p := w.runs[r].phase;
      Move(w.(evidence := w.evidence + [EvidenceOf(w.runs[r].intent, p.job, p.fin)]),
           r, Evidenced(p.job, p.fin, p.final))
  }

  function RecordEffect(w: World, r: RunId): World {
    if !(At(w, r) && w.runs[r].phase.Evidenced?) then w
    else
      var i, p := w.runs[r].intent, w.runs[r].phase;
      var w' := if p.fin.Some? && p.fin.value.status in {Success, Refunded} && i in w.intents
                then w.(intents := w.intents[i := w.intents[i].(resolution := Resolution.Resolved)]) else w;
      Move(w', r, Effected(p.job, p.fin, p.final))
  }

  /** The attempted action moves money. */
  predicate MoneyIn(fin: Option<Executor.FinOpsResult>) {
    fin.Some? && Executor.MovesMoney(fin.value.action)
  }

  function CompletionOf(i: IntentId, job: Job, fin: Option<Executor.FinOpsResult>, final: PaymentState): Entry {
    Completed(i, job.row.version, job.Approved(), MoneyIn(fin), job.OpensCase(), final)
  }

  /** The final update writes the state chosen from the row as it was loaded. */
  function Update(w: World, r: RunId): World {
    if !(At(w, r) && w.runs[r].phase.Effected? && w.runs[r].intent in w.intents) then w
    else
      var i, p := w.runs[r].intent, w.runs[r].phase;
      var row := w.intents[i];
      var row' := row.(state := p.final, version := row.version + 1,
                       resolution := if IsTerminal(p.final) then Resolution.Resolved else InProgress);
      Move(w.(intents := w.intents[i := row'],
              journal := w.journal + [CompletionOf(i, p.job, p.fin, p.final)]),
           r, Updated)
  }

  function Release(w: World, r: RunId): World {
    if !(At(w, r) && w.runs[r].phase.Updated?) then w else Finish(w, r)
  }

  /** What the history notes when a run ends early, if anything. */
  function Loss(i: IntentId, phase: Phase): Option<Entry> {
    match phase
    case Acted(_, fin) => if IsCaptureSuccess(fin) then Some(UnrecordedCapture(i)) else None
    case Settled(job, _, _) => if job.OpensCase() then Some(LostCase(i)) else None
    case Evidenced(job, fin, _) => Some(LostUpdate(i, job.Approved(), MoneyIn(fin), job.OpensCase()))
    case Effected(job, fin, _) => Some(LostUpdate(i, job.Approved(), MoneyIn(fin), job.OpensCase()))
    case _ => None
  }

  function NoteLoss(w: World, i: IntentId, phase: Phase): World {
    match Loss(i, phase)
    case None => w
    case Some(e) => w.(journal := w.journal + [e])
  }

  /** An exception inside the `try`: the run answers ERROR and its lock is released. */
  function Raise(w: World, r: RunId): World {
    if !(At(w, r) && !w.runs[r].phase.Locked?) then w
    else Finish(NoteLoss(w, w.runs[r].intent, w.runs[r].phase), r)
  }

  /** The process dies; the lock stays until it expires. */
  function Crash(w: World, r: RunId): World {
    if !At(w, r) then w
    else Vanish(NoteLoss(w, w.runs[r].intent, w.runs[r].phase), r)
  }

  /** A lock key's time runs out.  It is assumed that this does not happen to a living run. */
  function Expire(w: World, i: IntentId): World {
    if InFlight(w, i).None? then w.(locks := w.locks - {i}) else w
  }

  // ---- The other writers ----

  function Webhook(w: World, i: IntentId, failed: bool, amount: Decimal, currency: string, payment: Option<string>): World {
    match WebhookUpsert(w.intents, i, failed, amount, currency, payment)
    case Some(t) => w.(intents := t)
    case None => w
  }

  function Checkout(w: World, i: IntentId, payment: string, seen: Intent): World {
    var t := VerifyCheckout(w.intents, i, payment, seen);
    var reopens := i in w.intents && IsTerminal(w.intents[i].state) && !IsTerminal(t[i].state);
    w.(intents := t, journal := if reopens then w.journal + [Reopened(i)] else w.journal)
  }

  function CloseCase(w: World, c: nat, action: OperatorAction): World {
    if c >= |w.cases| then w
    else
      var row := w.cases[c];
      w.(cases := w.cases[c := row.(status := Closed)], intents := ManualResolve(w.intents, row.intent, action))
  }

  // ---- Behaviours ----

  datatype Step =
    | DoBegin(r: RunId, i: IntentId)
    | DoConnect(r: RunId, ok: bool)
    | DoLoad(r: RunId)
    | DoCount(r: RunId)
    | DoGather(r: RunId, answers: Answers)
    | DoLogVerify(r: RunId, ok: bool)
    | DoExecute(r: RunId, c: Circumstances)
    | DoSettle(r: RunId, ok: bool, command: nat)
    | DoEvidence(r: RunId)
    | DoEffect(r: RunId)
    | DoUpdate(r: RunId)
    | DoRelease(r: RunId)
    | DoRaise(r: RunId)
    | DoCrash(r: RunId)
    | DoCrashInCall(r: RunId, c: Circumstances)
    | DoExpire(i: IntentId)
    | DoCreateOrder(i: IntentId, amount: Decimal, currency: string)
    | DoWebhook(i: IntentId, failed: bool, amount: Decimal, currency: string, payment: Option<string>)
    | DoCheckout(i: IntentId, pay: string, seen: Intent)
    | DoReportFailure(i: IntentId, payment: Option<string>)
    | DoCloseCase(c_: nat, action: OperatorAction)

  predicate IsReading(s: Step) {
    s.DoBegin? || s.DoConnect? || s.DoLoad? || s.DoCount? || s.DoGather? || s.DoLogVerify?
  }

  predicate IsActing(s: Step) {
    s.DoExecute? || s.DoSettle?
  }

  predicate IsRecording(s: Step) {
    s.DoEvidence? || s.DoEffect? || s.DoUpdate?
  }

  function Next(w: World, s: Step): World {
    match s
    case DoBegin(r, i) => Begin(w, r, i)
    case DoConnect(r, ok) => Connect(w, r, ok)
    case DoLoad(r) => Load(w, r)
    case DoCount(r) => CountCaptures(w, r)
    case DoGather(r, answers) => Gather(w, r, answers)
    case DoLogVerify(r, ok) => LogVerify(w, r, ok)
    case DoExecute(r, c) => Act(w, r, c)
    case DoSettle(r, ok, command) => Settle(w, r, ok, command)
    case DoEvidence(r) => RecordEvidence(w, r)
    case DoEffect(r) => RecordEffect(w, r)
    case DoUpdate(r) => Update(w, r)
    case DoRelease(r) => Release(w, r)
    case DoRaise(r) => Raise(w, r)
    case DoCrash(r) => Crash(w, r)
    case DoCrashInCall(r, c) => CrashInCall(w, r, c)
    case DoExpire(i) => Expire(w, i)
    case DoCreateOrder(i, amount, currency) => w.(intents := CreateOrder(w.intents, i, amount, currency))
    case DoWebhook(i, failed, amount, currency, payment) => Webhook(w, i, failed, amount, currency, payment)
    case DoCheckout(i, pay, seen) => Checkout(w, i, pay, seen)
    case DoReportFailure(i, payment) => w.(intents := ReportFailure(w.intents, i, payment))
    case DoCloseCase(c, action) => CloseCase(w, c, action)
  }

  /** The world after a sequence of steps, in any interleaving. */
  function RunAll(w: World, steps: seq<Step>): World
    decreases |steps|
  {
    if steps == [] then w else RunAll(Next(w, steps[0]), steps[1..])
  }

  lemma {:induction false} RunConcat(w: World, a: seq<Step>, b: seq<Step>)
    ensures RunAll(w, a + b) == RunAll(RunAll(w, a), b)
    decreases |a|
  {
    if a == [] {
      assert a + b == b;
    } else {
      assert (a + b)[1..] == a[1..] + b;
      RunConcat(Next(w, a[0]), a[1..], b);
    }
  }

  /** Extends a behaviour that starts in `w0` and has come to `w1` by one step to `w2`. */
  lemma Advance(w0: World, steps: seq<Step>, w1: World, s: Step, w2: World) returns (longer: seq<Step>)
    requires RunAll(w0, steps) == w1 && Next(w1, s) == w2
    ensures longer == steps + [s] && RunAll(w0, longer) == w2
  {
    longer := steps + [s];
    RunConcat(w0, steps, [s]);
    assert [s][1..] == [];
  }
}
