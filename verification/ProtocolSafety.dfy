/** What every interleaving of the resolution protocol preserves.  The books of an intent relate its
    tables, the phase of the run that holds its lock and its history; they balance in every
    reachable world. */
module ProtocolSafety {
  import opened Domain
  import opened Counting
  import opened Intents
  import opened StateMachine
  import opened Protocol
  import Policy
  import Executor
  import Reconciliation

  // ---- The history of one intent ----

  /** What the journal tells about an intent: captures made, those of them that were not reported, and
      reported ones without a row; completed runs that were approved, that moved money and that opened a
      case; the same of runs whose update was lost; cases without evidence; and reopenings. */
  datatype History = History(
    provided: nat, unreported: nat, unrecorded: nat,
    approvedDone: nat, moneyDone: nat, caseClosed: nat,
    lost: nat, lostApproval: nat, lostMoney: nat, lostWithCase: nat,
    lostCase: nat, reopened: nat)

  const NoHistory := History(0, 0, 0, 0, 0, 0, 0, 0, 0, 0, 0, 0)

  function WithEntry(h: History, e: Entry): History {
    match e
    case CaptureCall(_, made, reported) => WithCall(h, made, reported)
    case UnrecordedCapture(_) => h.(unrecorded := h.unrecorded + 1)
    case Completed(_, _, approved, moves, openedCase, _) => WithCompletion(h, approved, moves, openedCase)
    case LostUpdate(_, approved, moves, openedCase) => WithLostUpdate(h, approved, moves, openedCase)
    case LostCase(_) => h.(lostCase := h.lostCase + 1)
    case Reopened(_) => h.(reopened := h.reopened + 1)
  }

  function WithCall(h: History, made: nat, reported: bool): History {
    h.(provided := h.provided + made,
       unreported := h.unreported + made - (if reported && made > 0 then 1 else 0))
  }

  function WithCompletion(h: History, approved: bool, moves: bool, openedCase: bool): History {
    h.(approvedDone := h.approvedDone + (if approved then 1 else 0),
       moneyDone := h.moneyDone + (if moves then 1 else 0),
       caseClosed := h.caseClosed + (if openedCase then 1 else 0))
  }

  function WithLostUpdate(h: History, approved: bool, moves: bool, openedCase: bool): History {
    h.(lost := h.lost + 1,
       lostApproval := h.lostApproval + (if approved then 1 else 0),
       lostMoney := h.lostMoney + (if moves then 1 else 0),
       lostWithCase := h.lostWithCase + (if openedCase then 1 else 0))
  }

  function HistoryOf(journal: seq<Entry>, i: IntentId): History {
    if journal == [] then NoHistory
    else
      var h, e := HistoryOf(journal[..|journal| - 1], i), journal[|journal| - 1];
      if e.intent == i then WithEntry(h, e) else h
  }

  lemma AppendEntry(journal: seq<Entry>, e: Entry, i: IntentId)
    ensures HistoryOf(journal + [e], i) == if e.intent == i then WithEntry(HistoryOf(journal, i), e) else HistoryOf(journal, i)
  {
    assert (journal + [e])[..|journal|] == journal;
  }

  function CompletedAt(i: IntentId, v: nat): Entry -> bool {
    (e: Entry) => e.Completed? && e.intent == i && e.version == v
  }

  // ---- The evidence and the cases of one intent ----

  /** How many evidence rows there are, how many of them approve, and how many name a movement of money. */
  datatype Trail = Trail(rows: nat, approvals: nat, moneys: nat)

  function WithRow(t: Trail, e: EvidenceRow): Trail {
    Trail(t.rows + 1,
          t.approvals + (if e.decision == Approve then 1 else 0),
          t.moneys + (if Executor.MovesMoney(e.action) then 1 else 0))
  }

  function TrailOf(evidence: seq<EvidenceRow>, i: IntentId): Trail {
    if evidence == [] then Trail(0, 0, 0)
    else
      var t, e := TrailOf(evidence[..|evidence| - 1], i), evidence[|evidence| - 1];
      if e.intent == i then WithRow(t, e) else t
  }

  lemma AppendRow(evidence: seq<EvidenceRow>, e: EvidenceRow, i: IntentId)
    ensures TrailOf(evidence + [e], i) == if e.intent == i then WithRow(TrailOf(evidence, i), e) else TrailOf(evidence, i)
  {
    assert (evidence + [e])[..|evidence|] == evidence;
  }

  function CaseFor(i: IntentId): CaseRow -> bool {
    (c: CaseRow) => c.intent == i
  }

  // ---- The books of one intent ----

  datatype Books = Books(
    row: Option<Intent>,
    phase: Option<Phase>,
    captures: nat,
    trail: Trail,
    cases: nat,
    history: History)

  function BooksOf(w: World, i: IntentId): Books {
    Books(
      if i in w.intents then Some(w.intents[i]) else None,
      InFlight(w, i),
      Captures(w, i),
      TrailOf(w.evidence, i),
      Count(w.cases, CaseFor(i)),
      HistoryOf(w.journal, i))
  }

  function VersionOf(row: Option<Intent>): nat {
    if row.Some? then row.value.version else 1
  }

  /** The loaded row is stale in everything but its version, which only the lock holder advances. */
  predicate RowOk(b: Books, row: Intent) {
    b.row.Some? && row.version == b.row.value.version && !IsTerminal(row.state)
  }

  predicate FinOk(job: Job, fin: Option<Executor.FinOpsResult>) {
    && (fin.Some? <==> job.Approved())
    && (fin.Some? ==>
          && fin.value.action == job.det.action
          && (Executor.IsEffective(fin.value.status) ==>
                Executor.MovesMoney(fin.value.action) || fin.value.action == NoAction))
  }

  predicate PhaseOk(b: Books) {
    match b.phase
    case None => true
    case Some(Locked) => true
    case Some(Connected) => true
    case Some(Loaded(row)) => RowOk(b, row)
    case Some(Counted(row, h)) => RowOk(b, row) && h == (b.captures > 0)
    case Some(Gathered(job)) => RowOk(b, job.row) && job.hasCapture == (b.captures > 0)
    case Some(Logged(job)) => RowOk(b, job.row) && job.hasCapture == (b.captures > 0)
    case Some(Acted(job, fin)) => RowOk(b, job.row) && job.hasCapture == (b.captures > 0) && FinOk(job, fin)
    case Some(Settled(job, fin, final)) => RowOk(b, job.row) && FinOk(job, fin) && final == FinalState(job, fin)
    case Some(Evidenced(job, fin, final)) => RowOk(b, job.row) && FinOk(job, fin) && final == FinalState(job, fin)
    case Some(Effected(job, fin, final)) => RowOk(b, job.row) && FinOk(job, fin) && final == FinalState(job, fin)
    case Some(Updated) => true
  }

  /** A capture that the provider has made and the run has not yet tried to record. */
  function CaptureInHand(phase: Option<Phase>): nat {
    match phase
    case Some(Acted(job, fin)) => if IsCaptureSuccess(fin) then 1 else 0
    case _ => 0
  }

  /** Evidence written by a run that has not yet updated the intent. */
  function EvidenceInHand(phase: Option<Phase>): nat {
    match phase
    case Some(Evidenced(_, _, _)) => 1
    case Some(Effected(_, _, _)) => 1
    case _ => 0
  }

  function CaseInHand(phase: Option<Phase>): nat {
    match phase
    case Some(Settled(job, _, _)) => if job.OpensCase() then 1 else 0
    case Some(Evidenced(job, _, _)) => if job.OpensCase() then 1 else 0
    case Some(Effected(job, _, _)) => if job.OpensCase() then 1 else 0
    case _ => 0
  }

  function ApprovalInHand(phase: Option<Phase>): nat {
    match phase
    case Some(Evidenced(job, _, _)) => if job.Approved() then 1 else 0
    case Some(Effected(job, _, _)) => if job.Approved() then 1 else 0
    case _ => 0
  }

  function MoneyInHand(phase: Option<Phase>): nat {
    match phase
    case Some(Evidenced(_, fin, _)) => if MoneyIn(fin) then 1 else 0
    case Some(Effected(_, fin, _)) => if MoneyIn(fin) then 1 else 0
    case _ => 0
  }

  /** A run that has loaded the intent and not yet updated it. */
  predicate Loading(phase: Option<Phase>) {
    phase.Some? && !phase.value.Locked? && !phase.value.Connected? && !phase.value.Updated?
  }

  /** A terminal state may owe itself to one approved run; that a run could load the intent shows
      that there was none, or that the intent was reopened since. */
  function Allowance(b: Books): nat {
    if !Loading(b.phase) && b.row.Some? && IsTerminal(b.row.value.state) then 1 else 0
  }

  predicate Balanced(b: Books) {
    var h := b.history;
    && PhaseOk(b)
    && VersionOf(b.row) >= 1
    && b.captures <= 1
    && h.provided == b.captures + h.unrecorded + h.unreported + CaptureInHand(b.phase)
    && b.trail.rows + 1 == VersionOf(b.row) + h.lost + EvidenceInHand(b.phase)
    && b.trail.approvals == h.approvedDone + h.lostApproval + ApprovalInHand(b.phase)
    && b.trail.moneys == h.moneyDone + h.lostMoney + MoneyInHand(b.phase)
    && h.moneyDone <= h.approvedDone
    && h.approvedDone <= h.reopened + Allowance(b)
    && b.cases == h.caseClosed + h.lostWithCase + h.lostCase + CaseInHand(b.phase)
  }

  // ---- The invariant ----

  /** The lock of a living run's intent was set by that run, so no two living runs share an intent. */
  predicate LocksOk(w: World) {
    forall r | r in w.runs :: w.runs[r].intent in w.locks && w.locks[w.runs[r].intent] == r
  }

  predicate EntryOk(e: Entry) {
    e.Completed? ==>
      && (e.approved ==> IsTerminal(e.final))
      && (e.openedCase ==> e.final == PaymentState.ManualReview)
  }

  predicate EvidenceOk(e: EvidenceRow) {
    Executor.MovesMoney(e.action) ==> e.decision == Approve
  }

  predicate EvidenceLogOk(log: seq<EvidenceRow>) {
    forall e | e in log :: EvidenceOk(e)
  }

  /** Each version below the current one was the idempotency key of exactly one completed run. */
  ghost predicate KeysOk(w: World, i: IntentId) {
    forall v: nat ::
      Count(w.journal, CompletedAt(i, v)) ==
        if 1 <= v < VersionOf(if i in w.intents then Some(w.intents[i]) else None) then 1 else 0
  }

  ghost predicate Inv(w: World) {
    && LocksOk(w)
    && (forall e | e in w.journal :: EntryOk(e))
    && EvidenceLogOk(w.evidence)
    && (forall i: IntentId :: Balanced(BooksOf(w, i)))
    && (forall i: IntentId :: KeysOk(w, i))
  }

  // ---- How the books change ----

  predicate SameTables(w: World, w': World) {
    && w'.intents == w.intents && w'.execs == w.execs && w'.evidence == w.evidence
    && w'.cases == w.cases && w'.journal == w.journal
  }

  /** Of all runs only that of intent `i` has moved on or ended. */
  ghost predicate OnlyPhase(w: World, w': World, i: IntentId, phase: Option<Phase>) {
    forall j: IntentId :: InFlight(w', j) == if j == i then phase else InFlight(w, j)
  }

  lemma PhaseBooks(w: World, w': World, i: IntentId, phase: Option<Phase>)
    requires SameTables(w, w') && OnlyPhase(w, w', i, phase)
    ensures forall j: IntentId :: BooksOf(w', j) == if j == i then BooksOf(w, j).(phase := phase) else BooksOf(w, j)
  {
    forall j: IntentId ensures BooksOf(w', j) == BooksOf(w, j).(phase := InFlight(w', j)) {
    }
  }

  lemma MovePhases(w: World, r: RunId, phase: Phase)
    requires LocksOk(w) && At(w, r)
    ensures LocksOk(Move(w, r, phase)) && OnlyPhase(w, Move(w, r, phase), w.runs[r].intent, Some(phase))
  {
  }

  lemma EndPhases(w: World, r: RunId)
    requires LocksOk(w) && At(w, r)
    ensures LocksOk(Finish(w, r)) && OnlyPhase(w, Finish(w, r), w.runs[r].intent, None)
    ensures LocksOk(Vanish(w, r)) && OnlyPhase(w, Vanish(w, r), w.runs[r].intent, None)
  {
  }

  /** Moving a run on changes only the phase in its own intent's books. */
  lemma MoveBooks(w: World, r: RunId, phase: Phase)
    requires LocksOk(w) && At(w, r)
    ensures LocksOk(Move(w, r, phase))
    ensures forall j: IntentId :: BooksOf(Move(w, r, phase), j)
                               == (if j == w.runs[r].intent then BooksOf(w, j).(phase := Some(phase)) else BooksOf(w, j))
  {
    MovePhases(w, r, phase);
    PhaseBooks(w, Move(w, r, phase), w.runs[r].intent, Some(phase));
  }

  /** So does ending it, whether the lock is released or left behind. */
  lemma EndBooks(w: World, r: RunId)
    requires LocksOk(w) && At(w, r)
    ensures LocksOk(Finish(w, r)) && LocksOk(Vanish(w, r))
    ensures forall j: IntentId :: BooksOf(Finish(w, r), j)
                               == (if j == w.runs[r].intent then BooksOf(w, j).(phase := None) else BooksOf(w, j))
    ensures forall j: IntentId :: BooksOf(Vanish(w, r), j)
                               == (if j == w.runs[r].intent then BooksOf(w, j).(phase := None) else BooksOf(w, j))
  {
    EndPhases(w, r);
    PhaseBooks(w, Finish(w, r), w.runs[r].intent, None);
    PhaseBooks(w, Vanish(w, r), w.runs[r].intent, None);
  }

  lemma AppendKeys(journal: seq<Entry>, e: Entry, i: IntentId)
    ensures forall v: nat :: Count(journal + [e], CompletedAt(i, v))
                          == Count(journal, CompletedAt(i, v)) + (if CompletedAt(i, v)(e) then 1 else 0)
  {
    forall v: nat {
      CountAppend(journal, e, CompletedAt(i, v));
    }
  }

  /** The books of a living run's intent carry the run's phase. */
  lemma OwnPhase(w: World, r: RunId)
    requires LocksOk(w) && At(w, r)
    ensures InFlight(w, w.runs[r].intent) == Some(w.runs[r].phase)
  {
  }

  // ---- Every statement of a run keeps the invariant ----

  /** A step that touches no table only has to balance the new phase. */
  lemma PhaseStep(w: World, w': World, i: IntentId, phase: Option<Phase>)
    requires Inv(w) && LocksOk(w') && SameTables(w, w') && OnlyPhase(w, w', i, phase)
    requires Balanced(BooksOf(w, i).(phase := phase))
    ensures Inv(w')
  {
    PhaseBooks(w, w', i, phase);
    forall j: IntentId
      ensures Balanced(BooksOf(w', j)) && KeysOk(w', j)
    {
      assert Balanced(BooksOf(w, j)) && KeysOk(w, j);
    }
  }

  /** A run that moves on without touching a table. */
  lemma MoveStep(w: World, r: RunId, phase: Phase)
    requires Inv(w) && At(w, r) && Balanced(BooksOf(w, w.runs[r].intent).(phase := Some(phase)))
    ensures Inv(Move(w, r, phase))
  {
    MovePhases(w, r, phase);
    PhaseStep(w, Move(w, r, phase), w.runs[r].intent, Some(phase));
  }

  /** A run that ends without touching a table. */
  lemma EndStep(w: World, r: RunId)
    requires Inv(w) && At(w, r) && Balanced(BooksOf(w, w.runs[r].intent).(phase := None))
    ensures Inv(Finish(w, r)) && Inv(Vanish(w, r))
  {
    EndPhases(w, r);
    PhaseStep(w, Finish(w, r), w.runs[r].intent, None);
    PhaseStep(w, Vanish(w, r), w.runs[r].intent, None);
  }

  /** A step that changes the books of one intent only, and no completion or version. */
  lemma LocalStep(w: World, w': World, i: IntentId)
    requires Inv(w) && LocksOk(w') && w'.journal == w.journal
    requires forall j :: j in w'.intents <==> j in w.intents
    requires forall j :: j in w.intents ==> w'.intents[j].version == w.intents[j].version
    requires EvidenceLogOk(w'.evidence)
    requires forall j: IntentId :: j != i ==> BooksOf(w', j) == BooksOf(w, j)
    requires Balanced(BooksOf(w', i))
    ensures Inv(w')
  {
    forall j: IntentId
      ensures Balanced(BooksOf(w', j)) && KeysOk(w', j)
    {
      assert Balanced(BooksOf(w, j)) && KeysOk(w, j);
    }
  }

  /** A run that changes the books of its own intent only, as it moves on. */
  lemma TableStep(w: World, mid: World, r: RunId, phase: Phase)
    requires Inv(w) && At(w, r) && mid.runs == w.runs && mid.locks == w.locks
    requires mid.intents == w.intents && mid.journal == w.journal
    requires EvidenceLogOk(mid.evidence)
    requires forall j: IntentId :: j != w.runs[r].intent ==> BooksOf(mid, j) == BooksOf(w, j)
    requires Balanced(BooksOf(mid, w.runs[r].intent).(phase := Some(phase)))
    ensures Inv(Move(mid, r, phase))
  {
    MoveBooks(mid, r, phase);
    LocalStep(w, Move(mid, r, phase), w.runs[r].intent);
  }

  /** Outside its loaded phases a run has no account open. */
  lemma IdlePhases(b: Books, phase: Option<Phase>)
    requires Balanced(b) && !Loading(b.phase) && !Loading(phase)
    ensures Balanced(b.(phase := phase))
  {
  }

  lemma BeginKeepsInv(w: World, r: RunId, i: IntentId)
    requires Inv(w)
    ensures Inv(Begin(w, r, i))
  {
    if Begin(w, r, i) != w {
      IdlePhases(BooksOf(w, i), Some(Locked));
      BeginPhases(w, r, i);
      PhaseStep(w, Begin(w, r, i), i, Some(Locked));
    }
  }

  lemma BeginPhases(w: World, r: RunId, i: IntentId)
    requires LocksOk(w) && r !in w.runs && i !in w.locks
    ensures LocksOk(Begin(w, r, i)) && OnlyPhase(w, Begin(w, r, i), i, Some(Locked)) && InFlight(w, i) == None
  {
  }

  lemma ConnectKeepsInv(w: World, r: RunId, ok: bool)
    requires Inv(w)
    ensures Inv(Connect(w, r, ok))
  {
    if Connect(w, r, ok) != w {
      OwnPhase(w, r);
      IdlePhases(BooksOf(w, w.runs[r].intent), if ok then Some(Connected) else None);
      if ok {
        MoveStep(w, r, Connected);
      } else {
        EndStep(w, r);
      }
    }
  }

  lemma LoadKeepsInv(w: World, r: RunId)
    requires Inv(w)
    ensures Inv(Load(w, r))
  {
    if Load(w, r) != w {
      OwnPhase(w, r);
      var i := w.runs[r].intent;
      if i in w.intents && !IsTerminal(w.intents[i].state) {
        LoadBalances(BooksOf(w, i));
        MoveStep(w, r, Loaded(w.intents[i]));
      } else {
        IdlePhases(BooksOf(w, i), None);
        EndStep(w, r);
      }
    }
  }

  lemma LoadBalances(b: Books)
    requires Balanced(b) && b.phase == Some(Connected) && b.row.Some? && !IsTerminal(b.row.value.state)
    ensures Balanced(b.(phase := Some(Loaded(b.row.value))))
  {
  }

  lemma CountKeepsInv(w: World, r: RunId)
    requires Inv(w)
    ensures Inv(CountCaptures(w, r))
  {
    if CountCaptures(w, r) != w {
      OwnPhase(w, r);
      var i, row := w.runs[r].intent, w.runs[r].phase.row;
      CountBalances(BooksOf(w, i), row);
      MoveStep(w, r, Counted(row, Captures(w, i) > 0));
    }
  }

  lemma CountBalances(b: Books, row: Intent)
    requires Balanced(b) && b.phase == Some(Loaded(row))
    ensures Balanced(b.(phase := Some(Counted(row, b.captures > 0))))
  {
  }

  lemma GatherKeepsInv(w: World, r: RunId, a: Answers)
    requires Inv(w)
    ensures Inv(Gather(w, r, a))
  {
    if Gather(w, r, a) != w {
      OwnPhase(w, r);
      var p := w.runs[r].phase;
      GatherBalances(BooksOf(w, w.runs[r].intent), p.row, p.hasCapture, a);
      MoveStep(w, r, Gathered(JobOf(p.row, p.hasCapture, a)));
    }
  }

  lemma GatherBalances(b: Books, row: Intent, hasCapture: bool, a: Answers)
    requires Balanced(b) && b.phase == Some(Counted(row, hasCapture))
    ensures Balanced(b.(phase := Some(Gathered(JobOf(row, hasCapture, a)))))
  {
  }

  lemma ReleaseKeepsInv(w: World, r: RunId)
    requires Inv(w)
    ensures Inv(Release(w, r))
  {
    if Release(w, r) != w {
      OwnPhase(w, r);
      IdlePhases(BooksOf(w, w.runs[r].intent), None);
      EndStep(w, r);
    }
  }

  lemma ExpireKeepsInv(w: World, i: IntentId)
    requires Inv(w)
    ensures Inv(Expire(w, i))
  {
    if Expire(w, i) != w {
      IdlePhases(BooksOf(w, i), None);
      ExpirePhases(w, i);
      PhaseStep(w, Expire(w, i), i, None);
    }
  }

  lemma ExpirePhases(w: World, i: IntentId)
    requires LocksOk(w) && InFlight(w, i) == None
    ensures LocksOk(Expire(w, i)) && OnlyPhase(w, Expire(w, i), i, None)
  {
  }

  /** The evidence check's row is never a capture. */
  lemma LogVerifyKeepsInv(w: World, r: RunId, ok: bool)
    requires Inv(w)
    ensures Inv(LogVerify(w, r, ok))
  {
    if LogVerify(w, r, ok) != w {
      OwnPhase(w, r);
      var i, job := w.runs[r].intent, w.runs[r].phase.job;
      LogBalances(BooksOf(w, i), job);
      VerifyRowIsNoCapture(w, i, job);
      TableStep(w, if ok then w.(execs := InsertExec(w.execs, VerifyRow(i, job))) else w, r, Logged(job));
    }
  }

  lemma LogBalances(b: Books, job: Job)
    requires Balanced(b) && b.phase == Some(Gathered(job))
    ensures Balanced(b.(phase := Some(Logged(job))))
  {
  }

  lemma VerifyRowIsNoCapture(w: World, i: IntentId, job: Job)
    ensures forall j: IntentId :: BooksOf(w.(execs := InsertExec(w.execs, VerifyRow(i, job))), j) == BooksOf(w, j)
  {
    forall j: IntentId {
      CountAppend(w.execs, VerifyRow(i, job), IsCapture(j));
    }
  }

  /** Noting an entry changes the histories only. */
  lemma NoteBooks(w: World, e: Entry)
    ensures forall j: IntentId :: BooksOf(w.(journal := w.journal + [e]), j)
                               == BooksOf(w, j).(history := HistoryOf(w.journal + [e], j))
  {
    var w' := w.(journal := w.journal + [e]);
    forall j: IntentId ensures BooksOf(w', j) == BooksOf(w, j).(history := HistoryOf(w'.journal, j)) {
      assert InFlight(w', j) == InFlight(w, j);
    }
  }

  /** A step that adds one history entry about its own intent. */
  lemma EntryStep(w: World, w': World, i: IntentId, e: Entry)
    requires Inv(w) && LocksOk(w')
    requires e.intent == i && !e.Completed?
    requires w'.journal == w.journal + [e] && w'.evidence == w.evidence
    requires forall j :: j in w'.intents <==> j in w.intents
    requires forall j :: j in w.intents ==> w'.intents[j].version == w.intents[j].version
    requires forall j: IntentId :: j != i ==> BooksOf(w', j) == BooksOf(w, j).(history := HistoryOf(w.journal + [e], j))
    requires Balanced(BooksOf(w', i))
    ensures Inv(w')
  {
    forall j: IntentId
      ensures Balanced(BooksOf(w', j)) && KeysOk(w', j)
    {
      assert Balanced(BooksOf(w, j)) && KeysOk(w, j);
      AppendEntry(w.journal, e, j);
      AppendKeys(w.journal, e, j);
    }
  }

  /** A run that adds one history entry about its own intent as it moves on. */
  lemma NotedStep(w: World, r: RunId, phase: Phase, e: Entry)
    requires Inv(w) && At(w, r) && e.intent == w.runs[r].intent && !e.Completed?
    requires Balanced(BooksOf(w, e.intent).(phase := Some(phase), history := HistoryOf(w.journal + [e], e.intent)))
    ensures Inv(Move(w.(journal := w.journal + [e]), r, phase))
  {
    var mid := w.(journal := w.journal + [e]);
    NoteBooks(w, e);
    MoveBooks(mid, r, phase);
    EntryStep(w, Move(mid, r, phase), e.intent, e);
  }

  /** What the executor answers to an approved job is consistent with the job. */
  lemma OutcomeIsConsistent(job: Job, c: Circumstances)
    requires job.Approved() && OutcomeOf(job, c).Finished?
    ensures FinOk(job, Some(OutcomeOf(job, c).result))
  {
    Executor.OnlyListedActionsSucceed(CommandOf(job, c.key, c.paymentId, c.issuedAt), true, c.env);
  }

  lemma ActKeepsInv(w: World, r: RunId, c: Circumstances)
    requires Inv(w)
    ensures Inv(Act(w, r, c))
  {
    var w' := Act(w, r, c);
    if w' != w {
      OwnPhase(w, r);
      var i, job := w.runs[r].intent, w.runs[r].phase.job;
      assert Balanced(BooksOf(w, i));
      if !job.Approved() {
        MoveStep(w, r, Acted(job, None));
      } else if OutcomeOf(job, c).Raised? {
        UnfinishedCallKeepsInv(w, r, job, CapturesMade(job, c));
      } else {
        OutcomeIsConsistent(job, c);
        Executor.ReportedCapturesAreMade(CommandOf(job, c.key, c.paymentId, c.issuedAt), true, c.env);
        ActedKeepsInv(w, r, job, OutcomeOf(job, c).result, CapturesMade(job, c));
      }
    }
  }

  /** A call whose answer never comes leaves nothing behind but the captures it has made. */
  lemma UnfinishedCallKeepsInv(w: World, r: RunId, job: Job, made: nat)
    requires Inv(w) && At(w, r) && w.runs[r].phase == Logged(job)
    ensures var noted := Note(w, w.runs[r].intent, made, false);
      Inv(Finish(noted, r)) && Inv(Vanish(noted, r))
  {
    OwnPhase(w, r);
    var i := w.runs[r].intent;
    UnfinishedCallBalances(BooksOf(w, i), job, made);
    if made == 0 {
      EndStep(w, r);
    } else {
      var e := CaptureCall(i, made, false);
      AppendEntry(w.journal, e, i);
      EndWithEntryKeepsInv(w, r, e);
    }
  }

  lemma UnfinishedCallBalances(b: Books, job: Job, made: nat)
    requires Balanced(b) && b.phase == Some(Logged(job))
    ensures Balanced(b.(phase := None, history := WithCall(b.history, made, false)))
  {
  }

  lemma CrashInCallKeepsInv(w: World, r: RunId, c: Circumstances)
    requires Inv(w)
    ensures Inv(CrashInCall(w, r, c))
  {
    if CrashInCall(w, r, c) != w {
      UnfinishedCallKeepsInv(w, r, w.runs[r].phase.job, CapturesMade(w.runs[r].phase.job, c));
    }
  }

  lemma ActBalances(b: Books, job: Job, fin: Option<Executor.FinOpsResult>, made: nat)
    requires Balanced(b) && b.phase == Some(Logged(job)) && FinOk(job, fin)
    requires IsCaptureSuccess(fin) ==> made > 0
    ensures Balanced(b.(phase := Some(Acted(job, fin)), history := WithCall(b.history, made, IsCaptureSuccess(fin))))
  {
  }

  lemma ActedKeepsInv(w: World, r: RunId, job: Job, result: Executor.FinOpsResult, made: nat)
    requires Inv(w) && At(w, r) && w.runs[r].phase == Logged(job)
    requires FinOk(job, Some(result)) && (IsCaptureSuccess(Some(result)) ==> made > 0)
    ensures Inv(Move(Note(w, w.runs[r].intent, made, IsCaptureSuccess(Some(result))), r, Acted(job, Some(result))))
  {
    OwnPhase(w, r);
    var i, reported := w.runs[r].intent, IsCaptureSuccess(Some(result));
    var phase := Acted(job, Some(result));
    ActBalances(BooksOf(w, i), job, Some(result), made);
    if made > 0 {
      AppendEntry(w.journal, CaptureCall(i, made, reported), i);
      NotedStep(w, r, phase, CaptureCall(i, made, reported));
    } else {
      MoveStep(w, r, phase);
    }
  }

  /** A run that was approved leaves a terminal state, whatever it attempted and whatever the executor
      answered; one that opened a case leaves MANUAL_REVIEW. */
  lemma ApprovedEndsTerminal(job: Job, fin: Option<Executor.FinOpsResult>)
    requires FinOk(job, fin)
    ensures job.Approved() ==> IsTerminal(FinalState(job, fin))
    ensures job.OpensCase() ==> FinalState(job, fin) == PaymentState.ManualReview
  {
    if job.Approved() {
      assert Policy.IsResolvable(job.row.state);
    }
  }

  /** What the written state means.  CAPTURED: an approved capture or NO_ACTION succeeded and the intent
      was UNCERTAIN or VERIFYING; a capture out of PENDING_RAIL or AUTHORIZED is not in the transition
      table and goes to review, as does every successful refund or void.  FAILED: an approved action did
      not succeed, or an unapproved run saw FAILED evidence, in a state whose failure the table lists. */
  lemma FinalStateMeans(job: Job, fin: Option<Executor.FinOpsResult>)
    requires FinOk(job, fin) && !IsTerminal(job.row.state)
    ensures FinalState(job, fin) == PaymentState.Captured <==>
      && fin.Some? && Executor.IsEffective(fin.value.status)
      && fin.value.action in {ActionType.Capture, NoAction}
      && job.row.state in {Uncertain, Verifying}
    ensures FinalState(job, fin) == PaymentState.Failed <==>
      && (if fin.Some? then !Executor.IsEffective(fin.value.status) else job.neg.status == ExternalStatus.Failed)
      && job.row.state in {Created, PendingRail, Uncertain, Verifying, PaymentState.Unknown}
    ensures fin.Some? && Executor.IsEffective(fin.value.status) && FinalState(job, fin) != PaymentState.Captured ==>
      FinalState(job, fin) == PaymentState.ManualReview
  {
    if job.Approved() {
      assert Policy.IsResolvable(job.row.state);
    }
  }

  /** An operator's resolution closes the case, and settles its intent whatever state it is in. */
  lemma ClosingSettles(w: World, c: nat, action: OperatorAction)
    requires c < |w.cases| && w.cases[c].intent in w.intents
    ensures var w', i := Next(w, DoCloseCase(c, action)), w.cases[c].intent;
      && w'.cases == w.cases[c := CaseRow(i, w.cases[c].divergence, Closed)]
      && w'.intents.Keys == w.intents.Keys
      && w'.intents[i].resolution == Resolution.Resolved && w'.intents[i].version == w.intents[i].version
      && w'.intents[i].state == if action == OpOther then PaymentState.ManualReview else Reconciled
  {
    WhatWritersChange(w.intents, w.cases[c].intent, "", None, w.intents[w.cases[c].intent], action);
  }

  /** What an unapproved run writes, from the loaded state and the evidence alone.  FAILED evidence fails the
      states that a failure can follow, and DUPLICATE evidence makes an UNCERTAIN intent suspected; out of
      any other state both need a human, as does evidence that decides nothing.  Evidence that is definite
      otherwise leaves the intent as it was. */
  predicate RefusedMeans(loaded: PaymentState, evidence: ExternalStatus, ambiguous: bool, final: PaymentState) {
    match evidence
    case Failed =>
      final == if loaded in {Created, PendingRail, Uncertain, Verifying, PaymentState.Unknown}
               then PaymentState.Failed else PaymentState.ManualReview
    case Duplicate => final == if loaded == Uncertain then DuplicateSuspected else PaymentState.ManualReview
    case Unknown => final == PaymentState.ManualReview
    case _ => final == if ambiguous then PaymentState.ManualReview else loaded
  }

  lemma RefusedStateMeans(job: Job)
    requires !IsTerminal(job.row.state)
    ensures RefusedMeans(job.row.state, job.neg.status, job.ambiguous, FinalState(job, None))
  {
  }

  /** What an approved run writes, from the loaded state, the action and whether it was carried out. */
  predicate ApprovedMeans(loaded: PaymentState, action: ActionType, succeeded: bool, final: PaymentState) {
    if !succeeded then
      final == if loaded in {PendingRail, Uncertain, Verifying} then PaymentState.Failed else PaymentState.ManualReview
    else
      final == if action in {ActionType.Capture, NoAction} && loaded in {Uncertain, Verifying}
               then PaymentState.Captured else PaymentState.ManualReview
  }

  lemma ApprovedStateMeans(job: Job, fin: Executor.FinOpsResult)
    requires FinOk(job, Some(fin))
    ensures ApprovedMeans(job.row.state, fin.action, fin.status in {Success, Refunded, Voided}, FinalState(job, Some(fin)))
  {
    assert Policy.IsResolvable(job.row.state);
  }

  /** CAPTURED does not mean that money was captured, nor even that the evidence was positive: an
      approved NO_ACTION succeeds on FAILED evidence. */
  lemma CapturedWithoutCapture(row: Intent, confidence: real)
    requires row.state == Uncertain && confidence >= 0.85
    ensures var job := Job(row, false, NegotiatorResult(ExternalStatus.Failed, None, row.amount, row.currency),
                           DetectiveResult(NoAction, confidence), false, Reconciliation.NoDivergence);
      job.Approved() && FinalState(job, Some(Executor.FinOpsResult(NoAction, Success))) == PaymentState.Captured
  {
  }

  /** A capture is only ever in hand when no capture was on record. */
  lemma CaptureMeansFirst(job: Job, fin: Option<Executor.FinOpsResult>)
    requires FinOk(job, fin) && IsCaptureSuccess(fin)
    ensures !job.hasCapture && !job.OpensCase()
  {
    Policy.CaptureApprovedExactlyWhen(job.View(), job.neg, job.det);
  }

  lemma SettleKeepsInv(w: World, r: RunId, ok: bool, command: nat)
    requires Inv(w)
    ensures Inv(Settle(w, r, ok, command))
  {
    var w' := Settle(w, r, ok, command);
    if w' != w {
      OwnPhase(w, r);
      var i, job, fin := w.runs[r].intent, w.runs[r].phase.job, w.runs[r].phase.fin;
      assert Balanced(BooksOf(w, i));
      if IsCaptureSuccess(fin) {
        CaptureMeansFirst(job, fin);
        SettleCaptureKeepsInv(w, r, ok, command);
      } else {
        SettleOtherKeepsInv(w, r, ok, command);
      }
    }
  }

  /** The capture row is written, or the history notes that it was not. */
  lemma CaptureSettlementBalances(b: Books, job: Job, fin: Option<Executor.FinOpsResult>, recorded: bool)
    requires Balanced(b) && b.phase == Some(Acted(job, fin)) && IsCaptureSuccess(fin)
    requires !job.OpensCase() && !job.hasCapture
    ensures var b' := b.(phase := Some(Settled(job, fin, FinalState(job, fin))));
      if recorded then Balanced(b'.(captures := b.captures + 1))
      else Balanced(b'.(history := b.history.(unrecorded := b.history.unrecorded + 1)))
  {
  }

  lemma SettleCaptureKeepsInv(w: World, r: RunId, ok: bool, command: nat)
    requires Inv(w) && At(w, r) && w.runs[r].phase.Acted?
    requires IsCaptureSuccess(w.runs[r].phase.fin) && !w.runs[r].phase.job.OpensCase()
    requires !w.runs[r].phase.job.hasCapture
    ensures Inv(Settle(w, r, ok, command))
  {
    OwnPhase(w, r);
    var w' := Settle(w, r, ok, command);
    var i, job, fin := w.runs[r].intent, w.runs[r].phase.job, w.runs[r].phase.fin;
    var phase := Settled(job, fin, FinalState(job, fin));
    CaptureSettlementBalances(BooksOf(w, i), job, fin, w'.execs != w.execs);
    if w'.execs == w.execs {
      UnrecordedKeepsInv(w, r, phase);
    } else {
      RecordedKeepsInv(w, r, phase, MutationRow(i, job, fin.value, command));
    }
  }

  lemma UnrecordedKeepsInv(w: World, r: RunId, phase: Phase)
    requires Inv(w) && At(w, r)
    requires var b := BooksOf(w, w.runs[r].intent);
      Balanced(b.(phase := Some(phase), history := b.history.(unrecorded := b.history.unrecorded + 1)))
    ensures Inv(Move(w.(journal := w.journal + [UnrecordedCapture(w.runs[r].intent)]), r, phase))
  {
    var i := w.runs[r].intent;
    AppendEntry(w.journal, UnrecordedCapture(i), i);
    NotedStep(w, r, phase, UnrecordedCapture(i));
  }

  lemma RecordedKeepsInv(w: World, r: RunId, phase: Phase, row: ExecRow)
    requires Inv(w) && At(w, r) && row.intent == w.runs[r].intent && IsCapture(row.intent)(row)
    requires var b := BooksOf(w, w.runs[r].intent);
      Balanced(b.(phase := Some(phase), captures := b.captures + 1))
    ensures Inv(Move(w.(execs := w.execs + [row]), r, phase))
  {
    var i := w.runs[r].intent;
    var mid := w.(execs := w.execs + [row]);
    AppendExec(w, row);
    TableStep(w, mid, r, phase);
  }

  lemma AppendExec(w: World, row: ExecRow)
    ensures forall j: IntentId ::
      BooksOf(w.(execs := w.execs + [row]), j) == BooksOf(w, j).(captures := BooksOf(w, j).captures + if IsCapture(j)(row) then 1 else 0)
  {
    forall j: IntentId {
      CountAppend(w.execs, row, IsCapture(j));
    }
  }

  lemma OtherSettlementBalances(b: Books, job: Job, fin: Option<Executor.FinOpsResult>)
    requires Balanced(b) && b.phase == Some(Acted(job, fin)) && !IsCaptureSuccess(fin)
    ensures Balanced(b.(phase := Some(Settled(job, fin, FinalState(job, fin))),
                        cases := b.cases + if job.OpensCase() then 1 else 0))
  {
  }

  lemma OtherSettlementBooks(w: World, mid: World, i: IntentId, row: ExecRow, case_: CaseRow, opens: bool, j: IntentId)
    requires row.operation != Capture || row.status !in {Success, ExternalStatus.Captured}
    requires mid.execs == w.execs || mid.execs == w.execs + [row]
    requires case_.intent == i && mid.cases == if opens then w.cases + [case_] else w.cases
    requires mid == w.(execs := mid.execs, cases := mid.cases)
    ensures BooksOf(mid, j) == BooksOf(w, j).(cases := BooksOf(w, j).cases + if j == i && opens then 1 else 0)
  {
    CountAppend(w.execs, row, IsCapture(j));
    CountAppend(w.cases, case_, CaseFor(j));
  }

  /** Any other settlement adds no capture, and a case exactly if the run opens one. */
  lemma SettleOtherKeepsInv(w: World, r: RunId, ok: bool, command: nat)
    requires Inv(w) && At(w, r) && w.runs[r].phase.Acted? && !IsCaptureSuccess(w.runs[r].phase.fin)
    ensures Inv(Settle(w, r, ok, command))
  {
    OwnPhase(w, r);
    var w' := Settle(w, r, ok, command);
    var i, job, fin := w.runs[r].intent, w.runs[r].phase.job, w.runs[r].phase.fin;
    OtherSettlementBalances(BooksOf(w, i), job, fin);
    var row := if fin.Some? && Executor.IsEffective(fin.value.status) then MutationRow(i, job, fin.value, command)
               else ExecRow(i, NoAction, 0.0, ExternalStatus.Failed, MutationKey(command));
    OtherRowKeepsInv(w, w.(execs := w'.execs, cases := w'.cases), r, Settled(job, fin, FinalState(job, fin)), row,
                     CaseRow(i, job.divergence, Open), job.OpensCase());
  }

  /** The settlement's books, for every intent at once. */
  lemma OtherSettlementLocal(w: World, mid: World, row: ExecRow, case_: CaseRow, opens: bool)
    requires row.operation != Capture || row.status !in {Success, ExternalStatus.Captured}
    requires mid == w.(execs := mid.execs, cases := if opens then w.cases + [case_] else w.cases)
    requires mid.execs == w.execs || mid.execs == w.execs + [row]
    ensures forall j: IntentId :: j != case_.intent ==> BooksOf(mid, j) == BooksOf(w, j)
  {
    forall j: IntentId | j != case_.intent ensures BooksOf(mid, j) == BooksOf(w, j) {
      OtherSettlementBooks(w, mid, case_.intent, row, case_, opens, j);
    }
  }

  lemma OtherRowKeepsInv(w: World, mid: World, r: RunId, phase: Phase, row: ExecRow, case_: CaseRow, opens: bool)
    requires Inv(w) && At(w, r) && case_.intent == w.runs[r].intent
    requires row.operation != Capture || row.status !in {Success, ExternalStatus.Captured}
    requires mid == w.(execs := mid.execs, cases := if opens then w.cases + [case_] else w.cases)
    requires mid.execs == w.execs || mid.execs == w.execs + [row]
    requires var b := BooksOf(w, case_.intent);
      Balanced(b.(phase := Some(phase), cases := b.cases + if opens then 1 else 0))
    ensures Inv(Move(mid, r, phase))
  {
    OtherSettlementBooks(w, mid, case_.intent, row, case_, opens, case_.intent);
    OtherSettlementLocal(w, mid, row, case_, opens);
    TableStep(w, mid, r, phase);
  }

  lemma EvidenceBalances(b: Books, job: Job, fin: Option<Executor.FinOpsResult>, final: PaymentState)
    requires Balanced(b) && b.phase == Some(Settled(job, fin, final))
    ensures forall e: EvidenceRow | e.decision == job.Decision() && (Executor.MovesMoney(e.action) <==> MoneyIn(fin)) ::
      Balanced(b.(phase := Some(Evidenced(job, fin, final)), trail := WithRow(b.trail, e)))
  {
  }

  /** Money is only ever mentioned in the evidence of an approved run. */
  lemma EvidenceIsApproved(i: IntentId, job: Job, fin: Option<Executor.FinOpsResult>)
    requires FinOk(job, fin)
    ensures EvidenceOk(EvidenceOf(i, job, fin))
    ensures EvidenceOf(i, job, fin).decision == Approve <==> job.Approved()
    ensures Executor.MovesMoney(EvidenceOf(i, job, fin).action) <==> MoneyIn(fin)
  {
  }

  lemma AppendEvidence(w: World, row: EvidenceRow)
    ensures var mid := w.(evidence := w.evidence + [row]);
      forall j: IntentId ::
        BooksOf(mid, j) == if j == row.intent then BooksOf(w, j).(trail := WithRow(TrailOf(w.evidence, j), row)) else BooksOf(w, j)
  {
    forall j: IntentId {
      AppendRow(w.evidence, row, j);
    }
  }

  lemma EvidenceKeepsInv(w: World, r: RunId)
    requires Inv(w)
    ensures Inv(RecordEvidence(w, r))
  {
    var w' := RecordEvidence(w, r);
    if w' != w {
      OwnPhase(w, r);
      var i, p := w.runs[r].intent, w.runs[r].phase;
      assert Balanced(BooksOf(w, i));
      EvidenceBalances(BooksOf(w, i), p.job, p.fin, p.final);
      EvidenceIsApproved(i, p.job, p.fin);
      EvidenceRowKeepsInv(w, r, Evidenced(p.job, p.fin, p.final), EvidenceOf(i, p.job, p.fin));
    }
  }

  lemma EvidenceRowKeepsInv(w: World, r: RunId, phase: Phase, row: EvidenceRow)
    requires Inv(w) && At(w, r) && row.intent == w.runs[r].intent && EvidenceOk(row)
    requires Balanced(BooksOf(w, row.intent).(phase := Some(phase), trail := WithRow(TrailOf(w.evidence, row.intent), row)))
    ensures Inv(Move(w.(evidence := w.evidence + [row]), r, phase))
  {
    var mid := w.(evidence := w.evidence + [row]);
    assert EvidenceLogOk(mid.evidence);
    AppendEvidence(w, row);
    TableStep(w, mid, r, phase);
  }

  lemma EffectBalances(b: Books, row: Intent, job: Job, fin: Option<Executor.FinOpsResult>, final: PaymentState)
    requires Balanced(b) && b.phase == Some(Evidenced(job, fin, final))
    requires b.row.Some? && row.version == b.row.value.version
    ensures Balanced(b.(phase := Some(Effected(job, fin, final)), row := Some(row)))
  {
  }

  lemma EffectKeepsInv(w: World, r: RunId)
    requires Inv(w)
    ensures Inv(RecordEffect(w, r))
  {
    var w' := RecordEffect(w, r);
    if w' != w {
      OwnPhase(w, r);
      var i, p := w.runs[r].intent, w.runs[r].phase;
      assert Balanced(BooksOf(w, i));
      EffectBalances(BooksOf(w, i), w'.intents[i], p.job, p.fin, p.final);
      MoveBooks(w.(intents := w'.intents), r, Effected(p.job, p.fin, p.final));
      LocalStep(w, w', i);
    }
  }

  /** The update closes the run's accounts: its evidence is matched by the new version, its approval
      by the terminal state, its case by the completion. */
  lemma UpdateBalances(b: Books, row: Intent, job: Job, fin: Option<Executor.FinOpsResult>, final: PaymentState)
    requires Balanced(b) && b.phase == Some(Effected(job, fin, final))
    requires row.version == b.row.value.version + 1 && row.state == final
    ensures Balanced(b.(phase := Some(Updated), row := Some(row),
                        history := WithCompletion(b.history, job.Approved(), MoneyIn(fin), job.OpensCase())))
  {
    ApprovedEndsTerminal(job, fin);
  }

  lemma UpdateKeepsKeys(w: World, w': World, i: IntentId, e: Entry, j: IntentId)
    requires KeysOk(w, j) && i in w.intents
    requires e.Completed? && e.intent == i && e.version == w.intents[i].version >= 1
    requires w'.journal == w.journal + [e]
    requires j in w'.intents <==> j in w.intents
    requires j in w.intents ==> w'.intents[j].version == w.intents[j].version + if j == i then 1 else 0
    ensures KeysOk(w', j)
  {
    AppendKeys(w.journal, e, j);
  }

  lemma UpdateBooks(w: World, i: IntentId, row: Intent, e: Entry, j: IntentId)
    requires i in w.intents && e.Completed? && e.intent == i
    ensures var b := BooksOf(w, j);
      BooksOf(w.(intents := w.intents[i := row], journal := w.journal + [e]), j) ==
        if j != i then b
        else b.(row := Some(row), history := WithEntry(b.history, e))
  {
    AppendEntry(w.journal, e, j);
  }

  lemma UpdateKeepsInv(w: World, r: RunId)
    requires Inv(w)
    ensures Inv(Update(w, r))
  {
    var w' := Update(w, r);
    if w' != w {
      OwnPhase(w, r);
      var i, p := w.runs[r].intent, w.runs[r].phase;
      assert Balanced(BooksOf(w, i));
      var e := CompletionOf(i, p.job, p.fin, p.final);
      CompletionKeepsInv(w, r, p.job, p.fin, p.final, w'.intents[i], e);
    }
  }

  lemma CompletionKeepsInv(w: World, r: RunId, job: Job, fin: Option<Executor.FinOpsResult>, final: PaymentState,
                           row: Intent, e: Entry)
    requires Inv(w) && At(w, r) && w.runs[r].phase == Effected(job, fin, final)
    requires e == CompletionOf(w.runs[r].intent, job, fin, final)
    requires w.runs[r].intent in w.intents
    requires row.state == final && row.version == w.intents[w.runs[r].intent].version + 1
    ensures Inv(Move(w.(intents := w.intents[w.runs[r].intent := row], journal := w.journal + [e]), r, Updated))
  {
    OwnPhase(w, r);
    var i := w.runs[r].intent;
    var b := BooksOf(w, i);
    assert Balanced(b) && FinOk(job, fin);
    ApprovedEndsTerminal(job, fin);
    UpdateBalances(b, row, job, fin, final);
    var mid := w.(intents := w.intents[i := row], journal := w.journal + [e]);
    var w' := Move(mid, r, Updated);
    MoveBooks(mid, r, Updated);
    forall j: IntentId ensures Balanced(BooksOf(w', j)) {
      assert Balanced(BooksOf(w, j));
      UpdateBooks(w, i, row, e, j);
    }
    forall j: IntentId ensures KeysOk(w', j) {
      UpdateKeepsKeys(w, w', i, e, j);
    }
  }

  // ---- So do the ways in which a run can end early ----

  /** Noting the loss settles the accounts that the run leaves open. */
  lemma LossBalances(b: Books, i: IntentId, p: Phase)
    requires Balanced(b) && b.phase == Some(p)
    ensures match Loss(i, p)
      case None => Balanced(b.(phase := None))
      case Some(e) => e.intent == i && !e.Completed? && Balanced(b.(phase := None, history := WithEntry(b.history, e)))
  {
    match p {
      case Acted(_, _) =>
      case Settled(_, _, _) =>
      case Evidenced(_, _, _) =>
      case Effected(_, _, _) =>
      case _ =>
    }
  }

  /** The run is gone and its loss is noted, whether its lock is released or left behind. */
  lemma EndKeepsInv(w: World, r: RunId)
    requires Inv(w) && At(w, r)
    ensures var noted := NoteLoss(w, w.runs[r].intent, w.runs[r].phase);
      Inv(Finish(noted, r)) && Inv(Vanish(noted, r))
  {
    var i, p := w.runs[r].intent, w.runs[r].phase;
    OwnBooks(w, r);
    LossBalances(BooksOf(w, i), i, p);
    match Loss(i, p)
    case None => EndStep(w, r);
    case Some(e) =>
      AppendEntry(w.journal, e, i);
      EndWithEntryKeepsInv(w, r, e);
  }

  lemma OwnBooks(w: World, r: RunId)
    requires Inv(w) && At(w, r)
    ensures var b := BooksOf(w, w.runs[r].intent);
      Balanced(b) && b.phase == Some(w.runs[r].phase) && b.history == HistoryOf(w.journal, w.runs[r].intent)
  {
    OwnPhase(w, r);
  }

  lemma EndWithEntryKeepsInv(w: World, r: RunId, e: Entry)
    requires Inv(w) && At(w, r) && e.intent == w.runs[r].intent && !e.Completed?
    requires Balanced(BooksOf(w, e.intent).(phase := None, history := HistoryOf(w.journal + [e], e.intent)))
    ensures var noted := w.(journal := w.journal + [e]);
      Inv(Finish(noted, r)) && Inv(Vanish(noted, r))
  {
    var noted := w.(journal := w.journal + [e]);
    NoteBooks(w, e);
    EndBooks(noted, r);
    EntryStep(w, Finish(noted, r), e.intent, e);
    EntryStep(w, Vanish(noted, r), e.intent, e);
  }

  // ---- And the other writers ----

  /** A change of the intents table by a writer that leaves versions alone and nothing terminal
      becomes non-terminal. */
  lemma WriterKeepsInv(w: World, w': World)
    requires Inv(w)
    requires w' == w.(intents := w'.intents, cases := w'.cases)
    requires forall j :: j in w.intents ==>
      && j in w'.intents
      && w'.intents[j].version == w.intents[j].version
      && (IsTerminal(w.intents[j].state) ==> IsTerminal(w'.intents[j].state))
    requires forall j :: j in w'.intents && j !in w.intents ==> w'.intents[j].version == 1
    requires forall j: IntentId :: Count(w'.cases, CaseFor(j)) == Count(w.cases, CaseFor(j))
    ensures Inv(w')
  {
    forall j: IntentId ensures Balanced(BooksOf(w', j)) && KeysOk(w', j) {
      assert Balanced(BooksOf(w, j)) && KeysOk(w, j);
    }
  }

  /** A terminal intent that is authorized again is one more that can be approved. */
  lemma ReopeningBalances(b: Books, row: Intent)
    requires Balanced(b) && b.row.Some? && row.version == b.row.value.version
    ensures Balanced(b.(row := Some(row), history := b.history.(reopened := b.history.reopened + 1)))
  {
  }

  lemma CheckoutKeepsInv(w: World, i: IntentId, payment: string, seen: Intent)
    requires Inv(w)
    ensures Inv(Checkout(w, i, payment, seen))
  {
    var w' := Checkout(w, i, payment, seen);
    if w'.journal == w.journal {
      WriterKeepsInv(w, w');
    } else {
      ReopeningKeepsInv(w, i, w'.intents[i]);
    }
  }

  lemma ReopeningBooks(w: World, i: IntentId, row: Intent, j: IntentId)
    requires i in w.intents
    ensures var w' := w.(intents := w.intents[i := row], journal := w.journal + [Reopened(i)]);
      var b := BooksOf(w, j).(history := HistoryOf(w'.journal, j));
      BooksOf(w', j) == if j == i then b.(row := Some(row)) else b
  {
    var w' := w.(intents := w.intents[i := row], journal := w.journal + [Reopened(i)]);
    assert InFlight(w', j) == InFlight(w, j);
  }

  lemma ReopeningKeepsInv(w: World, i: IntentId, row: Intent)
    requires Inv(w) && i in w.intents && row.version == w.intents[i].version
    ensures Inv(w.(intents := w.intents[i := row], journal := w.journal + [Reopened(i)]))
  {
    var w' := w.(intents := w.intents[i := row], journal := w.journal + [Reopened(i)]);
    assert Balanced(BooksOf(w, i));
    ReopeningBalances(BooksOf(w, i), row);
    AppendEntry(w.journal, Reopened(i), i);
    forall j: IntentId {
      ReopeningBooks(w, i, row, j);
    }
    EntryStep(w, w', i, Reopened(i));
  }

  lemma CloseCaseKeepsInv(w: World, c: nat, action: OperatorAction)
    requires Inv(w)
    ensures Inv(CloseCase(w, c, action))
  {
    if c < |w.cases| {
      forall j: IntentId {
        CountReplace(w.cases, c, w.cases[c].(status := Closed), CaseFor(j));
      }
      WriterKeepsInv(w, CloseCase(w, c, action));
    }
  }

  // ---- Every step, hence every behaviour ----

  lemma FailureKeepsInv(w: World, s: Step)
    requires Inv(w) && (s.DoRaise? || s.DoCrash? || s.DoCrashInCall?)
    ensures Inv(Next(w, s))
  {
    if s.DoCrashInCall? {
      CrashInCallKeepsInv(w, s.r, s.c);
    } else if Next(w, s) != w {
      EndKeepsInv(w, s.r);
    }
  }

  lemma OtherWriterKeepsInv(w: World, s: Step)
    requires Inv(w) && (s.DoCreateOrder? || s.DoWebhook? || s.DoReportFailure?)
    ensures Inv(Next(w, s))
  {
    WriterKeepsInv(w, Next(w, s));
  }

  lemma ReadingKeepsInv(w: World, s: Step)
    requires Inv(w) && IsReading(s)
    ensures Inv(Next(w, s))
  {
    match s
    case DoBegin(r, i) => BeginKeepsInv(w, r, i);
    case DoConnect(r, ok) => ConnectKeepsInv(w, r, ok);
    case DoLoad(r) => LoadKeepsInv(w, r);
    case DoCount(r) => CountKeepsInv(w, r);
    case DoGather(r, answers) => GatherKeepsInv(w, r, answers);
    case DoLogVerify(r, ok) => LogVerifyKeepsInv(w, r, ok);
  }

  lemma WritingKeepsInv(w: World, s: Step)
    requires Inv(w) && (IsActing(s) || IsRecording(s) || s.DoRelease?)
    ensures Inv(Next(w, s))
  {
    match s
    case DoExecute(r, c) => ActKeepsInv(w, r, c);
    case DoSettle(r, ok, command) => SettleKeepsInv(w, r, ok, command);
    case DoEvidence(r) => EvidenceKeepsInv(w, r);
    case DoEffect(r) => EffectKeepsInv(w, r);
    case DoUpdate(r) => UpdateKeepsInv(w, r);
    case DoRelease(r) => ReleaseKeepsInv(w, r);
  }

  lemma NextKeepsInv(w: World, s: Step)
    requires Inv(w)
    ensures Inv(Next(w, s))
  {
    if IsReading(s) {
      ReadingKeepsInv(w, s);
    } else if IsActing(s) || IsRecording(s) || s.DoRelease? {
      WritingKeepsInv(w, s);
    } else {
      match s
      case DoExpire(i) => ExpireKeepsInv(w, i);
      case DoCheckout(i, pay, seen) => CheckoutKeepsInv(w, i, pay, seen);
      case DoCloseCase(c, action) => CloseCaseKeepsInv(w, c, action);
      case DoRaise(_) => FailureKeepsInv(w, s);
      case DoCrash(_) => FailureKeepsInv(w, s);
      case DoCrashInCall(_, _) => FailureKeepsInv(w, s);
      case DoCreateOrder(_, _, _) => OtherWriterKeepsInv(w, s);
      case DoWebhook(_, _, _, _, _) => OtherWriterKeepsInv(w, s);
      case DoReportFailure(_, _) => OtherWriterKeepsInv(w, s);
    }
  }

  lemma {:induction false} BehaviourKeepsInv(w: World, steps: seq<Step>)
    requires Inv(w)
    ensures Inv(RunAll(w, steps))
    decreases |steps|
  {
    if steps != [] {
      NextKeepsInv(w, steps[0]);
      BehaviourKeepsInv(Next(w, steps[0]), steps[1..]);
    }
  }

  predicate IsBare(w: World) {
    w.intents == map[] && w.execs == [] && w.evidence == [] && w.cases == [] && w.journal == [] && w.locks == map[] && w.runs == map[]
  }

  lemma BareBooks(w: World, i: IntentId)
    requires IsBare(w)
    ensures BooksOf(w, i) == Books(None, None, 0, Trail(0, 0, 0), 0, NoHistory)
  {
  }

  lemma BareBalances(b: Books)
    requires b == Books(None, None, 0, Trail(0, 0, 0), 0, NoHistory)
    ensures Balanced(b)
  {
    assert PhaseOk(b) by { assert b.phase == None; }
    assert CaptureInHand(b.phase) == 0 && EvidenceInHand(b.phase) == 0 && ApprovalInHand(b.phase) == 0;
    assert MoneyInHand(b.phase) == 0 && CaseInHand(b.phase) == 0 && Allowance(b) == 0;
  }

  lemma BareKeys(w: World, i: IntentId)
    requires IsBare(w)
    ensures KeysOk(w, i)
  {
  }

  lemma BareIsOk(w: World)
    requires IsBare(w)
    ensures Inv(w)
  {
    forall i: IntentId ensures Balanced(BooksOf(w, i)) && KeysOk(w, i) {
      BareBooks(w, i);
      BareBalances(BooksOf(w, i));
      BareKeys(w, i);
    }
  }

  lemma EmptyIsOk()
    ensures Inv(Empty)
  {
    BareIsOk(Empty);
  }
}
