/** The theorems about all behaviours of the resolution protocol; ProtocolWitnesses shows where their
    conditions cannot be dropped. */
module ProtocolTheorems {
  import opened Domain
  import opened Counting
  import opened Intents
  import opened StateMachine
  import opened Protocol
  import opened ProtocolSafety
  import Executor

  // ---- Over all behaviours ----

  /** Every world that some interleaving leads to. */
  function Reached(steps: seq<Step>): World {
    RunAll(Empty, steps)
  }

  lemma ReachedIsOk(steps: seq<Step>)
    ensures Inv(Reached(steps))
  {
    EmptyIsOk();
    BehaviourKeepsInv(Empty, steps);
  }

  lemma ReachedBalances(steps: seq<Step>, i: IntentId)
    ensures Balanced(BooksOf(Reached(steps), i))
  {
    ReachedIsOk(steps);
  }

  /** No two living runs work on the same intent. */
  lemma MutualExclusion(steps: seq<Step>, r: RunId, q: RunId)
    requires r in Reached(steps).runs && q in Reached(steps).runs
    requires Reached(steps).runs[r].intent == Reached(steps).runs[q].intent
    ensures r == q
  {
    ReachedIsOk(steps);
  }

  /** Whatever the detective and the provider answer, however runs and writers interleave and die,
      an intent has at most one successful CAPTURE row. */
  lemma AtMostOneCapture(steps: seq<Step>, i: IntentId)
    ensures Captures(Reached(steps), i) <= 1
  {
    ReachedBalances(steps, i);
  }

  /** The captures that the provider or a rail has really made, reported or not. */
  function ProviderCaptures(w: World, i: IntentId): nat {
    HistoryOf(w.journal, i).provided
  }

  /** Those that the executor was not told of. */
  function UnreportedCaptures(w: World, i: IntentId): nat {
    HistoryOf(w.journal, i).unreported
  }

  /** Those that the executor reported and whose row was lost. */
  function UnrecordedCaptures(w: World, i: IntentId): nat {
    HistoryOf(w.journal, i).unrecorded
  }

  /** The captures that really happened: the recorded one; those whose row was lost to a crash or a
      failed insert; those that an error, a timeout, an unreadable answer or a crash in the call hid; and
      the one whose run is still about to record it. */
  lemma ProviderCapturesAccounted(steps: seq<Step>, i: IntentId)
    ensures var w := Reached(steps);
      && ProviderCaptures(w, i)
         == Captures(w, i) + UnrecordedCaptures(w, i) + UnreportedCaptures(w, i) + CaptureInHand(InFlight(w, i))
      && ProviderCaptures(w, i) <= 1 + UnrecordedCaptures(w, i) + UnreportedCaptures(w, i)
  {
    ReachedBalances(steps, i);
    var b := BooksOf(Reached(steps), i);
    if CaptureInHand(b.phase) == 1 {
      CaptureMeansFirst(b.phase.value.job, b.phase.value.fin);
    }
  }

  // ---- What a step adds to the history ----

  /** The run ends by an exception or a crash outside its call. */
  predicate IsFailure(s: Step) {
    s.DoRaise? || s.DoCrash?
  }

  /** Run `r` stands between its evidence and its update. */
  predicate IsBetween(w: World, r: RunId) {
    r in w.runs && (w.runs[r].phase.Evidenced? || w.runs[r].phase.Effected?)
  }

  predicate AwaitsUpdate(w: World, r: RunId, i: IntentId, moves: bool) {
    IsBetween(w, r) && w.runs[r].intent == i && MoneyIn(w.runs[r].phase.fin) == moves
  }

  /** What the kind of an entry tells about the step that adds it. */
  predicate IsNoteOf(w: World, s: Step, e: Entry) {
    match e
    case CaptureCall(_, made, reported) =>
      (s.DoExecute? || s.DoCrashInCall?) && (Discloses(s) ==> made == 1 && reported)
    case UnrecordedCapture(_) => s.DoSettle? || (IsFailure(s) && !IsBetween(w, s.r))
    case Completed(_, _, _, _, _, _) => s.DoUpdate?
    case LostUpdate(i, _, moves, _) => IsFailure(s) && AwaitsUpdate(w, s.r, i, moves)
    case LostCase(_) => IsFailure(s) && !IsBetween(w, s.r)
    case Reopened(i) => s.DoCheckout? && s.i == i
  }

  /** A step adds at most one entry to the history, whose kind tells what step it was. */
  lemma StepNotes(w: World, s: Step) returns (note: Option<Entry>)
    ensures Next(w, s).journal == if note.None? then w.journal else w.journal + [note.value]
    ensures note.Some? ==> IsNoteOf(w, s, note.value)
    ensures note.None? && IsFailure(s) ==> !IsBetween(w, s.r)
  {
    note := None;
    if s.DoExecute? {
      note := CallNote(w, s.r, s.c);
    } else if IsFailure(s) {
      note := FailureNote(w, s);
    } else if Next(w, s).journal != w.journal {
      note := Some(Next(w, s).journal[|w.journal|]);
    }
  }

  lemma FailureNote(w: World, s: Step) returns (note: Option<Entry>)
    requires IsFailure(s)
    ensures Next(w, s).journal == if note.None? then w.journal else w.journal + [note.value]
    ensures note.Some? ==> IsNoteOf(w, s, note.value)
    ensures note.None? ==> !IsBetween(w, s.r)
  {
    note := None;
    if s.r in w.runs && !(s.DoRaise? && w.runs[s.r].phase.Locked?) {
      note := Loss(w.runs[s.r].intent, w.runs[s.r].phase);
    }
  }

  lemma CallNote(w: World, r: RunId, c: Circumstances) returns (note: Option<Entry>)
    ensures Act(w, r, c).journal == if note.None? then w.journal else w.journal + [note.value]
    ensures note.Some? ==> note.value.CaptureCall?
    ensures note.Some? && c.env.hidden == 0 ==> note.value.made == 1 && note.value.reported
  {
    note := None;
    if At(w, r) && w.runs[r].phase.Logged? && w.runs[r].phase.job.Approved() {
      var i, job := w.runs[r].intent, w.runs[r].phase.job;
      var made := CapturesMade(job, c);
      Executor.ReportedCapturesAreMade(CommandOf(job, c.key, c.paymentId, c.issuedAt), true, c.env);
      if made > 0 {
        var outcome := OutcomeOf(job, c);
        note := Some(CaptureCall(i, made, outcome.Finished? && IsCaptureSuccess(Some(outcome.result))));
      }
    }
  }

  lemma NotedHistory(w: World, s: Step, note: Option<Entry>, i: IntentId)
    requires Next(w, s).journal == if note.None? then w.journal else w.journal + [note.value]
    ensures HistoryOf(Next(w, s).journal, i) ==
      if note.Some? && note.value.intent == i then WithEntry(HistoryOf(w.journal, i), note.value) else HistoryOf(w.journal, i)
  {
    if note.Some? {
      AppendEntry(w.journal, note.value, i);
    }
  }

  /** The step hides no capture: no process dies in a call, and every call reports what it made. */
  predicate Discloses(s: Step) {
    !s.DoCrashInCall? && (s.DoExecute? ==> s.c.env.hidden == 0)
  }

  lemma StepDiscloses(w: World, s: Step, i: IntentId)
    requires Discloses(s)
    ensures UnreportedCaptures(Next(w, s), i) == UnreportedCaptures(w, i)
  {
    var note := StepNotes(w, s);
    NotedHistory(w, s, note, i);
  }

  /** Without hidden captures none goes unreported. */
  lemma {:induction false} UnreportedOnlyIfHidden(w: World, steps: seq<Step>, i: IntentId)
    requires forall s | s in steps :: Discloses(s)
    ensures UnreportedCaptures(RunAll(w, steps), i) == UnreportedCaptures(w, i)
    decreases |steps|
  {
    if steps != [] {
      StepDiscloses(w, steps[0], i);
      UnreportedOnlyIfHidden(Next(w, steps[0]), steps[1..], i);
    }
  }

  /** The version of an intent counts the completed runs: each version below the current one was the
      key of exactly one, so the keys are pairwise distinct. */
  lemma KeysAreDistinct(steps: seq<Step>, i: IntentId, v: nat)
    ensures var w := Reached(steps);
      Count(w.journal, CompletedAt(i, v)) == if i in w.intents && 1 <= v < w.intents[i].version then 1 else 0
  {
    ReachedIsOk(steps);
    assert KeysOk(Reached(steps), i);
  }

  function EvidenceCount(w: World, i: IntentId): nat {
    TrailOf(w.evidence, i).rows
  }

  function LostUpdates(w: World, i: IntentId): nat {
    HistoryOf(w.journal, i).lost
  }

  /** The evidence of an intent: one row for each version it has gone through, one for each run that
      ended between its evidence and its update, and that of a run now between the two. */
  lemma EvidenceAgainstVersion(steps: seq<Step>, i: IntentId)
    requires i in Reached(steps).intents
    ensures var w := Reached(steps);
      EvidenceCount(w, i) == w.intents[i].version - 1 + LostUpdates(w, i) + EvidenceInHand(InFlight(w, i))
  {
    ReachedBalances(steps, i);
  }

  /** The cases of an intent: one for each completed run that took the ambiguity branch, and one for
      each run that opened a case and then ended early or has yet to complete. */
  lemma CasesAccounted(steps: seq<Step>, i: IntentId)
    ensures var w := Reached(steps);
      var h := HistoryOf(w.journal, i);
      Count(w.cases, CaseFor(i)) == h.caseClosed + h.lostWithCase + h.lostCase + CaseInHand(InFlight(w, i))
  {
    ReachedBalances(steps, i);
  }

  /** Completed runs: an approved one has written a terminal state, one that opened a case has
      written MANUAL_REVIEW. */
  lemma CompletionsAreFinal(steps: seq<Step>, e: Entry)
    requires e in Reached(steps).journal && e.Completed?
    ensures e.approved ==> IsTerminal(e.final)
    ensures e.openedCase ==> e.final == PaymentState.ManualReview
  {
    ReachedIsOk(steps);
    assert EntryOk(e);
  }

  function ApprovedCompletions(w: World, i: IntentId): nat {
    HistoryOf(w.journal, i).approvedDone
  }

  function LostApprovals(w: World, i: IntentId): nat {
    HistoryOf(w.journal, i).lostApproval
  }

  function Reopenings(w: World, i: IntentId): nat {
    HistoryOf(w.journal, i).reopened
  }

  /** At most one completed run of an intent is approved for each time the intent was opened. */
  lemma ApprovedCompletionsBounded(steps: seq<Step>, i: IntentId)
    ensures ApprovedCompletions(Reached(steps), i) <= 1 + Reopenings(Reached(steps), i)
  {
    ReachedBalances(steps, i);
  }

  /** Only checkout verification adds a reopening to the history.  It is not the only way for a terminal
      intent to become resolvable again: see TerminalLeftExactlyWhen. */
  lemma {:induction false} ReopenedOnlyByCheckout(w: World, steps: seq<Step>, i: IntentId)
    requires forall s | s in steps :: !(s.DoCheckout? && s.i == i)
    ensures Reopenings(RunAll(w, steps), i) == Reopenings(w, i)
    decreases |steps|
  {
    if steps != [] {
      StepReopens(w, steps[0], i);
      ReopenedOnlyByCheckout(Next(w, steps[0]), steps[1..], i);
    }
  }

  lemma StepReopens(w: World, s: Step, i: IntentId)
    requires !(s.DoCheckout? && s.i == i)
    ensures Reopenings(Next(w, s), i) == Reopenings(w, i)
  {
    var note := StepNotes(w, s);
    NotedHistory(w, s, note, i);
  }

  /** Without checkout verifications, at most one completed run of an intent is approved. */
  lemma AtMostOneApproval(steps: seq<Step>, i: IntentId)
    requires forall s | s in steps :: !(s.DoCheckout? && s.i == i)
    ensures ApprovedCompletions(Reached(steps), i) <= 1
  {
    ApprovedCompletionsBounded(steps, i);
    ReopenedOnlyByCheckout(Empty, steps, i);
  }

  // ---- Leaving a terminal state ----

  /** A verified checkout, unless what its handler has read says that it was verified before. */
  predicate Reauthorizes(s: Step, i: IntentId) {
    s.DoCheckout? && s.i == i && !AlreadyVerified(s.seen, s.pay)
  }

  /** The final update of a run that has chosen a state which is not terminal.  It looks neither at the
      version nor at the state that it overwrites. */
  predicate Reverts(w: World, s: Step, i: IntentId) {
    && s.DoUpdate? && s.r in w.runs && w.runs[s.r].intent == i
    && w.runs[s.r].phase.Effected? && !IsTerminal(w.runs[s.r].phase.final)
  }

  /** Exactly which steps make a terminal intent resolvable again. */
  lemma TerminalLeftExactlyWhen(w: World, s: Step, i: IntentId)
    requires IsClosed(w, i)
    ensures i in Next(w, s).intents
    ensures !IsTerminal(Next(w, s).intents[i].state) <==> Reauthorizes(s, i) || Reverts(w, s, i)
  {
    if !WritesState(s) {
      OtherStepsKeepStates(w, s, i);
    }
  }

  /** The steps whose statements write `current_state`. */
  predicate WritesState(s: Step) {
    s.DoUpdate? || s.DoCreateOrder? || s.DoWebhook? || s.DoCheckout? || s.DoReportFailure? || s.DoCloseCase?
  }

  lemma OtherStepsKeepStates(w: World, s: Step, i: IntentId)
    requires i in w.intents && !WritesState(s)
    ensures i in Next(w, s).intents && Next(w, s).intents[i].state == w.intents[i].state
  {
  }

  predicate IsClosed(w: World, i: IntentId) {
    i in w.intents && IsTerminal(w.intents[i].state)
  }

  predicate LeavesTerminal(w: World, s: Step, i: IntentId) {
    IsClosed(w, i) && (Reauthorizes(s, i) || Reverts(w, s, i))
  }

  /** How often that happens along a behaviour. */
  function Leavings(w: World, steps: seq<Step>, i: IntentId): nat
    decreases |steps|
  {
    if steps == [] then 0
    else (if LeavesTerminal(w, steps[0], i) then 1 else 0) + Leavings(Next(w, steps[0]), steps[1..], i)
  }

  /** A terminal intent stays terminal through every behaviour in which it does not happen. */
  lemma {:induction false} TerminalUnlessLeft(w: World, steps: seq<Step>, i: IntentId)
    requires IsClosed(w, i) && Leavings(w, steps, i) == 0
    ensures IsClosed(RunAll(w, steps), i)
    decreases |steps|
  {
    if steps != [] {
      TerminalLeftExactlyWhen(w, steps[0], i);
      TerminalUnlessLeft(Next(w, steps[0]), steps[1..], i);
    }
  }

  /** Once there are more approved completed runs than reopenings, the intent is terminal and no run has
      loaded it. */
  lemma ApprovedAndClosed(steps: seq<Step>, i: IntentId)
    requires ApprovedCompletions(Reached(steps), i) > Reopenings(Reached(steps), i)
    ensures IsClosed(Reached(steps), i) && !Loading(InFlight(Reached(steps), i))
  {
    ReachedBalances(steps, i);
    var b := BooksOf(Reached(steps), i);
    assert Allowance(b) == 1;
  }

  /** So a final update that makes a terminal intent resolvable again is one of an unapproved run, and it
      undoes no approved one: it overwrites a failure report, a webhook or an operator's resolution. */
  lemma RevertingUndoesNoApproval(steps: seq<Step>, s: Step, i: IntentId)
    requires Reverts(Reached(steps), s, i)
    ensures var w := Reached(steps);
      !w.runs[s.r].phase.job.Approved() && ApprovedCompletions(w, i) <= Reopenings(w, i)
  {
    ReachedIsOk(steps);
    var w := Reached(steps);
    OwnBooks(w, s.r);
    var p := w.runs[s.r].phase;
    ApprovedEndsTerminal(p.job, p.fin);
    if ApprovedCompletions(w, i) > Reopenings(w, i) {
      ApprovedAndClosed(steps, i);
      assert Loading(Some(p));
      assert false;
    }
  }

  /** Only an exception or a crash loses an update after its evidence. */
  lemma {:induction false} UpdatesLostOnlyByFailure(w: World, steps: seq<Step>, i: IntentId)
    requires forall s | s in steps :: !IsFailure(s)
    ensures LostUpdates(RunAll(w, steps), i) == LostUpdates(w, i)
    ensures LostApprovals(RunAll(w, steps), i) == LostApprovals(w, i)
    decreases |steps|
  {
    if steps != [] {
      var note := StepNotes(w, steps[0]);
      NotedHistory(w, steps[0], note, i);
      UpdatesLostOnlyByFailure(Next(w, steps[0]), steps[1..], i);
    }
  }

  /** The approvals on record: those of completed runs, lost ones, and that of a run about to complete. */
  lemma ApprovalsBounded(steps: seq<Step>, i: IntentId)
    ensures var w := Reached(steps);
      TrailOf(w.evidence, i).approvals <= 1 + Reopenings(w, i) + LostApprovals(w, i)
  {
    ReachedBalances(steps, i);
    var b := BooksOf(Reached(steps), i);
    assert ApprovalInHand(b.phase) == 1 ==> Allowance(b) == 0;
  }
}
