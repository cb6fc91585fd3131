/** What else the lock protects, when its keys may expire under living runs: idempotency keys, approvals and
    the money in the evidence, bounded by the number of such expiries. */
module ExpiryBounds {
  import opened Domain
  import opened Counting
  import opened Intents
  import opened StateMachine
  import opened Protocol
  import opened ProtocolSafety
  import opened ProtocolTheorems
  import opened ProtocolMoney
  import opened ProtocolExpiry

  // ---- The living runs of an intent that stand at certain phases ----

  predicate StandsAt(w: World, r: RunId, i: IntentId, p: Phase -> bool) {
    r in w.runs && w.runs[r].intent == i && p(w.runs[r].phase)
  }

  function RunsAt(w: World, i: IntentId, p: Phase -> bool): set<RunId> {
    set r | r in w.runs && StandsAt(w, r, i, p)
  }

  lemma RunsAtAreLiving(w: World, i: IntentId, p: Phase -> bool)
    ensures |RunsAt(w, i, p)| <= |Living(w, i)|
  {
    SmallerSet(RunsAt(w, i, p), Living(w, i));
  }

  /** The run that takes the step, if it is a run's. */
  function RunOf(s: Step): Option<RunId> {
    if s.DoExpire? || s.DoCreateOrder? || s.DoWebhook? || s.DoCheckout? || s.DoReportFailure? || s.DoCloseCase?
    then None else Some(s.r)
  }

  /** The runs have not changed but for `r`, which has moved on, begun or ended. */
  predicate OnlyRun(w: World, w': World, r: RunId) {
    || w'.runs == w.runs
    || w'.runs == w.runs - {r}
    || (r in w'.runs && w'.runs == w.runs[r := w'.runs[r]])
  }

  lemma ReadingRuns(w: World, s: Step)
    requires IsReading(s)
    ensures OnlyRun(w, Next(w, s), s.r)
  {
  }

  lemma WritingRuns(w: World, s: Step)
    requires IsActing(s) || IsRecording(s)
    ensures OnlyRun(w, Next(w, s), s.r)
  {
  }

  lemma EndingRuns(w: World, s: Step)
    requires IsEnding(s)
    ensures OnlyRun(w, Next(w, s), s.r)
  {
  }

  lemma WriterRuns(w: World, s: Step)
    requires RunOf(s) == None
    ensures Next(w, s).runs == w.runs
  {
  }

  /** A step changes no run but its own. */
  lemma OthersUntouched(w: World, s: Step)
    ensures match RunOf(s)
      case None => Next(w, s).runs == w.runs
      case Some(r) => OnlyRun(w, Next(w, s), r)
  {
    if IsReading(s) {
      ReadingRuns(w, s);
    } else if IsActing(s) || IsRecording(s) {
      WritingRuns(w, s);
    } else if IsEnding(s) {
      EndingRuns(w, s);
    } else {
      WriterRuns(w, s);
    }
  }

  lemma WithoutOne(a: set<RunId>, r: RunId)
    ensures |a| == |a - {r}| + One(r in a)
  {
    assert r in a ==> a == (a - {r}) + {r};
    assert r !in a ==> a - {r} == a;
  }

  lemma OnlyRunChanges(w: World, w': World, r: RunId, q: RunId, i: IntentId, p: Phase -> bool)
    requires OnlyRun(w, w', r) && q != r
    ensures StandsAt(w', q, i, p) <==> StandsAt(w, q, i, p)
  {
  }

  lemma ChangeCounts(w: World, w': World, r: RunId, i: IntentId, p: Phase -> bool)
    requires OnlyRun(w, w', r)
    ensures |RunsAt(w', i, p)| + One(StandsAt(w, r, i, p)) == |RunsAt(w, i, p)| + One(StandsAt(w', r, i, p))
  {
    forall q: RunId | q != r ensures StandsAt(w', q, i, p) <==> StandsAt(w, q, i, p) {
      OnlyRunChanges(w, w', r, q, i, p);
    }
    var before, after := RunsAt(w, i, p), RunsAt(w', i, p);
    SameButOne(before, after, r);
  }

  lemma SameButOne(a: set<RunId>, b: set<RunId>, r: RunId)
    requires forall q: RunId | q != r :: q in a <==> q in b
    ensures |b| + One(r in a) == |a| + One(r in b)
  {
    assert a - {r} == b - {r};
    WithoutOne(a, r);
    WithoutOne(b, r);
  }

  predicate ActorAt(w: World, s: Step, i: IntentId, p: Phase -> bool) {
    RunOf(s).Some? && StandsAt(w, RunOf(s).value, i, p)
  }

  lemma StepCounts(w: World, s: Step, i: IntentId, p: Phase -> bool)
    ensures |RunsAt(Next(w, s), i, p)| + One(ActorAt(w, s, i, p)) == |RunsAt(w, i, p)| + One(ActorAt(Next(w, s), s, i, p))
  {
    OthersUntouched(w, s);
    match RunOf(s)
    case None => SameRuns(w, Next(w, s), i, p);
    case Some(r) => ChangeCounts(w, Next(w, s), r, i, p);
  }

  lemma SameRuns(w: World, w': World, i: IntentId, p: Phase -> bool)
    requires w'.runs == w.runs
    ensures RunsAt(w', i, p) == RunsAt(w, i, p)
  {
  }

  /** Where the row that a run has loaded comes from: it had it before, or has just read it. */
  lemma LoadedFrom(w: World, s: Step, r: RunId)
    requires RunOf(s) == Some(r) && r in Next(w, s).runs && LoadedRow(Next(w, s).runs[r].phase).Some?
    ensures r in w.runs && Next(w, s).runs[r].intent == w.runs[r].intent
    ensures var i := w.runs[r].intent;
      || LoadedRow(Next(w, s).runs[r].phase) == LoadedRow(w.runs[r].phase)
      || (s.DoLoad? && i in w.intents && !IsClosed(w, i) && LoadedRow(Next(w, s).runs[r].phase) == Some(w.intents[i]))
  {
    if IsReading(s) {
      LoadedByReading(w, s, r);
    } else if IsActing(s) || IsRecording(s) {
      LoadedByWriting(w, s, r);
    }
  }

  lemma LoadedByReading(w: World, s: Step, r: RunId)
    requires IsReading(s) && s.r == r && r in Next(w, s).runs && LoadedRow(Next(w, s).runs[r].phase).Some?
    ensures r in w.runs && Next(w, s).runs[r].intent == w.runs[r].intent
    ensures var i := w.runs[r].intent;
      || LoadedRow(Next(w, s).runs[r].phase) == LoadedRow(w.runs[r].phase)
      || (s.DoLoad? && i in w.intents && !IsClosed(w, i) && LoadedRow(Next(w, s).runs[r].phase) == Some(w.intents[i]))
  {
  }

  lemma LoadedByWriting(w: World, s: Step, r: RunId)
    requires (IsActing(s) || IsRecording(s)) && s.r == r && r in Next(w, s).runs && LoadedRow(Next(w, s).runs[r].phase).Some?
    ensures r in w.runs && Next(w, s).runs[r].intent == w.runs[r].intent
    ensures LoadedRow(Next(w, s).runs[r].phase) == LoadedRow(w.runs[r].phase)
  {
  }

  /** The update that takes effect. */
  predicate Updates(w: World, s: Step, i: IntentId) {
    && s.DoUpdate? && s.r in w.runs && w.runs[s.r].intent == i && w.runs[s.r].phase.Effected? && i in w.intents
  }

  lemma VersionAfter(w: World, s: Step, i: IntentId)
    requires i in w.intents
    ensures i in Next(w, s).intents
    ensures Next(w, s).intents[i].version == w.intents[i].version + One(Updates(w, s, i))
  {
    if !WritesState(s) {
      OthersKeepVersions(w, s, i);
    }
  }

  lemma OthersKeepVersions(w: World, s: Step, i: IntentId)
    requires i in w.intents && !WritesState(s)
    ensures i in Next(w, s).intents && Next(w, s).intents[i].version == w.intents[i].version
  {
  }

  lemma CompletionAfter(w: World, s: Step, i: IntentId) returns (note: Option<Entry>)
    ensures Next(w, s).journal == if note.None? then w.journal else w.journal + [note.value]
    ensures note.Some? && note.value.Completed? && note.value.intent == i <==> Updates(w, s, i)
    ensures Updates(w, s, i) ==>
      var p := w.runs[s.r].phase; note.value == CompletionOf(i, p.job, p.fin, p.final)
  {
    if Updates(w, s, i) {
      var p := w.runs[s.r].phase;
      note := Some(CompletionOf(i, p.job, p.fin, p.final));
    } else {
      note := StepNotes(w, s);
      if note.Some? && note.value.Completed? {
        UpdateNote(w, s, note.value);
      }
    }
  }

  lemma UpdateNote(w: World, s: Step, e: Entry)
    requires s.DoUpdate? && e.Completed? && Next(w, s).journal == w.journal + [e]
    ensures Updates(w, s, e.intent)
  {
    assert (w.journal + [e])[|w.journal|] == e;
    assert |Next(w, s).journal| == |w.journal| + 1;
  }

  // ---- Idempotency keys ----

  /** The run has loaded version `v`. */
  function Bears(v: nat): Phase -> bool {
    (p: Phase) => LoadedRow(p).Some? && LoadedRow(p).value.version == v
  }

  function CompletionsAt(w: World, i: IntentId, v: nat): nat {
    Count(w.journal, CompletedAt(i, v))
  }

  predicate HasReached(w: World, i: IntentId, v: nat) {
    i in w.intents && w.intents[i].version >= v
  }

  /** The completed runs of a version and the living ones that have loaded it are at most one more than the
      expiries; once one is completed no other run can load it. */
  predicate KeyWithin(w: World, i: IntentId, v: nat, n: nat) {
    && CompletionsAt(w, i, v) + |RunsAt(w, i, Bears(v))| <= 1 + n
    && (CompletionsAt(w, i, v) > 0 ==> HasReached(w, i, v + 1))
    && (RunsAt(w, i, Bears(v)) != {} ==> HasReached(w, i, v))
  }

  lemma CompletionsAfter(w: World, s: Step, i: IntentId, v: nat)
    ensures CompletionsAt(Next(w, s), i, v)
         == CompletionsAt(w, i, v) + One(Updates(w, s, i) && w.runs[s.r].phase.job.row.version == v)
  {
    var note := CompletionAfter(w, s, i);
    if note.Some? {
      CountAppend(w.journal, note.value, CompletedAt(i, v));
    }
  }

  lemma UpdateEndsLoading(w: World, s: Step, i: IntentId)
    requires Updates(w, s, i)
    ensures s.r in Next(w, s).runs && Next(w, s).runs[s.r].phase == Updated
  {
  }

  lemma NonEmpty(a: set<RunId>, r: RunId)
    requires r in a
    ensures |a| > 0
  {
    assert a == (a - {r}) + {r};
  }

  /** The run that updates is among those at `p` before the step and not after it. */
  lemma UpdateActor(w: World, s: Step, i: IntentId, p: Phase -> bool)
    requires Updates(w, s, i) && !p(Updated)
    ensures ActorAt(w, s, i, p) <==> p(w.runs[s.r].phase)
    ensures !ActorAt(Next(w, s), s, i, p)
  {
    UpdateEndsLoading(w, s, i);
  }

  /** A change from `w` to `w'` in which one run may come to bear the version, or cease to, completed or not. */
  lemma KeyChange(w: World, w': World, i: IntentId, v: nat, n: nat, was: bool, becomes: bool, done: bool)
    requires KeyWithin(w, i, v, n)
    requires |RunsAt(w', i, Bears(v))| + One(was) == |RunsAt(w, i, Bears(v))| + One(becomes)
    requires CompletionsAt(w', i, v) == CompletionsAt(w, i, v) + One(done)
    requires i in w.intents ==> i in w'.intents && w'.intents[i].version >= w.intents[i].version
    requires done ==> was && !becomes && HasReached(w', i, v + 1)
    requires becomes && !was ==>
      HasReached(w, i, v) && CompletionsAt(w, i, v) == 0 && |RunsAt(w', i, Bears(v))| <= 1 + n
    ensures KeyWithin(w', i, v, n)
  {
    assert RunsAt(w', i, Bears(v)) != {} ==> |RunsAt(w', i, Bears(v))| > 0;
    assert RunsAt(w, i, Bears(v)) == {} ==> |RunsAt(w, i, Bears(v))| == 0;
  }

  lemma UpdateCounts(w: World, s: Step, w': World, i: IntentId, p: Phase -> bool)
    requires Updates(w, s, i) && !p(Updated) && w' == Next(w, s)
    ensures |RunsAt(w', i, p)| + One(p(w.runs[s.r].phase)) == |RunsAt(w, i, p)|
    ensures p(w.runs[s.r].phase) ==> RunsAt(w, i, p) != {}
  {
    StepCounts(w, s, i, p);
    UpdateActor(w, s, i, p);
    if p(w.runs[s.r].phase) {
      assert s.r in RunsAt(w, i, p);
    }
  }

  lemma KeyAfterUpdate(w: World, s: Step, w': World, i: IntentId, v: nat, n: nat)
    requires KeyWithin(w, i, v, n) && Updates(w, s, i) && w' == Next(w, s)
    ensures KeyWithin(w', i, v, n)
  {
    var done := w.runs[s.r].phase.job.row.version == v;
    UpdateCounts(w, s, w', i, Bears(v));
    CompletionsAfter(w, s, i, v);
    VersionAfter(w, s, i);
    KeyChange(w, w', i, v, n, done, false, done);
  }

  /** Any other step completes nothing; it may load the version, if it is still the current one. */
  lemma KeyAfterOther(w: World, s: Step, i: IntentId, v: nat, n: nat)
    requires KeyWithin(w, i, v, n) && !Updates(w, s, i) && |Living(Next(w, s), i)| <= 1 + n
    ensures KeyWithin(Next(w, s), i, v, n)
  {
    var w' := Next(w, s);
    StepCounts(w, s, i, Bears(v));
    CompletionsAfter(w, s, i, v);
    if i in w.intents {
      VersionAfter(w, s, i);
    }
    if ActorAt(w', s, i, Bears(v)) {
      LoadedFrom(w, s, RunOf(s).value);
      RunsAtAreLiving(w', i, Bears(v));
    }
    KeyChange(w, w', i, v, n, ActorAt(w, s, i, Bears(v)), ActorAt(w', s, i, Bears(v)), false);
  }

  lemma KeyStaysWithin(w: World, x: TimedStep, i: IntentId, v: nat, n: nat)
    requires KeyWithin(w, i, v, n) && WithinExpiries(w, i, n)
    ensures KeyWithin(NextTimed(w, x), i, v, n + One(IsLivingExpiry(w, x, i)))
  {
    StepStaysWithin(w, x, i, n);
    match x
    case KeyExpires(j) => SameRuns(w, NextTimed(w, x), i, Bears(v));
    case Ordinary(s) =>
      if Updates(w, s, i) {
        KeyAfterUpdate(w, s, Next(w, s), i, v, n);
      } else {
        KeyAfterOther(w, s, i, v, n);
      }
  }

  lemma {:induction false} RunKeepsKeyWithin(w: World, xs: seq<TimedStep>, i: IntentId, v: nat, n: nat)
    requires KeyWithin(w, i, v, n) && WithinExpiries(w, i, n)
    ensures KeyWithin(RunTimed(w, xs), i, v, n + LivingExpiries(w, xs, i))
    decreases |xs|
  {
    if xs != [] {
      StepStaysWithin(w, xs[0], i, n);
      KeyStaysWithin(w, xs[0], i, v, n);
      RunKeepsKeyWithin(NextTimed(w, xs[0]), xs[1..], i, v, n + One(IsLivingExpiry(w, xs[0], i)));
    }
  }

  lemma NothingIsWithin(w: World, i: IntentId)
    requires IsBare(w)
    ensures WithinExpiries(w, i, 0)
    ensures forall v: nat :: KeyWithin(w, i, v, 0)
  {
    assert Living(w, i) == {} && Armed(w, i) == {};
    forall v: nat ensures KeyWithin(w, i, v, 0) {
      assert RunsAt(w, i, Bears(v)) == {};
    }
  }

  /** Whatever expires when, an idempotency key is that of at most one completed run more than there are
      expiries. */
  lemma KeysWithinExpiries(xs: seq<TimedStep>, i: IntentId, v: nat)
    ensures CompletionsAt(RunTimed(Empty, xs), i, v) <= 1 + LivingExpiries(Empty, xs, i)
  {
    NothingIsWithin(Empty, i);
    RunKeepsKeyWithin(Empty, xs, i, v, 0);
  }

  // ---- Approvals ----

  /** What a run carries is consistent with the executor's answer. */
  predicate RunOk(p: Phase) {
    match p
    case Acted(job, fin) => FinOk(job, fin)
    case Settled(job, fin, final) => FinOk(job, fin) && final == FinalState(job, fin)
    case Evidenced(job, fin, final) => FinOk(job, fin) && final == FinalState(job, fin)
    case Effected(job, fin, final) => FinOk(job, fin) && final == FinalState(job, fin)
    case _ => true
  }

  predicate RunsOk(w: World) {
    forall r | r in w.runs :: RunOk(w.runs[r].phase)
  }

  lemma ActorOk(w: World, s: Step, r: RunId)
    requires RunsOk(w) && RunOf(s) == Some(r) && r in Next(w, s).runs
    ensures RunOk(Next(w, s).runs[r].phase)
  {
    if s.DoExecute? {
      ActedOk(w, r, s.c);
    }
  }

  lemma ActedOk(w: World, r: RunId, c: Circumstances)
    requires RunsOk(w) && r in Act(w, r, c).runs
    ensures RunOk(Act(w, r, c).runs[r].phase)
  {
    if At(w, r) && w.runs[r].phase.Logged? && w.runs[r].phase.job.Approved() {
      OutcomeIsConsistent(w.runs[r].phase.job, c);
    }
  }

  lemma RunsStayOk(w: World, s: Step)
    requires RunsOk(w)
    ensures RunsOk(Next(w, s))
  {
    OthersUntouched(w, s);
    if RunOf(s).Some? && RunOf(s).value in Next(w, s).runs {
      ActorOk(w, s, RunOf(s).value);
    }
  }

  function HasLoaded(): Phase -> bool {
    (p: Phase) => LoadedRow(p).Some?
  }

  /** `l` times what `n` expiries allow at once. */
  function Allowed(n: nat, l: nat): nat {
    if l == 0 then 0 else Allowed(n, l - 1) + 1 + n
  }

  lemma {:induction false} AllowedIsProduct(n: nat, l: nat)
    ensures Allowed(n, l) == (1 + n) * l
  {
    if l > 0 {
      AllowedIsProduct(n, l - 1);
    }
  }

  lemma {:induction false} AllowedGrows(n: nat, m: nat, l: nat)
    requires n <= m
    ensures Allowed(n, l) <= Allowed(m, l)
  {
    if l > 0 {
      AllowedGrows(n, m, l - 1);
    }
  }

  /** How an intent stands: its approved completed runs, the living runs that have loaded it, and whether
      it is in a terminal state. */
  datatype Standing = Standing(approved: nat, loaded: nat, closed: bool)

  function StandingOf(w: World, i: IntentId): Standing {
    Standing(ApprovedCompletions(w, i), |RunsAt(w, i, HasLoaded())|, IsClosed(w, i))
  }

  /** With `n` living expiries and `l` departures from a terminal state so far: while the intent is open its
      approved runs are within what the departures allow, and once it is terminal, they and the runs
      that have loaded it are within one departure more. */
  predicate ApprovalsWithin(st: Standing, n: nat, l: nat) {
    && st.loaded <= 1 + n
    && if st.closed then st.approved + st.loaded <= Allowed(n, l + 1) else st.approved <= Allowed(n, l)
  }

  lemma ApprovedAfter(w: World, s: Step, i: IntentId)
    ensures ApprovedCompletions(Next(w, s), i)
         == ApprovedCompletions(w, i) + One(Updates(w, s, i) && w.runs[s.r].phase.job.Approved())
  {
    var note := CompletionAfter(w, s, i);
    NotedHistory(w, s, note, i);
  }

  lemma StateAfterUpdate(w: World, s: Step, i: IntentId)
    requires RunsOk(w) && Updates(w, s, i)
    ensures i in Next(w, s).intents && Next(w, s).intents[i].state == w.runs[s.r].phase.final
    ensures w.runs[s.r].phase.job.Approved() ==> IsClosed(Next(w, s), i)
  {
    assert RunOk(w.runs[s.r].phase);
    ApprovedEndsTerminal(w.runs[s.r].phase.job, w.runs[s.r].phase.fin);
  }

  lemma ClosedAfter(w: World, s: Step, i: IntentId)
    requires IsClosed(w, i)
    ensures IsClosed(Next(w, s), i) <==> !LeavesTerminal(w, s, i)
  {
    TerminalLeftExactlyWhen(w, s, i);
  }

  lemma ApprovalsAreKept(st: Standing, st': Standing, n: nat, m: nat, l: nat, leaves: bool)
    requires ApprovalsWithin(st, n, l) && n <= m && st'.loaded <= 1 + m
    requires st'.approved + st'.loaded <= st.approved + st.loaded || !st.closed
    requires st'.approved == st.approved || (st'.approved == st.approved + 1 && st'.closed && st'.loaded + 1 == st.loaded)
    requires st.closed ==> (st'.closed <==> !leaves)
    requires leaves ==> st.closed
    ensures ApprovalsWithin(st', m, l + One(leaves))
  {
    AllowedGrows(n, m, l);
    AllowedGrows(n, m, l + 1);
  }

  lemma ClosedByUpdate(w: World, s: Step, w': World, i: IntentId)
    requires RunsOk(w) && Updates(w, s, i) && w' == Next(w, s)
    ensures w.runs[s.r].phase.job.Approved() ==> IsClosed(w', i)
    ensures IsClosed(w, i) ==> (IsClosed(w', i) <==> !LeavesTerminal(w, s, i))
  {
    StateAfterUpdate(w, s, i);
    if IsClosed(w, i) {
      ClosedAfter(w, s, i);
    }
  }

  lemma LoadedAfterUpdate(w: World, s: Step, w': World, i: IntentId)
    requires Updates(w, s, i) && w' == Next(w, s)
    ensures |RunsAt(w', i, HasLoaded())| + 1 == |RunsAt(w, i, HasLoaded())|
  {
    UpdateCounts(w, s, w', i, HasLoaded());
  }

  lemma StandingAfterUpdate(w: World, s: Step, w': World, i: IntentId)
    requires RunsOk(w) && Updates(w, s, i) && w' == Next(w, s)
    ensures var st, st' := StandingOf(w, i), StandingOf(w', i);
      && st'.loaded + 1 == st.loaded
      && (st'.approved == st.approved || (st'.approved == st.approved + 1 && st'.closed))
      && (st.closed ==> (st'.closed <==> !LeavesTerminal(w, s, i)))
  {
    LoadedAfterUpdate(w, s, w', i);
    ApprovedAfter(w, s, i);
    ClosedByUpdate(w, s, w', i);
  }

  lemma StandingAfterOther(w: World, s: Step, w': World, i: IntentId)
    requires !Updates(w, s, i) && w' == Next(w, s)
    ensures var st, st' := StandingOf(w, i), StandingOf(w', i);
      && st'.approved == st.approved
      && (st.closed ==> st'.loaded <= st.loaded && (st'.closed <==> !LeavesTerminal(w, s, i)))
  {
    ApprovedAfter(w, s, i);
    if IsClosed(w, i) {
      ClosedAfter(w, s, i);
      StepCounts(w, s, i, HasLoaded());
      if ActorAt(w', s, i, HasLoaded()) {
        LoadedFrom(w, s, RunOf(s).value);
      }
    }
  }

  lemma StandingAfter(w: World, s: Step, w': World, i: IntentId, n: nat, m: nat, l: nat)
    requires RunsOk(w) && w' == Next(w, s) && n <= m && |Living(w', i)| <= 1 + m
    requires ApprovalsWithin(StandingOf(w, i), n, l)
    ensures ApprovalsWithin(StandingOf(w', i), m, l + One(LeavesTerminal(w, s, i)))
  {
    RunsAtAreLiving(w', i, HasLoaded());
    if Updates(w, s, i) {
      StandingAfterUpdate(w, s, w', i);
    } else {
      StandingAfterOther(w, s, w', i);
    }
    ApprovalsAreKept(StandingOf(w, i), StandingOf(w', i), n, m, l, LeavesTerminal(w, s, i));
  }

  /** The departures along a behaviour with expiries. */
  predicate Departs(w: World, x: TimedStep, i: IntentId) {
    x.Ordinary? && LeavesTerminal(w, x.s, i)
  }

  function Departures(w: World, xs: seq<TimedStep>, i: IntentId): nat
    decreases |xs|
  {
    if xs == [] then 0 else One(Departs(w, xs[0], i)) + Departures(NextTimed(w, xs[0]), xs[1..], i)
  }

  /** All that is kept on the way: the invariants of the runs, of the lock, and of the approvals. */
  predicate AllWithin(w: World, i: IntentId, n: nat, l: nat) {
    RunsOk(w) && WithinExpiries(w, i, n) && ApprovalsWithin(StandingOf(w, i), n, l)
  }

  lemma AllAfterExpiry(w: World, w': World, j: IntentId, i: IntentId, n: nat, m: nat, l: nat)
    requires AllWithin(w, i, n, l) && w' == w.(locks := w.locks - {j})
    requires m == n + One(IsLivingExpiry(w, KeyExpires(j), i))
    ensures AllWithin(w', i, m, l)
  {
    StepStaysWithin(w, KeyExpires(j), i, n);
    SameRuns(w, w', i, HasLoaded());
    ApprovalsAreKept(StandingOf(w, i), StandingOf(w', i), n, m, l, false);
  }

  lemma AllAfterStep(w: World, w': World, s: Step, i: IntentId, n: nat, l: nat, d: nat)
    requires AllWithin(w, i, n, l) && w' == Next(w, s) && d == l + One(LeavesTerminal(w, s, i))
    ensures AllWithin(w', i, n, d)
  {
    StepStaysWithin(w, Ordinary(s), i, n);
    RunsStayOk(w, s);
    StandingAfter(w, s, w', i, n, n, l);
  }

  /** The step from `w` to `w'`, with the counts of expiries and departures before and after it. */
  predicate Advances(w: World, x: TimedStep, w': World, i: IntentId, n: nat, m: nat, l: nat, d: nat) {
    match x
    case KeyExpires(j) => w' == w.(locks := w.locks - {j}) && m == n + One(IsLivingExpiry(w, x, i)) && d == l
    case Ordinary(s) => w' == Next(w, s) && m == n && d == l + One(LeavesTerminal(w, s, i))
  }

  lemma NextAdvances(w: World, x: TimedStep, i: IntentId, n: nat, l: nat)
    ensures Advances(w, x, NextTimed(w, x), i, n, n + One(IsLivingExpiry(w, x, i)), l, l + One(Departs(w, x, i)))
  {
  }

  lemma AllStayWithin(w: World, x: TimedStep, w': World, i: IntentId, n: nat, m: nat, l: nat, d: nat)
    requires AllWithin(w, i, n, l) && Advances(w, x, w', i, n, m, l, d)
    ensures AllWithin(w', i, m, d)
  {
    match x
    case KeyExpires(j) => AllAfterExpiry(w, w', j, i, n, m, l);
    case Ordinary(s) => AllAfterStep(w, w', s, i, n, l, d);
  }

  lemma {:induction false} RunKeepsAllWithin(w: World, xs: seq<TimedStep>, i: IntentId, n: nat, m: nat, l: nat, d: nat)
    requires AllWithin(w, i, n, l)
    requires m == n + LivingExpiries(w, xs, i) && d == l + Departures(w, xs, i)
    ensures AllWithin(RunTimed(w, xs), i, m, d)
    decreases |xs|
  {
    if xs != [] {
      var x, w' := xs[0], NextTimed(w, xs[0]);
      var m1, d1 := n + One(IsLivingExpiry(w, x, i)), l + One(Departs(w, x, i));
      NextAdvances(w, x, i, n, l);
      AllStayWithin(w, x, w', i, n, m1, l, d1);
      RunKeepsAllWithin(w', xs[1..], i, m1, m, d1, d);
    }
  }

  lemma ReachedWithin(xs: seq<TimedStep>, i: IntentId)
    ensures AllWithin(RunTimed(Empty, xs), i, LivingExpiries(Empty, xs, i), Departures(Empty, xs, i))
  {
    NothingIsWithin(Empty, i);
    NothingStands(Empty, i);
    RunKeepsAllWithin(Empty, xs, i, 0, LivingExpiries(Empty, xs, i), 0, Departures(Empty, xs, i));
  }

  lemma NothingStands(w: World, i: IntentId)
    requires IsBare(w)
    ensures StandingOf(w, i) == Standing(0, 0, false)
  {
    assert HistoryOf(w.journal, i) == NoHistory && RunsAt(w, i, HasLoaded()) == {};
  }

  /** Whatever expires when: for the time until a terminal intent first becomes resolvable again, and for
      each time that it does, at most one completed run more than the expiries is approved. */
  lemma ApprovalsWithinExpiries(xs: seq<TimedStep>, i: IntentId)
    ensures ApprovedCompletions(RunTimed(Empty, xs), i)
         <= (1 + LivingExpiries(Empty, xs, i)) * (1 + Departures(Empty, xs, i))
  {
    ReachedWithin(xs, i);
    AllowedIsProduct(LivingExpiries(Empty, xs, i), 1 + Departures(Empty, xs, i));
  }

  // ---- Money in the evidence ----

  /** The run has evidence of an attempt to move money and has yet to update the intent. */
  function HasMoved(): Phase -> bool {
    (p: Phase) => (p.Evidenced? || p.Effected?) && MoneyIn(p.fin)
  }

  function MoneyRows(w: World, i: IntentId): nat {
    TrailOf(w.evidence, i).moneys
  }

  predicate MoneyAccounted(w: World, i: IntentId) {
    && MoneyRows(w, i) == MoneyCompletions(w, i) + LostMoney(w, i) + |RunsAt(w, i, HasMoved())|
    && MoneyCompletions(w, i) <= ApprovedCompletions(w, i)
  }

  /** The insert of evidence that takes effect. */
  predicate Evidences(w: World, s: Step, i: IntentId) {
    s.DoEvidence? && s.r in w.runs && w.runs[s.r].intent == i && w.runs[s.r].phase.Settled?
  }

  lemma EvidenceAfter(w: World, s: Step)
    ensures Next(w, s).evidence ==
      if s.DoEvidence? && s.r in w.runs && w.runs[s.r].phase.Settled?
      then w.evidence + [EvidenceOf(w.runs[s.r].intent, w.runs[s.r].phase.job, w.runs[s.r].phase.fin)]
      else w.evidence
  {
  }

  lemma MoneyRowsAfter(w: World, s: Step, i: IntentId)
    ensures MoneyRows(Next(w, s), i) == MoneyRows(w, i) + One(Evidences(w, s, i) && MoneyIn(w.runs[s.r].phase.fin))
  {
    EvidenceAfter(w, s);
    if s.DoEvidence? && s.r in w.runs && w.runs[s.r].phase.Settled? {
      AppendRow(w.evidence, EvidenceOf(w.runs[s.r].intent, w.runs[s.r].phase.job, w.runs[s.r].phase.fin), i);
    }
  }

  lemma MoneyCompletionsAfter(w: World, s: Step, i: IntentId)
    ensures MoneyCompletions(Next(w, s), i)
         == MoneyCompletions(w, i) + One(Updates(w, s, i) && MoneyIn(w.runs[s.r].phase.fin))
  {
    var note := CompletionAfter(w, s, i);
    NotedHistory(w, s, note, i);
    if note.Some? {
      CompletionCounts(HistoryOf(w.journal, i), note.value);
    }
  }

  lemma CompletionCounts(h: History, e: Entry)
    ensures WithEntry(h, e).moneyDone == h.moneyDone + One(e.Completed? && e.moves)
  {
  }

  lemma MoneyIsApproved(w: World, s: Step, i: IntentId)
    requires RunsOk(w) && Updates(w, s, i)
    ensures MoneyIn(w.runs[s.r].phase.fin) ==> w.runs[s.r].phase.job.Approved()
  {
    assert RunOk(w.runs[s.r].phase);
  }

  /** When a run comes to have moved money, and when it ceases to. */
  lemma MovedAfter(w: World, s: Step, i: IntentId)
    ensures One(ActorAt(Next(w, s), s, i, HasMoved()))
         == One(ActorAt(w, s, i, HasMoved())) + One(Evidences(w, s, i) && MoneyIn(w.runs[s.r].phase.fin))
            - One(Updates(w, s, i) && MoneyIn(w.runs[s.r].phase.fin)) - One(LosesMoney(w, s, i))
    requires HasIntents(w)
  {
  }

  /** The intents of the living runs that have loaded one are there. */
  predicate HasIntents(w: World) {
    forall r | r in w.runs && LoadedRow(w.runs[r].phase).Some? :: w.runs[r].intent in w.intents
  }

  lemma IntentsStay(w: World, s: Step)
    requires HasIntents(w)
    ensures HasIntents(Next(w, s))
  {
    OthersUntouched(w, s);
    forall i | i in w.intents ensures i in Next(w, s).intents {
      VersionAfter(w, s, i);
    }
    if RunOf(s).Some? && RunOf(s).value in Next(w, s).runs && LoadedRow(Next(w, s).runs[RunOf(s).value].phase).Some? {
      LoadedFrom(w, s, RunOf(s).value);
    }
  }

  lemma MoneyStaysAccounted(w: World, x: TimedStep, i: IntentId)
    requires MoneyAccounted(w, i) && RunsOk(w) && HasIntents(w)
    ensures MoneyAccounted(NextTimed(w, x), i) && HasIntents(NextTimed(w, x))
  {
    match x
    case KeyExpires(j) => SameRuns(w, NextTimed(w, x), i, HasMoved());
    case Ordinary(s) =>
      IntentsStay(w, s);
      StepCounts(w, s, i, HasMoved());
      MovedAfter(w, s, i);
      MoneyRowsAfter(w, s, i);
      MoneyCompletionsAfter(w, s, i);
      ApprovedAfter(w, s, i);
      StepLosesMoney(w, s, i);
      if Updates(w, s, i) {
        MoneyIsApproved(w, s, i);
      }
  }

  lemma RunsOkNext(w: World, x: TimedStep)
    requires RunsOk(w)
    ensures RunsOk(NextTimed(w, x))
  {
    if x.Ordinary? {
      RunsStayOk(w, x.s);
    }
  }

  lemma {:induction false} RunKeepsMoney(w: World, xs: seq<TimedStep>, i: IntentId)
    requires MoneyAccounted(w, i) && RunsOk(w) && HasIntents(w)
    ensures MoneyAccounted(RunTimed(w, xs), i)
    decreases |xs|
  {
    if xs != [] {
      MoneyStaysAccounted(w, xs[0], i);
      RunsOkNext(w, xs[0]);
      RunKeepsMoney(NextTimed(w, xs[0]), xs[1..], i);
    }
  }

  /** One for each run that the expiries and departures allow to be approved, and one for each attempt that
      was lost between its evidence and its update. */
  function RowsAllowed(xs: seq<TimedStep>, i: IntentId): nat {
    (1 + LivingExpiries(Empty, xs, i)) * (1 + Departures(Empty, xs, i)) + LostMoney(RunTimed(Empty, xs), i)
  }

  /** The evidence rows that name a movement of money. */
  lemma MoneyRowsWithinExpiries(xs: seq<TimedStep>, i: IntentId)
    ensures MoneyRows(RunTimed(Empty, xs), i) <= RowsAllowed(xs, i)
  {
    var n, l := LivingExpiries(Empty, xs, i), Departures(Empty, xs, i);
    ReachedAccounted(xs, i);
    ReachedWithin(xs, i);
    RowsWithin(RunTimed(Empty, xs), i, n, l);
    RowsAllowedIs(xs, i);
  }

  lemma RowsAllowedIs(xs: seq<TimedStep>, i: IntentId)
    ensures RowsAllowed(xs, i)
         == Allowed(LivingExpiries(Empty, xs, i), 1 + Departures(Empty, xs, i)) + LostMoney(RunTimed(Empty, xs), i)
  {
    AllowedIsProduct(LivingExpiries(Empty, xs, i), 1 + Departures(Empty, xs, i));
  }

  lemma ReachedAccounted(xs: seq<TimedStep>, i: IntentId)
    ensures MoneyAccounted(RunTimed(Empty, xs), i)
  {
    NothingIsAccounted(Empty, i);
    RunKeepsMoney(Empty, xs, i);
  }

  lemma NothingIsAccounted(w: World, i: IntentId)
    requires IsBare(w)
    ensures MoneyAccounted(w, i) && RunsOk(w) && HasIntents(w)
  {
    assert HistoryOf(w.journal, i) == NoHistory && TrailOf(w.evidence, i) == Trail(0, 0, 0) && RunsAt(w, i, HasMoved()) == {};
  }

  lemma RowsWithin(w: World, i: IntentId, n: nat, l: nat)
    requires MoneyAccounted(w, i) && ApprovalsWithin(StandingOf(w, i), n, l)
    ensures MoneyRows(w, i) <= Allowed(n, 1 + l) + LostMoney(w, i)
  {
    MovedHaveLoaded(w, i);
    MovedWithin(StandingOf(w, i), |RunsAt(w, i, HasMoved())|, n, l);
  }

  lemma MovedWithin(st: Standing, moved: nat, n: nat, l: nat)
    requires ApprovalsWithin(st, n, l) && moved <= st.loaded
    ensures st.approved + moved <= Allowed(n, 1 + l)
  {
  }

  lemma MovedHaveLoaded(w: World, i: IntentId)
    ensures |RunsAt(w, i, HasMoved())| <= |RunsAt(w, i, HasLoaded())|
  {
    SmallerSet(RunsAt(w, i, HasMoved()), RunsAt(w, i, HasLoaded()));
  }

  predicate AllKeepAmount(xs: seq<TimedStep>, i: IntentId, amount: Decimal) {
    forall x | x in xs && x.Ordinary? :: KeepsAmount(x.s, i, amount)
  }

  lemma {:induction false} AmountStaysFixedTimed(w: World, xs: seq<TimedStep>, i: IntentId, amount: Decimal)
    requires AmountFixed(w, i, amount) && AllKeepAmount(xs, i, amount)
    ensures AmountFixed(RunTimed(w, xs), i, amount)
    decreases |xs|
  {
    if xs != [] {
      assert xs[0] in xs && forall x | x in xs[1..] :: x in xs;
      if xs[0].Ordinary? {
        StepKeepsAmount(w, xs[0].s, i, amount);
      }
      AmountStaysFixedTimed(NextTimed(w, xs[0]), xs[1..], i, amount);
    }
  }

  /** An intent of fixed amount, whatever expires when: the evidence shows at most the amount for each
      approval that the expiries and departures allow, and for each attempt lost before its update. */
  lemma MoneyWithinExpiries(xs: seq<TimedStep>, i: IntentId, amount: Decimal)
    requires amount >= 0.0 && AllKeepAmount(xs, i, amount)
    ensures EvidencedMoney(RunTimed(Empty, xs), i) <= amount * RowsAllowed(xs, i) as real
  {
    AmountStaysFixedTimed(Empty, xs, i, amount);
    MoneyRowsWithinExpiries(xs, i);
    MoneyWithinRows(RunTimed(Empty, xs), i, amount, RowsAllowed(xs, i));
  }

  lemma MoneyWithinRows(w: World, i: IntentId, amount: Decimal, bound: nat)
    requires AmountFixed(w, i, amount) && amount >= 0.0 && MoneyRows(w, i) <= bound
    ensures EvidencedMoney(w, i) <= amount * bound as real
  {
    MoneyIsCounted(w.evidence, i, amount);
    TimesAtMost(amount, MoneyRows(w, i), bound);
  }
}
