/** The protocol without the assumption on lock expiry: keys may expire under living runs, and a run that
    ends deletes the key of whoever holds it by then.  How many captures can be recorded. */
module ProtocolExpiry {
  import opened Domain
  import opened Counting
  import opened Intents
  import opened Protocol
  import opened ProtocolSafety

  /** A step of the protocol, or the expiry of an intent's lock key whoever holds it. */
  datatype TimedStep = Ordinary(s: Step) | KeyExpires(i: IntentId)

  function NextTimed(w: World, x: TimedStep): World {
    match x
    case Ordinary(s) => Next(w, s)
    case KeyExpires(i) => w.(locks := w.locks - {i})
  }

  function RunTimed(w: World, xs: seq<TimedStep>): World
    decreases |xs|
  {
    if xs == [] then w else RunTimed(NextTimed(w, xs[0]), xs[1..])
  }

  /** The key of the intent expires while the run that set it is alive. */
  predicate IsLivingExpiry(w: World, x: TimedStep, i: IntentId) {
    x == KeyExpires(i) && InFlight(w, i).Some?
  }

  function LivingExpiries(w: World, xs: seq<TimedStep>, i: IntentId): nat
    decreases |xs|
  {
    if xs == [] then 0
    else (if IsLivingExpiry(w, xs[0], i) then 1 else 0) + LivingExpiries(NextTimed(w, xs[0]), xs[1..], i)
  }

  // ---- The living runs of an intent ----

  function Living(w: World, i: IntentId): set<RunId> {
    set r | r in w.runs && w.runs[r].intent == i
  }

  /** The run has seen no capture on record, and may still add one. */
  predicate IsArmed(p: Phase) {
    match p
    case Counted(_, hasCapture) => !hasCapture
    case Gathered(job) => !job.hasCapture
    case Logged(job) => !job.hasCapture
    case Acted(_, fin) => IsCaptureSuccess(fin)
    case _ => false
  }

  function Armed(w: World, i: IntentId): set<RunId> {
    set r | r in w.runs && w.runs[r].intent == i && IsArmed(w.runs[r].phase)
  }

  /** With `n` living expiries so far: there are at most n + 1 living runs, and at most n if another can
      begin; and the captures on record and those that may still follow are at most n + 1. */
  predicate WithinExpiries(w: World, i: IntentId, n: nat) {
    && |Living(w, i)| + (if InFlight(w, i).None? then 1 else 0) <= 1 + n
    && Captures(w, i) + |Armed(w, i)| <= 1 + n
  }

  lemma SmallerSet(a: set<RunId>, b: set<RunId>)
    requires a <= b
    ensures |a| <= |b|
  {
    assert b == a + (b - a);
  }

  lemma ArmedAreLiving(w: World, i: IntentId)
    ensures |Armed(w, i)| <= |Living(w, i)|
  {
    SmallerSet(Armed(w, i), Living(w, i));
  }

  function One(b: bool): nat {
    if b then 1 else 0
  }

  lemma Membership(a: set<RunId>, r: RunId, was: bool, becomes: bool)
    requires was <==> r in a
    ensures |if becomes then a + {r} else a - {r}| + One(was) == |a| + One(becomes)
  {
    assert was ==> a + {r} == a;
    assert !was ==> a - {r} == a;
  }

  lemma MoveLives(w: World, w': World, r: RunId, phase: Phase, i: IntentId)
    requires At(w, r) && w'.runs == w.runs[r := Run(w.runs[r].intent, phase)]
    ensures Living(w', i) == Living(w, i)
    ensures Armed(w', i) ==
      if w.runs[r].intent != i then Armed(w, i)
      else if IsArmed(phase) then Armed(w, i) + {r} else Armed(w, i) - {r}
  {
  }

  lemma MoveArms(w: World, w': World, r: RunId, phase: Phase, i: IntentId)
    requires At(w, r) && w'.runs == w.runs[r := Run(w.runs[r].intent, phase)]
    ensures Living(w', i) == Living(w, i)
    ensures w.runs[r].intent != i ==> Armed(w', i) == Armed(w, i)
    ensures w.runs[r].intent == i ==> |Armed(w', i)| + One(IsArmed(w.runs[r].phase)) == |Armed(w, i)| + One(IsArmed(phase))
  {
    MoveLives(w, w', r, phase, i);
    if w.runs[r].intent == i {
      Membership(Armed(w, i), r, IsArmed(w.runs[r].phase), IsArmed(phase));
    }
  }

  /** A run that moves on: it does not add to the captures and the armed runs together, or there is no
      capture at all. */
  lemma MoveStaysWithin(w: World, w': World, r: RunId, phase: Phase, i: IntentId, n: nat)
    requires WithinExpiries(w, i, n) && At(w, r)
    requires w'.runs == w.runs[r := Run(w.runs[r].intent, phase)] && w'.locks == w.locks
    requires w.runs[r].intent != i ==> Captures(w', i) == Captures(w, i)
    requires w.runs[r].intent == i ==>
      || Captures(w', i) == 0
      || Captures(w', i) + One(IsArmed(phase)) <= Captures(w, i) + One(IsArmed(w.runs[r].phase))
    ensures WithinExpiries(w', i, n)
  {
    MoveArms(w, w', r, phase, i);
    ArmedAreLiving(w', i);
  }

  /** A run that ends, with the lock key deleted or left behind. */
  lemma EndStaysWithin(w: World, w': World, r: RunId, i: IntentId, n: nat)
    requires WithinExpiries(w, i, n) && At(w, r) && w'.runs == w.runs - {r} && w'.execs == w.execs
    requires w'.locks == w.locks || w'.locks == w.locks - {w.runs[r].intent}
    ensures WithinExpiries(w', i, n)
  {
    SmallerSet(Armed(w', i), Armed(w, i));
    EndSets(w, w', r, i);
    EndFlight(w, w', r, i);
  }

  lemma EndSets(w: World, w': World, r: RunId, i: IntentId)
    requires At(w, r) && w'.runs == w.runs - {r}
    ensures |Living(w', i)| + One(w.runs[r].intent == i) == |Living(w, i)|
  {
    if w.runs[r].intent == i {
      assert Living(w', i) == Living(w, i) - {r};
    } else {
      assert Living(w', i) == Living(w, i);
    }
  }

  lemma EndFlight(w: World, w': World, r: RunId, i: IntentId)
    requires At(w, r) && w'.runs == w.runs - {r}
    requires w'.locks == w.locks || w'.locks == w.locks - {w.runs[r].intent}
    ensures w.runs[r].intent != i ==> InFlight(w', i) == InFlight(w, i)
  {
  }

  lemma BeginStaysWithin(w: World, r: RunId, j: IntentId, i: IntentId, n: nat)
    requires WithinExpiries(w, i, n)
    ensures WithinExpiries(Begin(w, r, j), i, n)
  {
    if Begin(w, r, j) != w {
      BeginSets(w, r, j, i);
      BeginFlight(w, r, j, i);
    }
  }

  lemma BeginSets(w: World, r: RunId, j: IntentId, i: IntentId)
    requires r !in w.runs && j !in w.locks
    ensures Armed(Begin(w, r, j), i) == Armed(w, i)
    ensures |Living(Begin(w, r, j), i)| == |Living(w, i)| + One(i == j)
  {
    var w' := Begin(w, r, j);
    assert Living(w', i) == if i == j then Living(w, i) + {r} else Living(w, i);
  }

  lemma BeginFlight(w: World, r: RunId, j: IntentId, i: IntentId)
    requires r !in w.runs && j !in w.locks
    ensures if i == j then InFlight(w, i).None? && InFlight(Begin(w, r, j), i).Some?
            else InFlight(Begin(w, r, j), i) == InFlight(w, i)
  {
  }

  /** A step that touches neither runs nor executions. */
  lemma OthersStayWithin(w: World, w': World, i: IntentId, n: nat)
    requires WithinExpiries(w, i, n) && w'.runs == w.runs && w'.execs == w.execs && w'.locks == w.locks
    ensures WithinExpiries(w', i, n)
  {
    assert Living(w', i) == Living(w, i) && Armed(w', i) == Armed(w, i);
  }

  lemma ExpiryStaysWithin(w: World, j: IntentId, i: IntentId, n: nat)
    requires WithinExpiries(w, i, n)
    ensures WithinExpiries(w.(locks := w.locks - {j}), i, n + One(j == i && InFlight(w, i).Some?))
  {
    var w' := w.(locks := w.locks - {j});
    assert Living(w', i) == Living(w, i) && Armed(w', i) == Armed(w, i);
  }

  // ---- Every step of a run ----

  lemma ReadingStaysWithin(w: World, s: Step, i: IntentId, n: nat)
    requires WithinExpiries(w, i, n) && IsReading(s)
    ensures WithinExpiries(Next(w, s), i, n)
  {
    match s
    case DoBegin(r, j) => BeginStaysWithin(w, r, j, i, n);
    case DoConnect(r, ok) =>
      if Next(w, s) != w {
        if ok { MoveStaysWithin(w, Next(w, s), r, Connected, i, n); } else { EndStaysWithin(w, Next(w, s), r, i, n); }
      }
    case DoLoad(r) =>
      if Next(w, s) != w {
        if r in Next(w, s).runs {
          MoveStaysWithin(w, Next(w, s), r, Next(w, s).runs[r].phase, i, n);
        } else {
          EndStaysWithin(w, Next(w, s), r, i, n);
        }
      }
    case DoCount(r) =>
      if Next(w, s) != w { MoveStaysWithin(w, Next(w, s), r, Next(w, s).runs[r].phase, i, n); }
    case DoGather(r, a) =>
      if Next(w, s) != w { MoveStaysWithin(w, Next(w, s), r, Next(w, s).runs[r].phase, i, n); }
    case DoLogVerify(r, ok) =>
      if Next(w, s) != w {
        VerifyIsNoCapture(w, r, ok, i);
        MoveStaysWithin(w, Next(w, s), r, Next(w, s).runs[r].phase, i, n);
      }
  }

  lemma VerifyIsNoCapture(w: World, r: RunId, ok: bool, i: IntentId)
    ensures Captures(LogVerify(w, r, ok), i) == Captures(w, i)
  {
    if At(w, r) && w.runs[r].phase.Gathered? {
      CountAppend(w.execs, VerifyRow(w.runs[r].intent, w.runs[r].phase.job), IsCapture(i));
    }
  }

  /** A capture succeeds only in a run that is armed. */
  lemma SuccessIsArmed(job: Job, c: Circumstances)
    requires job.Approved() && OutcomeOf(job, c).Finished? && IsCaptureSuccess(Some(OutcomeOf(job, c).result))
    ensures !job.hasCapture
  {
    OutcomeIsConsistent(job, c);
    CaptureMeansFirst(job, Some(OutcomeOf(job, c).result));
  }

  lemma ActStaysWithin(w: World, r: RunId, c: Circumstances, i: IntentId, n: nat)
    requires WithinExpiries(w, i, n)
    ensures WithinExpiries(Act(w, r, c), i, n)
  {
    if Act(w, r, c) != w {
      ActMoves(w, r, c);
      if r in Act(w, r, c).runs {
        MoveStaysWithin(w, Act(w, r, c), r, Act(w, r, c).runs[r].phase, i, n);
      } else {
        EndStaysWithin(w, Act(w, r, c), r, i, n);
      }
    }
  }

  /** Acting moves the run on, armed only if it was, or ends it; it touches no table. */
  lemma ActMoves(w: World, r: RunId, c: Circumstances)
    requires Act(w, r, c) != w
    ensures At(w, r) && Act(w, r, c).execs == w.execs
    ensures var w' := Act(w, r, c);
      if r in w'.runs then
        && w'.locks == w.locks && w'.runs == w.runs[r := Run(w.runs[r].intent, w'.runs[r].phase)]
        && (IsArmed(w'.runs[r].phase) ==> IsArmed(w.runs[r].phase))
      else w'.runs == w.runs - {r} && w'.locks == w.locks - {w.runs[r].intent}
  {
    var job := w.runs[r].phase.job;
    if job.Approved() && OutcomeOf(job, c).Finished? && IsCaptureSuccess(Some(OutcomeOf(job, c).result)) {
      SuccessIsArmed(job, c);
    }
  }

  /** The settlement of an armed run adds at most one capture, that of any other run none. */
  lemma SettleCaptures(w: World, r: RunId, ok: bool, command: nat, i: IntentId)
    requires At(w, r) && w.runs[r].phase.Acted?
    ensures Captures(Settle(w, r, ok, command), i)
         <= Captures(w, i) + One(w.runs[r].intent == i && IsArmed(w.runs[r].phase))
    ensures w.runs[r].intent != i ==> Captures(Settle(w, r, ok, command), i) == Captures(w, i)
  {
    var p := w.runs[r].phase;
    if p.fin.Some? {
      CountAppend(w.execs, MutationRow(w.runs[r].intent, p.job, p.fin.value, command), IsCapture(i));
    }
  }

  lemma WritingStaysWithin(w: World, s: Step, i: IntentId, n: nat)
    requires WithinExpiries(w, i, n) && (IsActing(s) || IsRecording(s))
    ensures WithinExpiries(Next(w, s), i, n)
  {
    if s.DoExecute? {
      ActStaysWithin(w, s.r, s.c, i, n);
    } else if Next(w, s) != w {
      if s.DoSettle? {
        SettleCaptures(w, s.r, s.ok, s.command, i);
      }
      MoveStaysWithin(w, Next(w, s), s.r, Next(w, s).runs[s.r].phase, i, n);
    }
  }

  predicate IsEnding(s: Step) {
    s.DoRelease? || s.DoRaise? || s.DoCrash? || s.DoCrashInCall?
  }

  lemma EndingStaysWithin(w: World, s: Step, i: IntentId, n: nat)
    requires WithinExpiries(w, i, n) && IsEnding(s)
    ensures WithinExpiries(Next(w, s), i, n)
  {
    if Next(w, s) != w {
      EndingEnds(w, s);
      EndStaysWithin(w, Next(w, s), s.r, i, n);
    }
  }

  lemma EndingEnds(w: World, s: Step)
    requires IsEnding(s) && Next(w, s) != w
    ensures var w' := Next(w, s);
      && At(w, s.r) && w'.runs == w.runs - {s.r} && w'.execs == w.execs
      && (w'.locks == w.locks || w'.locks == w.locks - {w.runs[s.r].intent})
  {
  }

  lemma StepStaysWithin(w: World, x: TimedStep, i: IntentId, n: nat)
    requires WithinExpiries(w, i, n)
    ensures WithinExpiries(NextTimed(w, x), i, n + One(IsLivingExpiry(w, x, i)))
  {
    match x
    case KeyExpires(j) => ExpiryStaysWithin(w, j, i, n);
    case Ordinary(s) =>
      if IsReading(s) {
        ReadingStaysWithin(w, s, i, n);
      } else if IsActing(s) || IsRecording(s) {
        WritingStaysWithin(w, s, i, n);
      } else if IsEnding(s) {
        EndingStaysWithin(w, s, i, n);
      } else if s.DoExpire? {
        if Next(w, s) != w { ExpiryStaysWithin(w, s.i, i, n); }
      } else {
        OthersStayWithin(w, Next(w, s), i, n);
      }
  }

  lemma {:induction false} RunStaysWithin(w: World, xs: seq<TimedStep>, i: IntentId, n: nat)
    requires WithinExpiries(w, i, n)
    ensures WithinExpiries(RunTimed(w, xs), i, n + LivingExpiries(w, xs, i))
    decreases |xs|
  {
    if xs != [] {
      StepStaysWithin(w, xs[0], i, n);
      RunStaysWithin(NextTimed(w, xs[0]), xs[1..], i, n + One(IsLivingExpiry(w, xs[0], i)));
    }
  }

  /** Whatever expires when: the captures on record are at most one more than the expiries of the
      intent's lock key under the run that set it. */
  lemma CapturesWithinExpiries(xs: seq<TimedStep>, i: IntentId)
    ensures Captures(RunTimed(Empty, xs), i) <= 1 + LivingExpiries(Empty, xs, i)
  {
    assert Living(Empty, i) == {} && Armed(Empty, i) == {};
    RunStaysWithin(Empty, xs, i, 0);
  }

  // ---- Behaviours of the protocol are behaviours without living expiries ----

  function Lift(steps: seq<Step>): seq<TimedStep> {
    if steps == [] then [] else [Ordinary(steps[0])] + Lift(steps[1..])
  }

  lemma {:induction false} LiftRuns(w: World, steps: seq<Step>, i: IntentId)
    ensures RunTimed(w, Lift(steps)) == RunAll(w, steps) && LivingExpiries(w, Lift(steps), i) == 0
    decreases |steps|
  {
    if steps != [] {
      LiftRuns(Next(w, steps[0]), steps[1..], i);
    }
  }

  lemma {:induction false} TimedConcat(w: World, a: seq<TimedStep>, b: seq<TimedStep>, i: IntentId)
    ensures RunTimed(w, a + b) == RunTimed(RunTimed(w, a), b)
    ensures LivingExpiries(w, a + b, i) == LivingExpiries(w, a, i) + LivingExpiries(RunTimed(w, a), b, i)
    decreases |a|
  {
    if a == [] {
      assert a + b == b;
    } else {
      assert (a + b)[1..] == a[1..] + b;
      TimedConcat(NextTimed(w, a[0]), a[1..], b, i);
    }
  }
}
