/** The durable outbox: rows are claimed under a lease, retried with exponential backoff and finally
    dead-lettered, by any number of workers that may die. */
module Outbox {
  import opened Domain

  type WorkerId = nat
  type Time = real

  const LEASE: Time := 60.0

  datatype Status = Pending | Processing | Processed | DeadLetter

  datatype LastError = NoError | Reclaimed | Raised

  /** A row.  `claims` is the history of the times at which it was claimed; no statement reads it. */
  datatype Row = Row(
    status: Status,
    attempts: nat,
    availableAt: Time,
    startedAt: Option<Time>,
    lastError: LastError,
    claims: seq<Time>)

  /** What a worker has read when it claimed: the row, its attempt number and the time. */
  datatype Hold = Hold(row: nat, attempt: nat, since: Time)

  /** Rows are kept in the order of their creation. */
  datatype Queue = Queue(maxAttempts: nat, now: Time, rows: seq<Row>, holds: map<WorkerId, Hold>)

  function Empty(maxAttempts: nat): Queue {
    Queue(maxAttempts, 0.0, [], map[])
  }

  predicate IsStuck(q: Queue, row: Row) {
    row.status == Processing && row.startedAt.Some? && row.startedAt.value <= q.now - LEASE
  }

  predicate IsClaimable(q: Queue, row: Row) {
    row.status == Pending && row.attempts < q.maxAttempts && row.availableAt <= q.now
  }

  // ---- Statements ----

  function Enqueue(q: Queue): Queue {
    q.(rows := q.rows + [Row(Pending, 0, q.now, None, NoError, [])])
  }

  function ReclaimedRow(q: Queue, row: Row): Row {
    if IsStuck(q, row) then row.(status := Pending, availableAt := q.now, lastError := Reclaimed) else row
  }

  function ReclaimedRows(q: Queue, rows: seq<Row>): (r: seq<Row>)
    ensures |r| == |rows| && forall k | 0 <= k < |r| :: r[k] == ReclaimedRow(q, rows[k])
  {
    if rows == [] then [] else ReclaimedRows(q, rows[..|rows| - 1]) + [ReclaimedRow(q, rows[|rows| - 1])]
  }

  function Reclaim(q: Queue): Queue {
    q.(rows := ReclaimedRows(q, q.rows))
  }

  function ClaimedRow(q: Queue, row: Row): Row {
    row.(status := Processing, attempts := row.attempts + 1, startedAt := Some(q.now), claims := row.claims + [q.now])
  }

  /** An idle worker claims a claimable row; locked rows are skipped, so it need not be the oldest. */
  function Claim(q: Queue, w: WorkerId, k: nat): Queue {
    if w in q.holds || k >= |q.rows| || !IsClaimable(q, q.rows[k]) then q
    else
      q.(rows := q.rows[k := ClaimedRow(q, q.rows[k])],
         holds := q.holds[w := Hold(k, q.rows[k].attempts + 1, q.now)])
  }

  /** The updates that end a claim look neither at the row's status nor at who holds it. */
  function CompletedRow(row: Row): Row {
    row.(status := Processed)
  }

  function FailedRow(q: Queue, row: Row, attempt: nat): Row {
    if attempt >= q.maxAttempts then row.(status := DeadLetter, lastError := Raised)
    else row.(status := Pending, lastError := Raised, availableAt := q.now + Pow2(attempt))
  }

  function Complete(q: Queue, w: WorkerId): Queue {
    if w !in q.holds || q.holds[w].row >= |q.rows| then q
    else
      var k := q.holds[w].row;
      q.(rows := q.rows[k := CompletedRow(q.rows[k])], holds := q.holds - {w})
  }

  function Fail(q: Queue, w: WorkerId): Queue {
    if w !in q.holds || q.holds[w].row >= |q.rows| then q
    else
      var k := q.holds[w].row;
      q.(rows := q.rows[k := FailedRow(q, q.rows[k], q.holds[w].attempt)], holds := q.holds - {w})
  }

  // ---- Behaviours ----

  datatype Step =
    | Arrive
    | Wait(seconds: Time)
    | ReclaimStuck
    | Take(w: WorkerId, k: nat)
    | Finish(w: WorkerId)
    | GiveUp(w: WorkerId)
    | Die(w: WorkerId)

  function Next(q: Queue, s: Step): Queue {
    match s
    case Arrive => Enqueue(q)
    case Wait(d) => if d >= 0.0 then q.(now := q.now + d) else q
    case ReclaimStuck => Reclaim(q)
    case Take(w, k) => Claim(q, w, k)
    case Finish(w) => Complete(q, w)
    case GiveUp(w) => Fail(q, w)
    case Die(w) => q.(holds := q.holds - {w})
  }

  function Run(q: Queue, steps: seq<Step>): Queue
    decreases |steps|
  {
    if steps == [] then q else Run(Next(q, steps[0]), steps[1..])
  }

  /** The worker's lease has not run out. */
  predicate IsLive(q: Queue, w: WorkerId) {
    w in q.holds && q.now < q.holds[w].since + LEASE
  }

  /** A worker whose lease has run out does not write. */
  predicate Respects(q: Queue, s: Step) {
    (s.Finish? ==> IsLive(q, s.w)) && (s.GiveUp? ==> IsLive(q, s.w))
  }

  predicate RespectsLeases(q: Queue, steps: seq<Step>)
    decreases |steps|
  {
    steps == [] || (Respects(q, steps[0]) && RespectsLeases(Next(q, steps[0]), steps[1..]))
  }

  // ---- Without any assumption on the workers ----

  predicate RowOk(maxAttempts: nat, row: Row) {
    && row.attempts == |row.claims| <= maxAttempts
    && (row.status == DeadLetter ==> row.attempts == maxAttempts)
    && (row.status == Processing ==> row.startedAt.Some?)
  }

  predicate HoldOk(q: Queue, h: Hold) {
    h.row < |q.rows| && 1 <= h.attempt <= q.rows[h.row].attempts
  }

  predicate Inv(q: Queue) {
    && (forall k | 0 <= k < |q.rows| :: RowOk(q.maxAttempts, q.rows[k]))
    && (forall w | w in q.holds :: HoldOk(q, q.holds[w]))
  }

  lemma NextKeepsInv(q: Queue, s: Step)
    requires Inv(q)
    ensures Inv(Next(q, s)) && Next(q, s).maxAttempts == q.maxAttempts
  {
  }

  lemma {:induction false} RunKeepsInv(q: Queue, steps: seq<Step>)
    requires Inv(q)
    ensures Inv(Run(q, steps)) && Run(q, steps).maxAttempts == q.maxAttempts
    decreases |steps|
  {
    if steps != [] {
      NextKeepsInv(q, steps[0]);
      RunKeepsInv(Next(q, steps[0]), steps[1..]);
    }
  }

  /** In every reachable queue, stale writes or not: a row's attempts are the times it was claimed and
      never exceed the limit, and a dead letter has used all of them. */
  lemma AttemptsAreClaims(maxAttempts: nat, steps: seq<Step>, k: nat)
    requires k < |Run(Empty(maxAttempts), steps).rows|
    ensures var row := Run(Empty(maxAttempts), steps).rows[k];
      && row.attempts == |row.claims| <= maxAttempts
      && (row.status == DeadLetter ==> row.attempts == maxAttempts)
  {
    RunKeepsInv(Empty(maxAttempts), steps);
    assert RowOk(maxAttempts, Run(Empty(maxAttempts), steps).rows[k]);
  }

  /** The attempts that are left. */
  function Remaining(maxAttempts: nat, rows: seq<Row>): int {
    if rows == [] then 0
    else Remaining(maxAttempts, rows[..|rows| - 1]) + maxAttempts - rows[|rows| - 1].attempts
  }

  function TotalClaims(rows: seq<Row>): nat {
    if rows == [] then 0 else TotalClaims(rows[..|rows| - 1]) + |rows[|rows| - 1].claims|
  }

  lemma {:induction false} RemainingOfUpdate(m: nat, rows: seq<Row>, k: nat, row: Row)
    requires k < |rows|
    ensures Remaining(m, rows[k := row]) == Remaining(m, rows) + rows[k].attempts - row.attempts
  {
    var last := |rows| - 1;
    if k == last {
      assert rows[k := row][..last] == rows[..last];
    } else {
      assert rows[k := row][..last] == rows[..last][k := row];
      RemainingOfUpdate(m, rows[..last], k, row);
    }
  }

  lemma {:induction false} RemainingOfReclaim(q: Queue, rows: seq<Row>)
    ensures Remaining(q.maxAttempts, ReclaimedRows(q, rows)) == Remaining(q.maxAttempts, rows)
  {
    if rows != [] {
      var front := rows[..|rows| - 1];
      RemainingOfReclaim(q, front);
      assert ReclaimedRows(q, rows)[..|rows| - 1] == ReclaimedRows(q, front);
    }
  }

  /** The remaining attempts are a termination measure: each claim that takes effect lowers them by
      one, only an arrival raises them, and nothing else changes them. */
  lemma ClaimsUseUpAttempts(q: Queue, s: Step)
    ensures var before, after := Remaining(q.maxAttempts, q.rows), Remaining(q.maxAttempts, Next(q, s).rows);
      after == before + (if s.Arrive? then q.maxAttempts else 0) - (if s.Take? && Next(q, s) != q then 1 else 0)
  {
    var q' := Next(q, s);
    match s
    case Arrive =>
      assert q'.rows[..|q.rows|] == q.rows;
    case ReclaimStuck =>
      RemainingOfReclaim(q, q.rows);
    case Take(w, k) =>
      if q' != q {
        RemainingOfUpdate(q.maxAttempts, q.rows, k, q'.rows[k]);
      }
    case Finish(w) =>
      if q' != q {
        RemainingOfUpdate(q.maxAttempts, q.rows, q.holds[w].row, q'.rows[q.holds[w].row]);
      }
    case GiveUp(w) =>
      if q' != q {
        RemainingOfUpdate(q.maxAttempts, q.rows, q.holds[w].row, q'.rows[q.holds[w].row]);
      }
    case _ =>
  }

  lemma {:induction false} ClaimsWithinAttempts(m: nat, rows: seq<Row>)
    requires forall k | 0 <= k < |rows| :: RowOk(m, rows[k])
    ensures TotalClaims(rows) <= |rows| * m
  {
    if rows != [] {
      ClaimsWithinAttempts(m, rows[..|rows| - 1]);
      assert |rows| * m == (|rows| - 1) * m + m;
    }
  }

  /** N rows are claimed at most N times the limit, over any behaviour. */
  lemma TotalClaimsBounded(maxAttempts: nat, steps: seq<Step>)
    ensures var rows := Run(Empty(maxAttempts), steps).rows; TotalClaims(rows) <= |rows| * maxAttempts
  {
    RunKeepsInv(Empty(maxAttempts), steps);
    ClaimsWithinAttempts(maxAttempts, Run(Empty(maxAttempts), steps).rows);
  }

  // ---- When no worker writes after its lease ----

  predicate LeaseOk(q: Queue, w: WorkerId) {
    IsLive(q, w) ==>
      var h := q.holds[w];
      && h.row < |q.rows|
      && q.rows[h.row].status == Processing
      && q.rows[h.row].startedAt == Some(h.since)
      && q.rows[h.row].attempts == h.attempt
  }

  predicate StrandedOk(q: Queue, row: Row) {
    row.status == Pending && row.attempts >= q.maxAttempts && q.maxAttempts > 0 ==> row.lastError == Reclaimed
  }

  predicate LeaseInv(q: Queue) {
    && Inv(q)
    && (forall w | w in q.holds :: LeaseOk(q, w))
    && (forall w, v | w in q.holds && v in q.holds && w != v && IsLive(q, w) && IsLive(q, v) ::
          q.holds[w].row != q.holds[v].row)
    && (forall k | 0 <= k < |q.rows| :: StrandedOk(q, q.rows[k]))
  }

  lemma ClaimKeepsLeaseInv(q: Queue, w: WorkerId, k: nat)
    requires LeaseInv(q)
    ensures LeaseInv(Claim(q, w, k))
  {
    NextKeepsInv(q, Take(w, k));
    var q' := Claim(q, w, k);
    if q' != q {
      forall v | v in q.holds && IsLive(q, v) ensures q.holds[v].row != k {
        assert LeaseOk(q, v);
      }
    }
  }

  lemma EndKeepsLeaseInv(q: Queue, s: Step)
    requires LeaseInv(q) && Respects(q, s) && (s.Finish? || s.GiveUp?)
    ensures LeaseInv(Next(q, s))
  {
    NextKeepsInv(q, s);
    assert LeaseOk(q, s.w);
    assert q.holds[s.w].attempt <= q.maxAttempts;
  }

  lemma ReclaimKeepsLeaseInv(q: Queue)
    requires LeaseInv(q)
    ensures LeaseInv(Reclaim(q))
  {
    NextKeepsInv(q, ReclaimStuck);
  }

  lemma NextKeepsLeaseInv(q: Queue, s: Step)
    requires LeaseInv(q) && Respects(q, s)
    ensures LeaseInv(Next(q, s))
  {
    match s
    case ReclaimStuck => ReclaimKeepsLeaseInv(q);
    case Take(w, k) => ClaimKeepsLeaseInv(q, w, k);
    case Finish(_) => EndKeepsLeaseInv(q, s);
    case GiveUp(_) => EndKeepsLeaseInv(q, s);
    case Arrive => NextKeepsInv(q, s);
    case Wait(_) =>
      NextKeepsInv(q, s);
      assert forall w | w in q.holds && IsLive(Next(q, s), w) :: IsLive(q, w);
    case Die(_) => NextKeepsInv(q, s);
  }

  lemma {:induction false} RunKeepsLeaseInv(q: Queue, steps: seq<Step>)
    requires LeaseInv(q) && RespectsLeases(q, steps)
    ensures LeaseInv(Run(q, steps))
    decreases |steps|
  {
    if steps != [] {
      NextKeepsLeaseInv(q, steps[0]);
      RunKeepsLeaseInv(Next(q, steps[0]), steps[1..]);
    }
  }

  /** Over all interleavings of claims, completions, failures, crashes and reclaims, a row has at most
      one live holder, which sees it PROCESSING under its own attempt number. */
  lemma AtMostOneLiveHolder(maxAttempts: nat, steps: seq<Step>, w: WorkerId, v: WorkerId)
    requires RespectsLeases(Empty(maxAttempts), steps)
    requires var q := Run(Empty(maxAttempts), steps); IsLive(q, w) && IsLive(q, v)
    ensures var q := Run(Empty(maxAttempts), steps);
      && (q.holds[w].row == q.holds[v].row ==> w == v)
      && LeaseOk(q, w)
  {
    RunKeepsLeaseInv(Empty(maxAttempts), steps);
  }

  predicate IsFinal(row: Row) {
    row.status == Processed || row.status == DeadLetter
  }

  lemma StepKeepsFinal(q: Queue, s: Step, k: nat)
    requires LeaseInv(q) && Respects(q, s) && k < |q.rows| && IsFinal(q.rows[k])
    ensures k < |Next(q, s).rows| && Next(q, s).rows[k] == q.rows[k]
  {
  }

  /** PROCESSED and DEAD_LETTER rows never change again. */
  lemma {:induction false} FinalRowsStay(q: Queue, steps: seq<Step>, k: nat)
    requires LeaseInv(q) && RespectsLeases(q, steps) && k < |q.rows| && IsFinal(q.rows[k])
    ensures k < |Run(q, steps).rows| && Run(q, steps).rows[k] == q.rows[k]
    decreases |steps|
  {
    if steps != [] {
      StepKeepsFinal(q, steps[0], k);
      NextKeepsLeaseInv(q, steps[0]);
      FinalRowsStay(Next(q, steps[0]), steps[1..], k);
    }
  }

  /** A worker that holds the row, or held it before its lease ran out, writes its outcome. */
  predicate Overwrites(q: Queue, s: Step, k: nat) {
    (s.Finish? || s.GiveUp?) && s.w in q.holds && q.holds[s.w].row == k
  }

  /** Exactly which steps change a final row, in any queue: a completion that was overtaken by the dead
      letter, and a failure, unless the row is a dead letter that says so already. */
  lemma FinalRowChangesExactlyWhen(q: Queue, s: Step, k: nat)
    requires k < |q.rows| && IsFinal(q.rows[k])
    ensures var row := q.rows[k];
      Next(q, s).rows[k] != row <==>
        && Overwrites(q, s, k)
        && if s.Finish? then row.status == DeadLetter
           else !(row.status == DeadLetter && row.lastError == Raised && q.holds[s.w].attempt >= q.maxAttempts)
  {
  }

  /** With no assumption on leases, a final row stays as it is as long as no such write comes. */
  lemma {:induction false} FinalUnlessOverwritten(q: Queue, steps: seq<Step>, k: nat)
    requires k < |q.rows| && IsFinal(q.rows[k])
    requires forall n | 0 <= n < |steps| :: !Overwrites(Run(q, steps[..n]), steps[n], k)
    ensures k < |Run(q, steps).rows| && Run(q, steps).rows[k] == q.rows[k]
    decreases |steps|
  {
    if steps != [] {
      var q' := Next(q, steps[0]);
      assert steps[..0] == [] && Run(q, []) == q;
      assert !Overwrites(q, steps[0], k);
      FinalRowChangesExactlyWhen(q, steps[0], k);
      forall n | 0 <= n < |steps| - 1 ensures !Overwrites(Run(q', steps[1..][..n]), steps[1..][n], k) {
        assert steps[..n + 1][0] == steps[0] && steps[..n + 1][1..] == steps[1..][..n];
      }
      FinalUnlessOverwritten(q', steps[1..], k);
    }
  }

  /** PENDING with no attempt left: no claim will ever take the row. */
  predicate IsStranded(q: Queue, row: Row) {
    row.status == Pending && row.attempts >= q.maxAttempts
  }

  /** The only rows that are stranded are those whose last attempt was reclaimed ... */
  lemma StrandedOnlyByReclaim(maxAttempts: nat, steps: seq<Step>, k: nat)
    requires maxAttempts > 0 && RespectsLeases(Empty(maxAttempts), steps)
    requires k < |Run(Empty(maxAttempts), steps).rows|
    ensures var q := Run(Empty(maxAttempts), steps);
      IsStranded(q, q.rows[k]) ==> q.rows[k].lastError == Reclaimed
  {
    RunKeepsLeaseInv(Empty(maxAttempts), steps);
    assert StrandedOk(Run(Empty(maxAttempts), steps), Run(Empty(maxAttempts), steps).rows[k]);
    RunKeepsInv(Empty(maxAttempts), steps);
  }

  lemma StepKeepsStranded(q: Queue, s: Step, k: nat)
    requires LeaseInv(q) && Respects(q, s) && k < |q.rows| && IsStranded(q, q.rows[k])
    ensures k < |Next(q, s).rows| && Next(q, s).rows[k] == q.rows[k]
  {
  }

  /** ... and these stay PENDING for ever: neither processed nor dead-lettered. */
  lemma {:induction false} StrandedForever(q: Queue, steps: seq<Step>, k: nat)
    requires LeaseInv(q) && RespectsLeases(q, steps) && k < |q.rows| && IsStranded(q, q.rows[k])
    ensures k < |Run(q, steps).rows| && Run(q, steps).rows[k] == q.rows[k]
    decreases |steps|
  {
    if steps != [] {
      StepKeepsStranded(q, steps[0], k);
      NextKeepsLeaseInv(q, steps[0]);
      NextKeepsInv(q, steps[0]);
      StrandedForever(Next(q, steps[0]), steps[1..], k);
    }
  }

  // ---- Backoff ----

  predicate NeverReclaims(q: Queue, steps: seq<Step>, k: nat)
    decreases |steps|
  {
    steps == [] ||
    (&& (steps[0].ReclaimStuck? && k < |q.rows| ==> !IsStuck(q, q.rows[k]))
     && NeverReclaims(Next(q, steps[0]), steps[1..], k))
  }

  /** Successive claims are apart by the backoff of the earlier one. */
  predicate IsSpaced(claims: seq<Time>) {
    forall n | 0 < n < |claims| :: claims[n] >= claims[n - 1] + Pow2(n)
  }

  predicate BackoffOk(q: Queue, row: Row) {
    && row.attempts == |row.claims|
    && IsSpaced(row.claims)
    && (row.claims != [] ==> row.claims[|row.claims| - 1] <= q.now)
    && (row.status == Pending && row.claims != [] ==>
          row.availableAt >= row.claims[|row.claims| - 1] + Pow2(|row.claims|))
  }

  predicate BackoffInv(q: Queue, k: nat) {
    && (k < |q.rows| ==> BackoffOk(q, q.rows[k]))
    && (forall w | w in q.holds && q.holds[w].row == k ::
          k < |q.rows| && q.rows[k].status == Processing && q.holds[w].attempt == |q.rows[k].claims|)
    && (forall w, v | w in q.holds && v in q.holds && q.holds[w].row == k && q.holds[v].row == k :: w == v)
  }

  lemma NextKeepsBackoffInv(q: Queue, s: Step, k: nat)
    requires BackoffInv(q, k)
    requires s.ReclaimStuck? && k < |q.rows| ==> !IsStuck(q, q.rows[k])
    ensures BackoffInv(Next(q, s), k)
  {
    if s.Take? && s.k == k && Next(q, s) != q {
      assert forall w | w in q.holds :: q.holds[w].row != k;
    }
  }

  lemma {:induction false} RunKeepsBackoffInv(q: Queue, steps: seq<Step>, k: nat)
    requires BackoffInv(q, k) && NeverReclaims(q, steps, k)
    ensures BackoffInv(Run(q, steps), k)
    decreases |steps|
  {
    if steps != [] {
      NextKeepsBackoffInv(q, steps[0], k);
      RunKeepsBackoffInv(Next(q, steps[0]), steps[1..], k);
    }
  }

  lemma {:induction false} SpacingAddsUp(claims: seq<Time>, n: nat)
    requires IsSpaced(claims) && n < |claims|
    ensures claims[n] >= claims[0] + Pow2(n + 1) - 2.0
  {
    if n > 0 {
      SpacingAddsUp(claims, n - 1);
    }
  }

  /** The (n+1)-st claim of a row that is never reclaimed comes at least 2^(n+1) - 2 seconds after the
      first, however many workers there are. */
  lemma BackoffBound(maxAttempts: nat, steps: seq<Step>, k: nat, n: nat)
    requires NeverReclaims(Empty(maxAttempts), steps, k)
    requires k < |Run(Empty(maxAttempts), steps).rows|
    requires n < |Run(Empty(maxAttempts), steps).rows[k].claims|
    ensures var claims := Run(Empty(maxAttempts), steps).rows[k].claims;
      claims[n] >= claims[0] + Pow2(n + 1) - 2.0
  {
    RunKeepsBackoffInv(Empty(maxAttempts), steps, k);
    SpacingAddsUp(Run(Empty(maxAttempts), steps).rows[k].claims, n);
  }

  /** Nobody else holds the row. */
  predicate HoldsAlone(q: Queue, w: WorkerId, k: nat) {
    k < |q.rows| && w in q.holds && q.holds[w].row == k && forall v | v in q.holds && v != w :: q.holds[v].row != k
  }

  /** The row waits for its next claim until the given time, and nobody holds it. */
  predicate Waits(q: Queue, k: nat, until: Time, claims: seq<Time>) {
    && k < |q.rows|
    && q.rows[k].status == Pending && q.rows[k].attempts < q.maxAttempts
    && q.rows[k].availableAt == until && q.rows[k].claims == claims
    && forall v | v in q.holds :: q.holds[v].row != k
  }

  lemma StepKeepsWaiting(q: Queue, s: Step, k: nat, until: Time, claims: seq<Time>)
    requires Waits(q, k, until, claims)
    ensures k < |Next(q, s).rows| && |Next(q, s).rows[k].claims| >= |claims|
    ensures Next(q, s).rows[k].claims == claims ==> Waits(Next(q, s), k, until, claims)
  {
    if s.Take? && s.k == k && Next(q, s) != q {
      assert |Next(q, s).rows[k].claims| == |claims| + 1;
    }
  }

  lemma StepKeepsClaims(q: Queue, s: Step, k: nat)
    requires k < |q.rows|
    ensures k < |Next(q, s).rows| && |Next(q, s).rows[k].claims| >= |q.rows[k].claims|
  {
  }

  lemma {:induction false} RunKeepsClaims(q: Queue, steps: seq<Step>, k: nat)
    requires k < |q.rows|
    ensures k < |Run(q, steps).rows| && |Run(q, steps).rows[k].claims| >= |q.rows[k].claims|
    decreases |steps|
  {
    if steps != [] {
      StepKeepsClaims(q, steps[0], k);
      RunKeepsClaims(Next(q, steps[0]), steps[1..], k);
    }
  }

  lemma {:induction false} RunKeepsWaiting(q: Queue, steps: seq<Step>, k: nat, until: Time, claims: seq<Time>)
    requires Waits(q, k, until, claims)
    ensures k < |Run(q, steps).rows|
    ensures Run(q, steps).rows[k].claims == claims ==> Waits(Run(q, steps), k, until, claims)
    decreases |steps|
  {
    if steps != [] {
      var q' := Next(q, steps[0]);
      StepKeepsWaiting(q, steps[0], k, until, claims);
      RunKeepsClaims(q', steps[1..], k);
      if q'.rows[k].claims == claims {
        RunKeepsWaiting(q', steps[1..], k, until, claims);
      } else {
        StepAddsClaim(q, steps[0], k);
      }
    }
  }

  lemma StepAddsClaim(q: Queue, s: Step, k: nat)
    requires k < |q.rows| && Next(q, s).rows[k].claims != q.rows[k].claims
    ensures |Next(q, s).rows[k].claims| > |q.rows[k].claims|
  {
  }

  /** The backoff exactly.  A row whose n-th claim fails, with attempts left and no other holder, can be
      claimed, whatever the workers do in between and as long as none has claimed it again, exactly from 2^n
      seconds after the failure on; and the claim of an idle worker takes effect exactly then. */
  lemma BackoffIsExact(q: Queue, w: WorkerId, k: nat, later: seq<Step>, v: WorkerId)
    requires Inv(q) && HoldsAlone(q, w, k) && q.holds[w].attempt == |q.rows[k].claims| < q.maxAttempts
    ensures var q' := Run(Next(q, GiveUp(w)), later);
      && k < |q'.rows|
      && (q'.rows[k].claims == q.rows[k].claims ==>
            && (IsClaimable(q', q'.rows[k]) <==> q'.now >= q.now + Pow2(|q.rows[k].claims|))
            && (v !in q'.holds ==> (Next(q', Take(v, k)) != q' <==> q'.now >= q.now + Pow2(|q.rows[k].claims|))))
  {
    assert RowOk(q.maxAttempts, q.rows[k]);
    var claims := q.rows[k].claims;
    var until := q.now + Pow2(|claims|);
    assert Waits(Next(q, GiveUp(w)), k, until, claims);
    RunKeepsWaiting(Next(q, GiveUp(w)), later, k, until, claims);
    TakesExactlyClaimable(Run(Next(q, GiveUp(w)), later), v, k);
  }

  lemma TakesExactlyClaimable(q: Queue, v: WorkerId, k: nat)
    requires k < |q.rows|
    ensures v !in q.holds ==> (Next(q, Take(v, k)) != q <==> IsClaimable(q, q.rows[k]))
  {
    if v !in q.holds && IsClaimable(q, q.rows[k]) {
      assert v in Next(q, Take(v, k)).holds;
    }
  }

  /** With the last attempt used up the failure is final instead, as a dead letter. */
  lemma LastFailureIsFinal(q: Queue, w: WorkerId)
    requires w in q.holds && q.holds[w].row < |q.rows| && q.holds[w].attempt >= q.maxAttempts
    ensures Next(q, GiveUp(w)).rows[q.holds[w].row].status == DeadLetter
  {
  }

  /** A claimed row that is not written comes free exactly when a minute has passed since its claim, and can then
      be claimed at once if attempts are left; a new row can be claimed at once. */
  lemma LeaseIsAMinute(q: Queue, k: nat)
    requires k < |q.rows| && q.rows[k].status == Processing && q.rows[k].startedAt.Some?
    ensures var q' := Next(q, ReclaimStuck);
      && (q'.rows[k].status == Pending <==> q.now >= q.rows[k].startedAt.value + 60.0)
      && (q'.rows[k].status != Pending ==> q'.rows[k] == q.rows[k])
      && (IsClaimable(q', q'.rows[k]) <==> q'.rows[k].status == Pending && q.rows[k].attempts < q.maxAttempts)
  {
  }

  lemma ArrivalsAreClaimable(q: Queue)
    ensures var q' := Next(q, Arrive);
      |q'.rows| == |q.rows| + 1 && (IsClaimable(q', q'.rows[|q.rows|]) <==> q.maxAttempts > 0)
  {
  }

  // ---- What a write after the lease can do ----

  lemma {:induction false} RunConcat(q: Queue, a: seq<Step>, b: seq<Step>)
    ensures Run(q, a + b) == Run(Run(q, a), b)
    decreases |a|
  {
    if a == [] {
      assert a + b == b;
    } else {
      assert (a + b)[1..] == a[1..] + b;
      RunConcat(Next(q, a[0]), a[1..], b);
    }
  }

  lemma Advance(q: Queue, steps: seq<Step>, s: Step) returns (longer: seq<Step>)
    ensures longer == steps + [s] && Run(q, longer) == Next(Run(q, steps), s)
  {
    longer := steps + [s];
    RunConcat(q, steps, [s]);
    assert [s][1..] == [];
  }

  /** The steps to a worker whose lease has run out, and its row that waits for another claim. */
  const ARRIVED := Queue(2, 0.0, [Row(Pending, 0, 0.0, None, NoError, [])], map[])
  const TAKEN := Queue(2, 0.0, [Row(Processing, 1, 0.0, Some(0.0), NoError, [0.0])], map[1 := Hold(0, 1, 0.0)])
  const EXPIRED := TAKEN.(now := LEASE)
  const OVERTAKEN := EXPIRED.(rows := [Row(Pending, 1, LEASE, Some(0.0), Reclaimed, [0.0])])

  lemma ArrivedNext()
    ensures Next(Empty(2), Arrive) == ARRIVED
  {
  }

  lemma TakenNext()
    ensures Next(ARRIVED, Take(1, 0)) == TAKEN
  {
    var q := Next(ARRIVED, Take(1, 0));
    assert q.rows[0].claims == TAKEN.rows[0].claims;
    assert q.rows == TAKEN.rows;
    assert q.holds == TAKEN.holds;
  }

  lemma OvertakenNext()
    ensures Next(EXPIRED, ReclaimStuck) == OVERTAKEN
  {
    assert IsStuck(EXPIRED, EXPIRED.rows[0]);
    assert ReclaimedRows(EXPIRED, EXPIRED.rows)[0] == OVERTAKEN.rows[0];
    assert ReclaimedRows(EXPIRED, EXPIRED.rows) == OVERTAKEN.rows;
  }

  lemma OvertakenIsReached() returns (steps: seq<Step>)
    ensures Run(Empty(2), steps) == OVERTAKEN
  {
    ArrivedNext();
    TakenNext();
    OvertakenNext();
    steps := Advance(Empty(2), [], Arrive);
    steps := Advance(Empty(2), steps, Take(1, 0));
    steps := Advance(Empty(2), steps, Wait(LEASE));
    steps := Advance(Empty(2), steps, ReclaimStuck);
  }

  /** A worker that fails after its lease: the row, processed by another worker in the meantime, goes
      back to PENDING, and with its attempts used up it is stranded though it was never reclaimed
      after its last attempt. */
  lemma StaleWriteUndoesProcessed() returns (steps: seq<Step>, last: Step)
    ensures var q := Run(Empty(2), steps);
      && |q.rows| == 1 && q.rows[0].status == Processed
      && !Respects(q, last)
      && IsStranded(Next(q, last), Next(q, last).rows[0]) && Next(q, last).rows[0].lastError == Raised
  {
    steps := OvertakenIsReached();
    steps := Advance(Empty(2), steps, Take(2, 0));
    steps := Advance(Empty(2), steps, Finish(2));
    last := GiveUp(1);
  }
}
