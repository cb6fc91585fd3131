/** The worker's polling step as it is written, over the table it updates. */
module Worker {
  import opened Domain
  import opened Counting
  import opened Outbox

  /** The rows that a claim could take, in the order of their creation: the first one, if any. */
  predicate IsOldestClaimable(q: Queue, k: nat) {
    k < |q.rows| && IsClaimable(q, q.rows[k]) && forall j | 0 <= j < k :: !IsClaimable(q, q.rows[j])
  }

  function StuckAt(q: Queue): Row -> bool {
    (row: Row) => row.status == Processing && row.startedAt.Some? && row.startedAt.value <= q.now - 60.0
  }

  lemma CountNext(rows: seq<Row>, k: nat, p: Row -> bool)
    requires k < |rows|
    ensures Count(rows[..k + 1], p) == Count(rows[..k], p) + if p(rows[k]) then 1 else 0
  {
    assert rows[..k + 1] == rows[..k] + [rows[k]];
    CountAppend(rows[..k], rows[k], p);
  }

  class OutboxTable {
    const maxAttempts: nat
    var rows: seq<Row>
    var now: Time
    ghost var holds: map<WorkerId, Hold>

    constructor (maxAttempts: nat)
      ensures this.maxAttempts == maxAttempts && View() == Empty(maxAttempts)
    {
      this.maxAttempts := maxAttempts;
      rows, now, holds := [], 0.0, map[];
    }

    ghost function View(): Queue
      reads this
    {
      Queue(maxAttempts, now, rows, holds)
    }

    /** Puts every row whose lease has run out back to PENDING, and counts them. */
    method ReclaimStuckTasks() returns (count: nat)
      modifies `rows
      ensures View() == Reclaim(old(View()))
      ensures count == Count(old(rows), StuckAt(old(View())))
      ensures count == 0 ==> View() == old(View())
    {
      ghost var before := View();
      count := 0;
      var k := 0;
      while k < |rows|
        invariant 0 <= k <= |rows| == |before.rows|
        invariant forall j | 0 <= j < k :: rows[j] == ReclaimedRow(before, before.rows[j])
        invariant forall j | k <= j < |rows| :: rows[j] == before.rows[j]
        invariant count == 0 ==> rows == before.rows
        invariant count == Count(before.rows[..k], StuckAt(before))
      {
        CountNext(before.rows, k, StuckAt(before));
        var row := rows[k];
        assert row == before.rows[k] && (IsStuck(before, row) <==> StuckAt(before)(row));
        if row.status == Processing && row.startedAt.Some? && row.startedAt.value <= now - LEASE {
          rows := rows[k := row.(status := Pending, availableAt := now, lastError := Reclaimed)];
          count := count + 1;
        }
        k := k + 1;
      }
      assert before.rows[..|before.rows|] == before.rows;
      assert rows == ReclaimedRows(before, before.rows);
    }

    /** Claims the oldest claimable row. */
    method ClaimOldest(ghost w: WorkerId) returns (claimed: Option<nat>)
      requires w !in holds
      modifies `rows, `holds
      ensures claimed.None? ==> View() == old(View()) && forall row | row in rows :: !IsClaimable(View(), row)
      ensures claimed.Some? ==>
        IsOldestClaimable(old(View()), claimed.value) && View() == Claim(old(View()), w, claimed.value)
    {
      var k := 0;
      while k < |rows| && !(rows[k].status == Pending && rows[k].attempts < maxAttempts && rows[k].availableAt <= now)
        invariant 0 <= k <= |rows|
        invariant forall j | 0 <= j < k :: !IsClaimable(View(), rows[j])
      {
        k := k + 1;
      }
      if k == |rows| {
        return None;
      }
      var row := rows[k];
      holds := holds[w := Hold(k, row.attempts + 1, now)];
      rows := rows[k := row.(status := Processing, attempts := row.attempts + 1, startedAt := Some(now),
                             claims := row.claims + [now])];
      return Some(k);
    }

    /** Records what resolving the claimed row has come to; an answer, whatever it says, is a success. */
    method Settle(ghost w: WorkerId, k: nat, raises: bool) returns (processed: nat)
      requires k < |rows| && w in holds && holds[w].row == k && holds[w].attempt == rows[k].attempts
      modifies `rows, `holds
      ensures View() == if raises then Fail(old(View()), w) else Complete(old(View()), w)
      // after a failure with attempts left the row can be claimed exactly from 2^attempts seconds later on
      ensures rows[k].attempts == old(rows[k].attempts)
      ensures rows[k].status == if !raises then Processed
                                else if old(rows[k].attempts) >= maxAttempts then DeadLetter else Status.Pending
      ensures raises && old(rows[k].attempts) < maxAttempts ==>
        forall t: Time :: IsClaimable(View().(now := t), rows[k]) <==> t >= now + Pow2(old(rows[k].attempts))
      ensures processed == if raises then 0 else 1
    {
      var row := rows[k];
      if !raises {
        rows := rows[k := row.(status := Processed)];
        processed := 1;
      } else {
        if row.attempts >= maxAttempts {
          rows := rows[k := row.(status := DeadLetter, lastError := Raised)];
        } else {
          rows := rows[k := row.(status := Pending, lastError := Raised, availableAt := now + Pow2(row.attempts))];
        }
        processed := 0;
      }
      holds := holds - {w};
    }

    /** Reclaim, claim, resolve, and record the outcome.  Resolving takes until `later` and either
        answers, whatever the answer, or raises; the answer counts as processed. */
    method ClaimAndProcess(ghost w: WorkerId, later: Time, raises: bool) returns (processed: nat)
      requires w !in holds && later >= now
      modifies this
      ensures var q := Reclaim(old(View()));
        if forall row | row in q.rows :: !IsClaimable(q, row) then View() == q && processed == 0
        else exists k: nat {:trigger IsOldestClaimable(q, k)} ::
          && IsOldestClaimable(q, k)
          && var held := Claim(q, w, k).(now := later);
             if raises then View() == Fail(held, w) && processed == 0
             else View() == Complete(held, w) && processed == 1
    {
      var count := ReclaimStuckTasks();
      ghost var q := View();
      var claimed := ClaimOldest(w);
      if claimed.None? {
        return 0;
      }
      var k := claimed.value;
      assert q.rows[k] in q.rows;
      now := later;
      processed := Settle(w, k, raises);
    }
  }
}
