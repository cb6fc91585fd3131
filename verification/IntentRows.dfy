/** What webhook deliveries make of the other columns of an intent, stated over the deliveries alone: who
    wrote last, who named a payment last, and who came first. */
module IntentRows {
  import opened Domain
  import opened Intents
  import opened DedupCache
  import opened Webhook

  /** The delivery k is the last one that writes intent `i`. */
  predicate IsLastWriter(n: Naming, ds: seq<Delivery>, k: nat, i: IntentId) {
    k < |ds| && Writes(n, ds[k], i) && forall j | k < j < |ds| :: !Writes(n, ds[j], i)
  }

  predicate NamesPayment(n: Naming, d: Delivery, i: IntentId) {
    Writes(n, d, i) && d.payment.Some?
  }

  /** The delivery k is the last one that writes intent `i` and carries a payment id. */
  predicate IsLastPayer(n: Naming, ds: seq<Delivery>, k: nat, i: IntentId) {
    k < |ds| && NamesPayment(n, ds[k], i) && forall j | k < j < |ds| :: !NamesPayment(n, ds[j], i)
  }

  predicate IsFirstWriter(n: Naming, ds: seq<Delivery>, k: nat, i: IntentId) {
    k < |ds| && Writes(n, ds[k], i) && forall j | 0 <= j < k :: !Writes(n, ds[j], i)
  }

  lemma RowAfterOne(n: Naming, t: Tables, d: Delivery, i: IntentId)
    requires IsSound(n) && RowsFit(n, t.orders) && (IsWriting(d) ==> Fits(n, d)) && d.eventId !in t.events
    ensures Writes(n, d, i) ==> IsWritten(RowOf(t, i), d, RowOf(TableStep(t, d), i))
    ensures !Writes(n, d, i) ==> RowOf(TableStep(t, d), i) == RowOf(t, i)
  {
    if IsWriting(d) {
      TargetFits(n, t, d);
    }
  }

  /** The last delivery, after those before it. */
  lemma RowAfterLast(n: Naming, t: Tables, front: seq<Delivery>, d: Delivery, i: IntentId)
    requires IsSound(n) && AllFit(n, front + [d]) && RowsFit(n, t.orders) && AllNew(t, front + [d])
    ensures AllFit(n, front) && AllNew(t, front)
    ensures var before, after := RowOf(TableRun(t, front), i), RowOf(TableRun(t, front + [d]), i);
      if Writes(n, d, i) then IsWritten(before, d, after) else after == before
  {
    var ds := front + [d];
    assert ds[..|front|] == front && ds[|front|] == d;
    LastIsNew(n, t, front, d);
    RowsStayFit(n, t, front);
    RowAfterOne(n, TableRun(t, front), d, i);
  }

  /** For distinct new deliveries whose targets are fixed, in every order: an intent that none of them writes
      keeps its row, ... */
  lemma {:induction false} RowStaysUnlessWritten(n: Naming, t: Tables, ds: seq<Delivery>, i: IntentId)
    requires IsSound(n) && AllFit(n, ds) && RowsFit(n, t.orders) && AllNew(t, ds)
    requires forall d | d in ds :: !Writes(n, d, i)
    ensures RowOf(TableRun(t, ds), i) == RowOf(t, i)
  {
    if ds != [] {
      var front, d := ds[..|ds| - 1], ds[|ds| - 1];
      assert ds == front + [d] && d in ds;
      RowAfterLast(n, t, front, d, i);
      RowStaysUnlessWritten(n, t, front, i);
    }
  }

  /** ... the amount of any other is that of the last delivery that wrote it, ... */
  lemma {:induction false} AmountIsTheLastWritten(n: Naming, t: Tables, ds: seq<Delivery>, k: nat, i: IntentId)
    requires IsSound(n) && AllFit(n, ds) && RowsFit(n, t.orders) && AllNew(t, ds)
    requires IsLastWriter(n, ds, k, i)
    ensures RowOf(TableRun(t, ds), i).Some? && RowOf(TableRun(t, ds), i).value.amount == ds[k].amount
  {
    var front, d := ds[..|ds| - 1], ds[|ds| - 1];
    assert ds == front + [d];
    RowAfterLast(n, t, front, d, i);
    if k < |front| {
      assert !Writes(n, ds[|front|], i);
      assert IsLastWriter(n, front, k, i);
      AmountIsTheLastWritten(n, t, front, k, i);
    }
  }

  /** ... and its active payment is the last payment id that a delivery carried to it, ... */
  lemma {:induction false} PaymentIsTheLastNamed(n: Naming, t: Tables, ds: seq<Delivery>, k: nat, i: IntentId)
    requires IsSound(n) && AllFit(n, ds) && RowsFit(n, t.orders) && AllNew(t, ds)
    requires IsLastPayer(n, ds, k, i)
    ensures RowOf(TableRun(t, ds), i).Some? && RowOf(TableRun(t, ds), i).value.activePayment == ds[k].payment
  {
    var front, d := ds[..|ds| - 1], ds[|ds| - 1];
    assert ds == front + [d];
    RowAfterLast(n, t, front, d, i);
    if k < |front| {
      assert !NamesPayment(n, ds[|front|], i);
      assert IsLastPayer(n, front, k, i);
      PaymentIsTheLastNamed(n, t, front, k, i);
    }
  }

  /** ... or else what it was. */
  lemma {:induction false} PaymentStaysUnlessNamed(n: Naming, t: Tables, ds: seq<Delivery>, i: IntentId)
    requires IsSound(n) && AllFit(n, ds) && RowsFit(n, t.orders) && AllNew(t, ds)
    requires forall d | d in ds :: !NamesPayment(n, d, i)
    requires RowOf(TableRun(t, ds), i).Some?
    ensures RowOf(TableRun(t, ds), i).value.activePayment == if i in t.intents then t.intents[i].activePayment else None
  {
    if ds != [] {
      var front, d := ds[..|ds| - 1], ds[|ds| - 1];
      assert ds == front + [d] && d in ds;
      RowAfterLast(n, t, front, d, i);
      if RowOf(TableRun(t, front), i).Some? {
        PaymentStaysUnlessNamed(n, t, front, i);
      } else {
        RowStays(n, t, front, i);
      }
    }
  }

  /** No delivery takes a row away, or changes its currency, its version or its resolution. */
  lemma {:induction false} RowStays(n: Naming, t: Tables, ds: seq<Delivery>, i: IntentId)
    requires IsSound(n) && AllFit(n, ds) && RowsFit(n, t.orders) && AllNew(t, ds)
    ensures i in t.intents ==>
      && RowOf(TableRun(t, ds), i).Some?
      && IsSameOrder(RowOf(TableRun(t, ds), i).value, t.intents[i].currency, t.intents[i].version, t.intents[i].resolution)
  {
    if ds != [] {
      var front, d := ds[..|ds| - 1], ds[|ds| - 1];
      assert ds == front + [d];
      RowAfterLast(n, t, front, d, i);
      RowStays(n, t, front, i);
    }
  }

  /** So the currency, unlike the amount, is that of the delivery that created the intent: a later delivery in
      another currency changes the amount and leaves the currency. */
  lemma {:induction false} CurrencyIsTheFirstWritten(n: Naming, t: Tables, ds: seq<Delivery>, k: nat, i: IntentId)
    requires IsSound(n) && AllFit(n, ds) && RowsFit(n, t.orders) && AllNew(t, ds)
    requires i !in t.intents && IsFirstWriter(n, ds, k, i)
    ensures RowOf(TableRun(t, ds), i).Some?
    ensures IsSameOrder(RowOf(TableRun(t, ds), i).value, ds[k].currency, 1, Resolution.Pending)
  {
    var front, d := ds[..|ds| - 1], ds[|ds| - 1];
    assert ds == front + [d];
    RowAfterLast(n, t, front, d, i);
    if k < |front| {
      assert IsFirstWriter(n, front, k, i);
      CurrencyIsTheFirstWritten(n, t, front, k, i);
    } else {
      forall x | x in front ensures !Writes(n, x, i) {
        var j :| 0 <= j < |front| && front[j] == x;
        assert ds[j] == x;
      }
      RowStaysUnlessWritten(n, t, front, i);
    }
  }

  const RUPEES := Fresh(100.0, "INR", PendingRail, None)
  const DOLLARS := BY_NAME.(amount := 150.0, currency := "USD")

  /** For example, an intent of 100.00 INR that a delivery of 150.00 USD names becomes one of 150.00 INR. */
  lemma AmountWithoutItsCurrency(t: Tables)
    requires 2 in t.intents && t.intents[2] == RUPEES && DOLLARS.eventId !in t.events
    ensures RowOf(TableRun(t, [DOLLARS]), 2) == Some(RUPEES.(amount := 150.0))
  {
    assert [DOLLARS][..0] == [];
    assert TableRun(t, [DOLLARS]) == TableStep(t, DOLLARS);
  }

  // ---- What the other tables say of a delivery ----

  /** Under the delivery's event id the tables keep its intent, its normalized kind and the hash of its body,
      and a task if the kind is supported. */
  predicate IsFiled(n: Naming, t: Tables, d: Delivery) {
    && d.eventId in t.events && t.events[d.eventId] == EventRow(Target(n, d), EventType(d.event), d.hash)
    && (IsSupportedFlow(d) ==> d.eventId in t.outbox && t.outbox[d.eventId] == OutboxRow(Target(n, d), EventType(d.event)))
    && (!IsSupportedFlow(d) ==> d.eventId !in t.outbox)
  }

  lemma StepKeepsFiled(n: Naming, t: Tables, d: Delivery, other: Delivery)
    requires IsFiled(n, t, d) && other.eventId != d.eventId
    ensures IsFiled(n, TableStep(t, other), d)
  {
  }

  lemma StepFiles(n: Naming, t: Tables, d: Delivery)
    requires IsSound(n) && RowsFit(n, t.orders) && Fits(n, d) && IsWriting(d)
    requires d.eventId !in t.events && d.eventId !in t.outbox
    ensures IsFiled(n, TableStep(t, d), d)
  {
    TargetFits(n, t, d);
  }

  lemma OutboxOfStep(t: Tables, d: Delivery, id: Key)
    requires id != d.eventId
    ensures id in TableStep(t, d).outbox <==> id in t.outbox
  {
  }

  lemma {:induction false} OutboxOfOthers(t: Tables, ds: seq<Delivery>, id: Key)
    requires forall d | d in ds :: d.eventId != id
    ensures id in TableRun(t, ds).outbox <==> id in t.outbox
  {
    if ds != [] {
      var front, d := ds[..|ds| - 1], ds[|ds| - 1];
      assert d in ds && forall x | x in front :: x in ds;
      OutboxOfOthers(t, front, id);
      OutboxOfStep(TableRun(t, front), d, id);
    }
  }

  /** Every delivery that wrote an intent has left its traces, whatever came before and after it. */
  lemma {:induction false} WritersAreFiled(n: Naming, t: Tables, ds: seq<Delivery>, k: nat)
    requires IsSound(n) && AllFit(n, ds) && RowsFit(n, t.orders) && AllNew(t, ds)
    requires k < |ds| && IsWriting(ds[k]) && ds[k].eventId !in t.outbox
    ensures IsFiled(n, TableRun(t, ds), ds[k])
    decreases |ds|
  {
    var front, d := ds[..|ds| - 1], ds[|ds| - 1];
    assert ds == front + [d];
    LastIsNew(n, t, front, d);
    if k < |front| {
      WritersAreFiled(n, t, front, k);
      StepKeepsFiled(n, TableRun(t, front), front[k], d);
    } else {
      RowsStayFit(n, t, front);
      assert forall x | x in front :: exists j :: 0 <= j < |front| && ds[j] == x;
      OutboxOfOthers(t, front, d.eventId);
      StepFiles(n, TableRun(t, front), d);
    }
  }
}
