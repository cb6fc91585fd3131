/** Webhook ingestion: a cache in front of a unique constraint, then the event, the intent and the
    outbox row, one statement after the other. */
module Webhook {
  import opened Domain
  import opened Intents
  import opened DedupCache

  /** A delivery.  `parsed` says that the body is JSON, `convertible` that its currency is supported and its
      amount a number; `named` is the intent that the notes name, `derived` the one derived from the order. */
  datatype Delivery = Delivery(
    signed: bool,
    parsed: bool,
    convertible: bool,
    eventId: Key,
    event: string,
    named: Option<IntentId>,
    derived: IntentId,
    orderRef: string,
    razorpayOrderId: Option<string>,
    payment: Option<string>,
    amount: Decimal,
    currency: string,
    hash: string)

  const SUPPORTED_FLOWS: set<string> := {
    "payment.authorized", "payment.captured", "payment.failed", "payment.dispute.created",
    "payment.dispute.won", "payment.dispute.lost", "refund.created", "refund.failed",
    "refund.processed", "payment.refunded", "payout.initiated", "payout.processed", "payout.reversed"}

  function EventType(raw: string): string {
    if raw == "payment.refunded" then "refund.processed"
    else if raw in SUPPORTED_FLOWS then raw
    else "UNSUPPORTED_" + raw
  }

  /** The normalized kind of an event: supported exactly if the raw one is, then stable under another
      normalization, and a payment failure exactly if the raw one is. */
  lemma EventTypesAreNormal(raw: string)
    ensures EventType(raw) in SUPPORTED_FLOWS <==> raw in SUPPORTED_FLOWS
    ensures raw in SUPPORTED_FLOWS <==>
      || raw in {"payment.authorized", "payment.captured", "payment.failed", "payment.refunded"}
      || raw in {"payment.dispute.created", "payment.dispute.won", "payment.dispute.lost"}
      || raw in {"refund.created", "refund.failed", "refund.processed"}
      || raw in {"payout.initiated", "payout.processed", "payout.reversed"}
    ensures raw in SUPPORTED_FLOWS ==> EventType(EventType(raw)) == EventType(raw)
    ensures EventType(raw) == "payment.failed" <==> raw == "payment.failed"
    ensures EventType(raw) == raw <==> raw in SUPPORTED_FLOWS && raw != "payment.refunded"
    ensures EventType("payment.refunded") == "refund.processed"
  {
    assert ("UNSUPPORTED_" + raw)[0] == 'U';
  }

  datatype EventRow = EventRow(intent: IntentId, eventType: string, hash: string)

  datatype OutboxRow = OutboxRow(intent: IntentId, eventType: string)

  /** The order columns of the intents table, in the order in which the rows were inserted. */
  datatype OrderRef = OrderRef(intent: IntentId, orderId: string, razorpayOrderId: Option<string>)

  datatype Tables = Tables(
    events: map<Key, EventRow>,
    intents: Table,
    orders: seq<OrderRef>,
    outbox: map<Key, OutboxRow>)

  datatype Store = Store(tables: Tables, cache: Redis, rejected: nat)

  datatype Response =
    | Unauthorized | BadRequest | Conflict | IgnoredByCache | IgnoredByDatabase | ServerError | Recorded | Accepted

  // ---- The intent that a delivery is about ----

  predicate Refers(o: OrderRef, ref: string) {
    o.razorpayOrderId == Some(ref) || o.orderId == ref
  }

  function Lookup(orders: seq<OrderRef>, ref: string): Option<IntentId> {
    if orders == [] then None
    else if Refers(orders[0], ref) then Some(orders[0].intent)
    else Lookup(orders[1..], ref)
  }

  function TargetOf(t: Tables, d: Delivery): IntentId {
    if d.named.Some? then d.named.value
    else match Lookup(t.orders, d.orderRef)
      case Some(i) => i
      case None => d.derived
  }

  function UpdateOrders(orders: seq<OrderRef>, i: IntentId, d: Delivery): seq<OrderRef> {
    if orders == [] then [OrderRef(i, d.orderRef, d.razorpayOrderId)]
    else if orders[0].intent == i
    then [orders[0].(razorpayOrderId := Coalesce(d.razorpayOrderId, orders[0].razorpayOrderId))] + orders[1..]
    else [orders[0]] + UpdateOrders(orders[1..], i, d)
  }

  predicate IsFailure(d: Delivery) {
    d.event == "payment.failed"
  }

  predicate IsSupportedFlow(d: Delivery) {
    d.event in SUPPORTED_FLOWS
  }

  // ---- One delivery ----

  predicate IsAcceptable(d: Delivery) {
    d.signed && d.parsed && d.convertible
  }

  /** The statements for an event that is new to the database.  The event row stays even if the upsert
      of the intent fails. */
  function Ingest(t: Tables, d: Delivery): Tables {
    var i := TargetOf(t, d);
    var t1 := t.(events := t.events[d.eventId := EventRow(i, EventType(d.event), d.hash)]);
    match WebhookUpsert(t.intents, i, IsFailure(d), d.amount, d.currency, d.payment)
    case None => t1
    case Some(intents) =>
      var t2 := t1.(intents := intents, orders := UpdateOrders(t.orders, i, d));
      if !IsSupportedFlow(d) || d.eventId in t.outbox then t2
      else t2.(outbox := t.outbox[d.eventId := OutboxRow(i, EventType(d.event))])
  }

  function Handle(s: Store, d: Delivery): Store {
    if !d.signed then s.(rejected := s.rejected + 1)
    else if !d.parsed || !d.convertible then s
    else if CheckRedis(s.cache, d.eventId, d.hash) != New then s
    else if d.eventId in s.tables.events then s.(cache := MarkRedis(s.cache, Mark(d.eventId, d.hash)))
    else if d.amount <= 0.0 then s.(tables := Ingest(s.tables, d))
    else s.(tables := Ingest(s.tables, d), cache := MarkRedis(s.cache, Mark(d.eventId, d.hash)))
  }

  function ResponseTo(s: Store, d: Delivery): Response {
    if !d.signed then Unauthorized
    else if !d.parsed then BadRequest
    else if !d.convertible then ServerError
    else match CheckRedis(s.cache, d.eventId, d.hash)
      case PayloadMismatch => Conflict
      case ValidDuplicate => IgnoredByCache
      case New =>
        if d.eventId in s.tables.events then IgnoredByDatabase
        else if d.amount <= 0.0 then ServerError
        else if IsSupportedFlow(d) then Accepted
        else Recorded
  }

  function RowOf(t: Tables, i: IntentId): Option<Intent> {
    if i in t.intents then Some(t.intents[i]) else None
  }

  predicate IsSameOrder(row: Intent, currency: string, version: nat, resolution: Resolution) {
    row.currency == currency && row.version == version && row.resolution == resolution
  }

  /** What a delivery makes of the row of its intent: its own amount, its payment if it has one, and FAILED for
      a payment failure.  All else stays, or starts as in a new PENDING_RAIL intent of its currency. */
  predicate IsWritten(before: Option<Intent>, d: Delivery, after: Option<Intent>) {
    && after.Some?
    && after.value.amount == d.amount
    && after.value.activePayment ==
         (if d.payment.Some? then d.payment else if before.Some? then before.value.activePayment else None)
    && after.value.state ==
         (if d.event == "payment.failed" then PaymentState.Failed else if before.Some? then before.value.state else PendingRail)
    && if before.Some?
       then IsSameOrder(after.value, before.value.currency, before.value.version, before.value.resolution)
       else IsSameOrder(after.value, d.currency, 1, Resolution.Pending)
  }

  class Receiver {
    var events: map<Key, EventRow>
    var intents: Table
    var orders: seq<OrderRef>
    var outbox: map<Key, OutboxRow>
    var cache: Redis
    var rejected: nat

    ghost function View(): Store
      reads this
    {
      Store(Tables(events, intents, orders, outbox), cache, rejected)
    }

    constructor ()
      ensures View() == Store(Tables(map[], map[], [], map[]), map[], 0)
    {
      events, intents, orders, outbox, cache, rejected := map[], map[], [], map[], map[], 0;
    }

    method FindIntent(ref: string) returns (found: Option<IntentId>)
      ensures found == Lookup(orders, ref)
    {
      var k := 0;
      while k < |orders|
        invariant 0 <= k <= |orders|
        invariant Lookup(orders, ref) == Lookup(orders[k..], ref)
      {
        if orders[k].razorpayOrderId == Some(ref) || orders[k].orderId == ref {
          return Some(orders[k].intent);
        }
        k := k + 1;
      }
      return None;
    }

    /** Inserts or updates the intent; false if a check of the table refuses the row. */
    method UpsertIntent(i: IntentId, d: Delivery) returns (ok: bool)
      modifies `intents, `orders
      ensures ok <==> d.amount > 0.0
      ensures WebhookUpsert(old(intents), i, IsFailure(d), d.amount, d.currency, d.payment)
           == if ok then Some(intents) else None
      ensures ok ==> IsWritten(RowOf(old(View()).tables, i), d, RowOf(View().tables, i))
      ensures orders == if ok then UpdateOrders(old(orders), i, d) else old(orders)
      ensures !ok ==> intents == old(intents)
    {
      if d.amount <= 0.0 {
        return false;
      }
      var state := if d.event == "payment.failed" then PaymentState.Failed else PendingRail;
      if i in intents {
        var row := intents[i];
        intents := intents[i := row.(amount := d.amount,
                                     activePayment := Coalesce(d.payment, row.activePayment),
                                     state := if state == PaymentState.Failed then state else row.state)];
      } else {
        intents := intents[i := Fresh(d.amount, d.currency, state, d.payment)];
      }
      orders := UpdateOrders(orders, i, d);
      return true;
    }

    method HandleDelivery(d: Delivery) returns (response: Response)
      modifies this
      ensures View() == Handle(old(View()), d)
      ensures response == ResponseTo(old(View()), d)
      // a response stands for what has happened to the tables
      ensures response == Unauthorized <==> !d.signed
      ensures response == BadRequest <==> d.signed && !d.parsed
      ensures response == ServerError <==>
        d.signed && d.parsed && (!d.convertible || (events != old(events) && d.amount <= 0.0))
      ensures response in {Recorded, Accepted} <==> events != old(events) && d.amount > 0.0
      ensures response == Accepted <==> events != old(events) && d.amount > 0.0 && d.event in SUPPORTED_FLOWS
      ensures response == IgnoredByDatabase <==> IsAcceptable(d) && d.eventId !in old(cache) && d.eventId in old(events)
      ensures response in {IgnoredByCache, Conflict} <==> IsAcceptable(d) && d.eventId in old(cache)
      ensures events != old(events) <==> IsAcceptable(d) && d.eventId !in old(cache) && d.eventId !in old(events)
      ensures rejected == old(rejected) + if response == Unauthorized then 1 else 0
    {
      if !d.signed {
        rejected := rejected + 1;
        return Unauthorized;
      }
      if !d.parsed {
        return BadRequest;
      }
      if !d.convertible {
        return ServerError;
      }
      var verdict := CheckRedis(cache, d.eventId, d.hash);
      if verdict == PayloadMismatch {
        return Conflict;
      } else if verdict == ValidDuplicate {
        return IgnoredByCache;
      }
      var target := d.derived;
      if d.named.Some? {
        target := d.named.value;
      } else {
        var found := FindIntent(d.orderRef);
        if found.Some? {
          target := found.value;
        }
      }
      if d.eventId in events {
        cache := MarkRedis(cache, Mark(d.eventId, d.hash));
        return IgnoredByDatabase;
      }
      events := events[d.eventId := EventRow(target, EventType(d.event), d.hash)];
      var ok := UpsertIntent(target, d);
      if !ok {
        return ServerError;
      }
      if !(d.event in SUPPORTED_FLOWS) {
        cache := MarkRedis(cache, Mark(d.eventId, d.hash));
        return Recorded;
      }
      if d.eventId !in outbox {
        outbox := outbox[d.eventId := OutboxRow(target, EventType(d.event))];
      }
      cache := MarkRedis(cache, Mark(d.eventId, d.hash));
      return Accepted;
    }
  }

  // ---- Sequences of deliveries and cache evictions ----

  datatype Input = Deliver(d: Delivery) | Evict(keys: set<Key>)

  function Step(s: Store, x: Input): Store {
    match x
    case Deliver(d) => Handle(s, d)
    case Evict(keys) => s.(cache := s.cache - keys)
  }

  function Run(s: Store, xs: seq<Input>): Store
    decreases |xs|
  {
    if xs == [] then s else Run(Step(s, xs[0]), xs[1..])
  }

  /** Whatever is cached has been persisted. */
  predicate CacheSound(s: Store) {
    s.cache.Keys <= s.tables.events.Keys
  }

  /** The effect of a delivery on the tables does not depend on the cache. */
  function TableStep(t: Tables, d: Delivery): Tables {
    if !IsAcceptable(d) || d.eventId in t.events then t else Ingest(t, d)
  }

  lemma CacheIsTransparent(s: Store, d: Delivery)
    requires CacheSound(s)
    ensures CacheSound(Handle(s, d))
    ensures Handle(s, d).tables == TableStep(s.tables, d)
  {
  }

  function TableRun(t: Tables, ds: seq<Delivery>): Tables {
    if ds == [] then t else TableStep(TableRun(t, ds[..|ds| - 1]), ds[|ds| - 1])
  }

  function Deliveries(xs: seq<Input>): seq<Delivery> {
    if xs == [] then []
    else Deliveries(xs[..|xs| - 1]) + if xs[|xs| - 1].Deliver? then [xs[|xs| - 1].d] else []
  }

  lemma {:induction false} RunSplit(s: Store, xs: seq<Input>, x: Input)
    ensures Run(s, xs + [x]) == Step(Run(s, xs), x)
    decreases |xs|
  {
    if xs == [] {
      assert xs + [x] == [x];
      assert [x][1..] == [];
    } else {
      assert (xs + [x])[1..] == xs[1..] + [x];
      RunSplit(Step(s, xs[0]), xs[1..], x);
    }
  }

  lemma {:induction false} TablesOfRun(s: Store, xs: seq<Input>)
    requires CacheSound(s)
    ensures CacheSound(Run(s, xs)) && Run(s, xs).tables == TableRun(s.tables, Deliveries(xs))
  {
    if xs != [] {
      var front, x := xs[..|xs| - 1], xs[|xs| - 1];
      TablesOfRun(s, front);
      RunSplit(s, front, x);
      assert xs == front + [x];
      var ds := Deliveries(front);
      if x.Deliver? {
        CacheIsTransparent(Run(s, front), x.d);
        assert Deliveries(xs)[..|ds|] == ds;
      } else {
        assert Deliveries(xs) == ds;
      }
    }
  }

  // ---- Repeats ----

  predicate OccursIn(ds: seq<Delivery>, id: Key) {
    exists d | d in ds :: IsAcceptable(d) && d.eventId == id
  }

  /** The acceptable deliveries without repeats: the first of each event id. */
  function FirstDeliveries(ds: seq<Delivery>): seq<Delivery> {
    if ds == [] then []
    else
      var front, d := ds[..|ds| - 1], ds[|ds| - 1];
      if IsAcceptable(d) && !OccursIn(front, d.eventId) then FirstDeliveries(front) + [d] else FirstDeliveries(front)
  }

  lemma EventsOfStep(t: Tables, d: Delivery, id: Key)
    ensures id in TableStep(t, d).events <==> id in t.events || (IsAcceptable(d) && d.eventId == id)
  {
  }

  lemma OccursInExtension(front: seq<Delivery>, d: Delivery, id: Key)
    ensures OccursIn(front + [d], id) <==> OccursIn(front, id) || (IsAcceptable(d) && d.eventId == id)
  {
    assert forall x | x in front + [d] :: x in front || x == d;
    assert d in front + [d] && forall x | x in front :: x in front + [d];
  }

  lemma {:induction false} EventsOfRun(t: Tables, ds: seq<Delivery>, id: Key)
    ensures id in TableRun(t, ds).events <==> id in t.events || OccursIn(ds, id)
  {
    if ds != [] {
      var front, d := ds[..|ds| - 1], ds[|ds| - 1];
      EventsOfRun(t, front, id);
      EventsOfStep(TableRun(t, front), d, id);
      OccursInExtension(front, d, id);
      assert ds == front + [d];
    }
  }

  lemma {:induction false} RepeatsChangeNothing(t: Tables, ds: seq<Delivery>)
    ensures TableRun(t, ds) == TableRun(t, FirstDeliveries(ds))
  {
    if ds != [] {
      var front, d := ds[..|ds| - 1], ds[|ds| - 1];
      RepeatsChangeNothing(t, front);
      EventsOfRun(t, front, d.eventId);
      if IsAcceptable(d) && !OccursIn(front, d.eventId) {
        var first := FirstDeliveries(front);
        assert FirstDeliveries(ds)[..|first|] == first;
      }
    }
  }

  /** Exactly-once ingestion: whatever is delivered how often, and whatever the cache forgets when, the
      events, intents and outbox tables end up as if each event had been delivered once, at its first
      acceptable delivery, to an empty cache. */
  lemma ExactlyOnce(s: Store, xs: seq<Input>)
    requires CacheSound(s)
    ensures Run(s, xs).tables == TableRun(s.tables, FirstDeliveries(Deliveries(xs)))
  {
    TablesOfRun(s, xs);
    RepeatsChangeNothing(s.tables, Deliveries(xs));
  }

  // ---- The outbox ----

  /** The first acceptable delivery of an event. */
  function FirstOf(ds: seq<Delivery>, id: Key): Option<Delivery> {
    if ds == [] then None
    else
      var front, d := ds[..|ds| - 1], ds[|ds| - 1];
      if FirstOf(front, id).Some? then FirstOf(front, id)
      else if IsAcceptable(d) && d.eventId == id then Some(d)
      else None
  }

  lemma {:induction false} FirstOfOccurs(ds: seq<Delivery>, id: Key)
    ensures FirstOf(ds, id).Some? <==> OccursIn(ds, id)
    ensures FirstOf(ds, id).Some? ==> FirstOf(ds, id).value.eventId == id
  {
    if ds != [] {
      var front, d := ds[..|ds| - 1], ds[|ds| - 1];
      FirstOfOccurs(front, id);
      assert OccursIn(ds, id) <==> OccursIn(front, id) || (IsAcceptable(d) && d.eventId == id);
    }
  }

  const NoTables := Tables(map[], map[], [], map[])

  /** From empty tables: an event has an outbox row, one and the same for ever, exactly if its first
      acceptable delivery is of a supported kind and carries a positive amount.  With any other amount
      the event is persisted, the intent's upsert fails, and no redelivery ever enqueues it. */
  lemma {:induction false} OutboxExactlyFor(ds: seq<Delivery>, id: Key)
    ensures var t, first := TableRun(NoTables, ds), FirstOf(ds, id);
      && (id in t.events <==> first.Some?)
      && (id in t.outbox <==> first.Some? && IsSupportedFlow(first.value) && first.value.amount > 0.0)
      && (id in t.outbox ==> t.outbox[id] == OutboxRow(t.events[id].intent, EventType(first.value.event)))
  {
    EventsOfRun(NoTables, ds, id);
    FirstOfOccurs(ds, id);
    if ds != [] {
      var front, d := ds[..|ds| - 1], ds[|ds| - 1];
      OutboxExactlyFor(front, id);
      EventsOfRun(NoTables, front, d.eventId);
      FirstOfOccurs(front, id);
    }
  }

  // ---- Order ----

  /** The intents that order references stand for, and those references that a row carries for good: as
      its order id, which nothing changes, or as its Razorpay order id. */
  datatype Naming = Naming(of: map<string, IntentId>, byOrderId: set<string>, byRazorpayId: set<string>)
  {
    predicate Anchors(ref: string) {
      ref in byOrderId || ref in byRazorpayId
    }
  }

  const NoNaming := Naming(map[], {}, {})

  /** The intent that a delivery is meant for: the one it names, or that of its order reference. */
  function Target(n: Naming, d: Delivery): IntentId {
    if d.named.Some? then d.named.value
    else if d.orderRef in n.of then n.of[d.orderRef]
    else d.derived
  }

  /** The delivery goes along with the naming.  Without a name of its own its reference has one, and if no
      row carries that reference for good, the same intent is derived from it.  Whatever reference it
      carries stands for its own intent, and it does not replace a Razorpay order id that counts. */
  predicate Fits(n: Naming, d: Delivery) {
    && (d.named.None? ==> d.orderRef in n.of && (n.Anchors(d.orderRef) || d.derived == n.of[d.orderRef]))
    && (d.orderRef in n.of ==> n.of[d.orderRef] == Target(n, d))
    && (d.razorpayOrderId.Some? && d.razorpayOrderId.value in n.of ==> n.of[d.razorpayOrderId.value] == Target(n, d))
    && forall ref | ref in n.byRazorpayId && ref in n.of && n.of[ref] == Target(n, d) ::
         d.razorpayOrderId in {None, Some(ref)}
  }

  /** The delivery writes the intents table. */
  predicate IsWriting(d: Delivery) {
    IsAcceptable(d) && d.amount > 0.0
  }

  predicate AllFit(n: Naming, ds: seq<Delivery>) {
    forall d | d in ds && IsWriting(d) :: Fits(n, d)
  }

  predicate RowFits(n: Naming, o: OrderRef) {
    forall ref | ref in n.of && Refers(o, ref) :: o.intent == n.of[ref]
  }

  predicate HasOrderId(orders: seq<OrderRef>, ref: string) {
    exists o | o in orders :: o.orderId == ref
  }

  predicate HasRazorpayId(orders: seq<OrderRef>, ref: string) {
    exists o | o in orders :: o.razorpayOrderId == Some(ref)
  }

  /** No row of another intent carries a reference, and every anchor has its row. */
  predicate RowsFit(n: Naming, orders: seq<OrderRef>) {
    && (forall o | o in orders :: RowFits(n, o))
    && (forall ref | ref in n.byOrderId :: HasOrderId(orders, ref))
    && (forall ref | ref in n.byRazorpayId :: HasRazorpayId(orders, ref))
  }

  lemma {:induction false} LookupFits(n: Naming, orders: seq<OrderRef>, ref: string)
    requires ref in n.of && forall o | o in orders :: RowFits(n, o)
    ensures Lookup(orders, ref) in {None, Some(n.of[ref])}
    ensures HasOrderId(orders, ref) || HasRazorpayId(orders, ref) ==> Lookup(orders, ref) == Some(n.of[ref])
  {
    if orders != [] {
      assert orders == [orders[0]] + orders[1..];
      assert RowFits(n, orders[0]);
      LookupFits(n, orders[1..], ref);
    }
  }

  lemma {:induction false} UpdateFits(n: Naming, orders: seq<OrderRef>, d: Delivery)
    requires Fits(n, d) && forall o | o in orders :: RowFits(n, o)
    ensures forall o | o in UpdateOrders(orders, Target(n, d), d) :: RowFits(n, o)
  {
    if orders != [] {
      assert orders == [orders[0]] + orders[1..];
      assert RowFits(n, orders[0]);
      UpdateFits(n, orders[1..], d);
    }
  }

  /** Order ids are never changed. */
  lemma {:induction false} UpdateKeepsOrderId(orders: seq<OrderRef>, i: IntentId, d: Delivery, ref: string)
    requires HasOrderId(orders, ref)
    ensures HasOrderId(UpdateOrders(orders, i, d), ref)
  {
    var rest := orders[1..];
    assert orders == [orders[0]] + rest;
    if orders[0].intent == i {
      var row := orders[0].(razorpayOrderId := Coalesce(d.razorpayOrderId, orders[0].razorpayOrderId));
      assert UpdateOrders(orders, i, d) == [row] + rest;
      assert orders[0].orderId == ref ==> row in [row] + rest && row.orderId == ref;
    } else {
      assert UpdateOrders(orders, i, d) == [orders[0]] + UpdateOrders(rest, i, d);
      if orders[0].orderId == ref {
        assert orders[0] in UpdateOrders(orders, i, d);
      } else {
        UpdateKeepsOrderId(rest, i, d, ref);
      }
    }
  }

  /** A Razorpay order id stays unless a delivery of the row's intent brings another one. */
  lemma {:induction false} UpdateKeepsRazorpayId(orders: seq<OrderRef>, i: IntentId, d: Delivery, ref: string)
    requires HasRazorpayId(orders, ref)
    requires d.razorpayOrderId in {None, Some(ref)} || forall o | o in orders && o.razorpayOrderId == Some(ref) :: o.intent != i
    ensures HasRazorpayId(UpdateOrders(orders, i, d), ref)
  {
    var rest := orders[1..];
    assert orders == [orders[0]] + rest;
    if orders[0].intent == i {
      var row := orders[0].(razorpayOrderId := Coalesce(d.razorpayOrderId, orders[0].razorpayOrderId));
      assert UpdateOrders(orders, i, d) == [row] + rest;
      assert orders[0].razorpayOrderId == Some(ref) ==> row in [row] + rest && row.razorpayOrderId == Some(ref);
    } else {
      assert UpdateOrders(orders, i, d) == [orders[0]] + UpdateOrders(rest, i, d);
      if orders[0].razorpayOrderId == Some(ref) {
        assert orders[0] in UpdateOrders(orders, i, d);
      } else {
        UpdateKeepsRazorpayId(rest, i, d, ref);
      }
    }
  }

  /** The references of the naming that serve as anchors have their intents. */
  predicate IsSound(n: Naming) {
    n.byOrderId <= n.of.Keys && n.byRazorpayId <= n.of.Keys
  }

  lemma UpdateKeepsFit(n: Naming, orders: seq<OrderRef>, d: Delivery)
    requires IsSound(n) && RowsFit(n, orders) && Fits(n, d)
    ensures RowsFit(n, UpdateOrders(orders, Target(n, d), d))
  {
    UpdateFits(n, orders, d);
    forall ref | ref in n.byOrderId ensures HasOrderId(UpdateOrders(orders, Target(n, d), d), ref) {
      UpdateKeepsOrderId(orders, Target(n, d), d, ref);
    }
    forall ref | ref in n.byRazorpayId ensures HasRazorpayId(UpdateOrders(orders, Target(n, d), d), ref) {
      assert ref in n.of;
      forall o | o in orders && o.razorpayOrderId == Some(ref) ensures o.intent == n.of[ref] {
        assert RowFits(n, o);
      }
      UpdateKeepsRazorpayId(orders, Target(n, d), d, ref);
    }
  }

  /** Such a delivery reaches the intent that it is meant for. */
  lemma TargetFits(n: Naming, t: Tables, d: Delivery)
    requires IsSound(n) && RowsFit(n, t.orders) && Fits(n, d)
    ensures TargetOf(t, d) == Target(n, d)
  {
    if d.named.None? {
      LookupFits(n, t.orders, d.orderRef);
    }
  }

  predicate AllNew(t: Tables, ds: seq<Delivery>) {
    && (forall d | d in ds :: d.eventId !in t.events)
    && (forall j, k | 0 <= j < k < |ds| :: ds[j].eventId != ds[k].eventId)
  }

  /** The state of an intent after deliveries of distinct new events whose targets are fixed: FAILED
      exactly if it was before or one of the events that wrote it was payment.failed; otherwise what
      it was, or PENDING_RAIL for an intent that the deliveries created. */
  function StateFrom(before: Option<PaymentState>, written: bool, failed: bool): Option<PaymentState> {
    if before.None? && !written then None
    else if failed || before == Some(PaymentState.Failed) then Some(PaymentState.Failed)
    else if before.Some? then before
    else Some(PendingRail)
  }

  function StateOf(t: Tables, i: IntentId): Option<PaymentState> {
    if i in t.intents then Some(t.intents[i].state) else None
  }

  /** A delivery that writes intent `i`. */
  predicate Writes(n: Naming, d: Delivery, i: IntentId) {
    IsWriting(d) && Target(n, d) == i
  }

  predicate WrittenBy(n: Naming, ds: seq<Delivery>, i: IntentId) {
    exists d | d in ds :: Writes(n, d, i)
  }

  predicate FailedBy(n: Naming, ds: seq<Delivery>, i: IntentId) {
    exists d | d in ds :: Writes(n, d, i) && IsFailure(d)
  }

  lemma StateAfterOne(n: Naming, t: Tables, d: Delivery, i: IntentId)
    requires d.eventId !in t.events && (IsWriting(d) ==> TargetOf(t, d) == Target(n, d))
    ensures StateOf(TableStep(t, d), i) == StateFrom(StateOf(t, i), Writes(n, d, i), Writes(n, d, i) && IsFailure(d))
  {
  }

  lemma WritersOfExtension(n: Naming, front: seq<Delivery>, d: Delivery, i: IntentId)
    ensures WrittenBy(n, front + [d], i) <==> WrittenBy(n, front, i) || Writes(n, d, i)
    ensures FailedBy(n, front + [d], i) <==> FailedBy(n, front, i) || (Writes(n, d, i) && IsFailure(d))
  {
    assert forall x :: x in front + [d] <==> x in front || x == d;
  }

  lemma LastIsNew(n: Naming, t: Tables, front: seq<Delivery>, d: Delivery)
    requires AllFit(n, front + [d]) && AllNew(t, front + [d])
    ensures AllFit(n, front) && AllNew(t, front)
    ensures IsWriting(d) ==> Fits(n, d)
    ensures d.eventId !in TableRun(t, front).events
  {
    var ds := front + [d];
    assert ds[|front|] == d && d in ds;
    assert forall k | 0 <= k < |front| :: ds[k] == front[k];
    assert forall x | x in front :: x in ds;
    EventsOfRun(t, front, d.eventId);
  }

  lemma OrdersOfStep(t: Tables, d: Delivery)
    ensures TableStep(t, d).orders ==
      if IsWriting(d) && d.eventId !in t.events then UpdateOrders(t.orders, TargetOf(t, d), d) else t.orders
  {
  }

  lemma {:induction false} RowsStayFit(n: Naming, t: Tables, ds: seq<Delivery>)
    requires IsSound(n) && AllFit(n, ds) && RowsFit(n, t.orders)
    ensures RowsFit(n, TableRun(t, ds).orders)
  {
    if ds != [] {
      var front, d := ds[..|ds| - 1], ds[|ds| - 1];
      assert d in ds && forall x | x in front :: x in ds;
      RowsStayFit(n, t, front);
      var t' := TableRun(t, front);
      OrdersOfStep(t', d);
      if IsWriting(d) {
        TargetFits(n, t', d);
        UpdateKeepsFit(n, t'.orders, d);
      }
    }
  }

  lemma StateAfterLast(n: Naming, t: Tables, d: Delivery, i: IntentId)
    requires IsSound(n) && RowsFit(n, t.orders) && (IsWriting(d) ==> Fits(n, d)) && d.eventId !in t.events
    ensures StateOf(TableStep(t, d), i) == StateFrom(StateOf(t, i), Writes(n, d, i), Writes(n, d, i) && IsFailure(d))
  {
    if IsWriting(d) {
      TargetFits(n, t, d);
    }
    StateAfterOne(n, t, d, i);
  }

  lemma WritesCompose(before: Option<PaymentState>, w1: bool, f1: bool, w2: bool, f2: bool)
    requires (f1 ==> w1) && (f2 ==> w2)
    ensures StateFrom(StateFrom(before, w1, f1), w2, f2) == StateFrom(before, w1 || w2, f1 || f2)
  {
  }

  lemma {:induction false} StateAfterDeliveries(n: Naming, t: Tables, ds: seq<Delivery>, i: IntentId)
    requires IsSound(n) && AllFit(n, ds) && RowsFit(n, t.orders) && AllNew(t, ds)
    ensures StateOf(TableRun(t, ds), i) == StateFrom(StateOf(t, i), WrittenBy(n, ds, i), FailedBy(n, ds, i))
  {
    if ds != [] {
      var front, d := ds[..|ds| - 1], ds[|ds| - 1];
      assert ds == front + [d];
      LastIsNew(n, t, front, d);
      StateAfterDeliveries(n, t, front, i);
      RowsStayFit(n, t, front);
      StateAfterLast(n, TableRun(t, front), d, i);
      WritersOfExtension(n, front, d, i);
      WritesCompose(StateOf(t, i), WrittenBy(n, front, i), FailedBy(n, front, i), Writes(n, d, i), Writes(n, d, i) && IsFailure(d));
    }
  }

  /** So the order in which the same deliveries arrive does not matter to the state of any intent, be they
      matched to it by name, by a reference that its row carries, or by one from which it is derived. */
  lemma OrderDoesNotMatter(n: Naming, t: Tables, ds: seq<Delivery>, ds': seq<Delivery>, i: IntentId)
    requires IsSound(n) && AllFit(n, ds) && RowsFit(n, t.orders) && AllNew(t, ds) && AllNew(t, ds')
    requires forall d :: d in ds <==> d in ds'
    ensures StateOf(TableRun(t, ds), i) == StateOf(TableRun(t, ds'), i)
  {
    StateAfterDeliveries(n, t, ds, i);
    StateAfterDeliveries(n, t, ds', i);
  }

  /** Deliveries that all name their intents need no naming of references. */
  lemma NamedDeliveriesCommute(t: Tables, ds: seq<Delivery>, ds': seq<Delivery>, i: IntentId)
    requires forall d | d in ds :: d.named.Some?
    requires AllNew(t, ds) && AllNew(t, ds') && forall d :: d in ds <==> d in ds'
    ensures StateOf(TableRun(t, ds), i) == StateOf(TableRun(t, ds'), i)
  {
    OrderDoesNotMatter(NoNaming, t, ds, ds', i);
  }

  /** Nor do deliveries without names that all belong to an order created before: its row carries their
      reference as its order id, and no other row or delivery does.  What is derived from the reference,
      another intent altogether, never matters. */
  lemma DeliveriesOfAnOrderCommute(t: Tables, order: string, i: IntentId, ds: seq<Delivery>, ds': seq<Delivery>)
    requires forall o | o in t.orders && Refers(o, order) :: o.intent == i
    requires HasOrderId(t.orders, order)
    requires forall d | d in ds :: d.named.None? && d.orderRef == order && d.razorpayOrderId in {None, Some(order)}
    requires AllNew(t, ds) && AllNew(t, ds') && forall d :: d in ds <==> d in ds'
    ensures StateOf(TableRun(t, ds), i) == StateOf(TableRun(t, ds'), i)
    ensures forall j: IntentId | j != i :: StateOf(TableRun(t, ds), j) == StateOf(t, j)
  {
    var n := Naming(map[order := i], {order}, {});
    OrderDoesNotMatter(n, t, ds, ds', i);
    forall j: IntentId | j != i ensures StateOf(TableRun(t, ds), j) == StateOf(t, j) {
      StateAfterDeliveries(n, t, ds, j);
    }
  }

  // ---- Where the condition ends: a named delivery that carries another intent's reference ----

  predicate HasRow(orders: seq<OrderRef>, i: IntentId) {
    exists o | o in orders :: o.intent == i
  }

  /** After the delivery a row of its intent carries the reference. */
  predicate Carries(orders: seq<OrderRef>, i: IntentId, d: Delivery, ref: string) {
    d.razorpayOrderId == Some(ref) || (d.orderRef == ref && !HasRow(orders, i))
  }

  lemma {:induction false} LookupAfterUpdate(orders: seq<OrderRef>, i: IntentId, d: Delivery, ref: string)
    requires Lookup(orders, ref) == None
    ensures Lookup(UpdateOrders(orders, i, d), ref) == if Carries(orders, i, d, ref) then Some(i) else None
  {
    if orders != [] {
      var rest := orders[1..];
      assert orders == [orders[0]] + rest;
      assert HasRow(orders, i) <==> orders[0].intent == i || HasRow(rest, i);
      LookupAfterUpdate(rest, i, d, ref);
      if orders[0].intent == i {
        var row := orders[0].(razorpayOrderId := Coalesce(d.razorpayOrderId, orders[0].razorpayOrderId));
        assert ([row] + rest)[0] == row && ([row] + rest)[1..] == rest;
      } else {
        var rows := UpdateOrders(rest, i, d);
        assert ([orders[0]] + rows)[0] == orders[0] && ([orders[0]] + rows)[1..] == rows;
      }
    }
  }

  /** Two new events with amounts: one that names an intent, and one that is matched by a reference that
      no row carries yet.  Whether they commute, exactly: they do unless the first brings the second's
      reference to an intent other than the derived one, and even then if the derived intent exists
      and what the second one writes makes no difference to either intent. */
  lemma PairCommutesExactlyWhen(t: Tables, a: Delivery, b: Delivery)
    requires IsAcceptable(a) && IsAcceptable(b) && a.amount > 0.0 && b.amount > 0.0
    requires a.eventId !in t.events && b.eventId !in t.events && a.eventId != b.eventId
    requires a.named.Some? && b.named.None? && Lookup(t.orders, b.orderRef) == None
    ensures var i, j := a.named.value, b.derived;
      (forall k: IntentId :: StateOf(TableStep(TableStep(t, a), b), k) == StateOf(TableStep(TableStep(t, b), a), k))
      <==> (|| i == j
            || !Carries(t.orders, i, a, b.orderRef)
            || (&& j in t.intents
                && (IsFailure(b) ==>
                      StateOf(t, j) == Some(PaymentState.Failed)
                      && (IsFailure(a) || StateOf(t, i) == Some(PaymentState.Failed)))))
  {
    var i, j := a.named.value, b.derived;
    var j' := if Carries(t.orders, i, a, b.orderRef) then i else j;
    var ab, ba := TableStep(TableStep(t, a), b), TableStep(TableStep(t, b), a);
    forall k: IntentId {
      PairStates(t, a, b, k);
    }
    WritesCommuteExactlyWhen(t, ab, ba, i, j, j', IsFailure(a), IsFailure(b));
  }

  /** Two writes, of which the second one's target depends on whether it comes second. */
  lemma WritesCommuteExactlyWhen(t: Tables, ab: Tables, ba: Tables,
                                 i: IntentId, j: IntentId, j': IntentId, fa: bool, fb: bool)
    requires j' == i || j' == j
    requires forall k: IntentId ::
      StateOf(ab, k) == StateFrom(StateFrom(StateOf(t, k), k == i, k == i && fa), k == j', k == j' && fb)
    requires forall k: IntentId ::
      StateOf(ba, k) == StateFrom(StateFrom(StateOf(t, k), k == j, k == j && fb), k == i, k == i && fa)
    ensures (forall k: IntentId :: StateOf(ab, k) == StateOf(ba, k)) <==>
      (|| j' == j
       || (&& j in t.intents
           && (fb ==> StateOf(t, j) == Some(PaymentState.Failed) && (fa || StateOf(t, i) == Some(PaymentState.Failed)))))
  {
    OneMoreWrite(StateOf(t, i), fa, fb);
    if j' == j {
      forall k: IntentId ensures StateOf(ab, k) == StateOf(ba, k) {
      }
    } else {
      assert (forall k: IntentId :: StateOf(ab, k) == StateOf(ba, k)) <==>
        StateOf(ab, i) == StateOf(ba, i) && StateOf(ab, j) == StateOf(ba, j);
    }
  }

  /** What a write adds to a state that is written already. */
  lemma OneMoreWrite(before: Option<PaymentState>, fa: bool, fb: bool)
    ensures StateFrom(StateFrom(before, true, fa), true, fb) == StateFrom(before, true, fa)
       <==> (fb ==> fa || before == Some(PaymentState.Failed))
    ensures StateFrom(StateFrom(before, true, fa), true, fb) == StateFrom(StateFrom(before, true, fb), true, fa)
  {
  }

  /** The states after the two deliveries in either order. */
  lemma PairStates(t: Tables, a: Delivery, b: Delivery, k: IntentId)
    requires IsAcceptable(a) && IsAcceptable(b) && a.amount > 0.0 && b.amount > 0.0
    requires a.eventId !in t.events && b.eventId !in t.events && a.eventId != b.eventId
    requires a.named.Some? && b.named.None? && Lookup(t.orders, b.orderRef) == None
    ensures var i, j := a.named.value, b.derived;
      var j' := if Carries(t.orders, i, a, b.orderRef) then i else j;
      && StateOf(TableStep(TableStep(t, a), b), k) ==
           StateFrom(StateFrom(StateOf(t, k), k == i, k == i && IsFailure(a)), k == j', k == j' && IsFailure(b))
      && StateOf(TableStep(TableStep(t, b), a), k) ==
           StateFrom(StateFrom(StateOf(t, k), k == j, k == j && IsFailure(b)), k == i, k == i && IsFailure(a))
  {
    var ta, tb := TableStep(t, a), TableStep(t, b);
    AfterWrite(t, a, b);
    AfterWrite(t, b, a);
    LookupAfterUpdate(t.orders, a.named.value, a, b.orderRef);
    WriteOf(t, a, k);
    WriteOf(ta, b, k);
    WriteOf(t, b, k);
    WriteOf(tb, a, k);
  }

  lemma AfterWrite(t: Tables, d: Delivery, other: Delivery)
    requires IsAcceptable(d) && d.amount > 0.0 && d.eventId !in t.events
    ensures TableStep(t, d).orders == UpdateOrders(t.orders, TargetOf(t, d), d)
    ensures other.eventId != d.eventId && other.eventId !in t.events ==> other.eventId !in TableStep(t, d).events
  {
  }

  lemma WriteOf(t: Tables, d: Delivery, k: IntentId)
    requires IsAcceptable(d) && d.amount > 0.0 && d.eventId !in t.events
    ensures var i := TargetOf(t, d);
      StateOf(TableStep(t, d), k) == StateFrom(StateOf(t, k), k == i, k == i && IsFailure(d))
  {
  }

  const BY_ORDER := Delivery(true, true, true, "evt_1", "payment.captured", None, 1, "order_x", Some("order_x"), None, 5.0, "INR", "a")
  const BY_NAME := BY_ORDER.(eventId := "evt_2", named := Some(2))

  /** For example, one of two intents of the same order is only created if its delivery comes first. */
  lemma OrderMattersWithoutName()
    ensures StateOf(TableRun(NoTables, [BY_ORDER, BY_NAME]), 1) == Some(PendingRail)
    ensures StateOf(TableRun(NoTables, [BY_NAME, BY_ORDER]), 1) == None
  {
    assert [BY_ORDER, BY_NAME][..1] == [BY_ORDER] && [BY_NAME, BY_ORDER][..1] == [BY_NAME];
    assert [BY_ORDER][..0] == [] && [BY_NAME][..0] == [];
    assert TableRun(NoTables, [BY_ORDER]) == TableStep(NoTables, BY_ORDER);
    assert TableRun(NoTables, [BY_NAME]) == TableStep(NoTables, BY_NAME);
  }

  // ---- What the cache remembers ----

  /** The second acceptable delivery of an event. */
  function SecondOf(ds: seq<Delivery>, id: Key): Option<Delivery> {
    if ds == [] then None
    else
      var front, d := ds[..|ds| - 1], ds[|ds| - 1];
      if SecondOf(front, id).Some? then SecondOf(front, id)
      else if FirstOf(front, id).Some? && IsAcceptable(d) && d.eventId == id then Some(d)
      else None
  }

  const EmptyStore := Store(NoTables, map[], 0)

  predicate OnlyDeliveries(xs: seq<Input>) {
    forall x | x in xs :: x.Deliver? && x.d.hash != ""
  }

  /** The delivery whose hash is cached: the first if its upsert succeeds, otherwise the second, which
      finds the event in the database. */
  function MarkerOf(ds: seq<Delivery>, id: Key): Option<Delivery> {
    var first := FirstOf(ds, id);
    if first.Some? && first.value.amount > 0.0 then first else SecondOf(ds, id)
  }

  /** What a store holds of an event: nothing, or the hashes of its first delivery and of its marker. */
  predicate Remembers(s: Store, ds: seq<Delivery>, id: Key) {
    var first, marker := FirstOf(ds, id), MarkerOf(ds, id);
    && (id in s.tables.events <==> first.Some?)
    && (first.Some? ==> s.tables.events[id].hash == first.value.hash)
    && (id in s.cache <==> marker.Some?)
    && (marker.Some? ==> first.Some? && marker.value.hash != "" && s.cache[id] == marker.value.hash)
  }

  lemma HandleRemembers(s: Store, ds: seq<Delivery>, d: Delivery, id: Key)
    requires Remembers(s, ds, id) && d.hash != ""
    ensures Remembers(Handle(s, d), ds + [d], id)
  {
    assert (ds + [d])[..|ds|] == ds;
    assert FirstOf(ds + [d], id) ==
      if FirstOf(ds, id).Some? then FirstOf(ds, id) else if IsAcceptable(d) && d.eventId == id then Some(d) else None;
  }

  lemma {:induction false} StoreRemembers(xs: seq<Input>, id: Key)
    requires OnlyDeliveries(xs)
    ensures Remembers(Run(EmptyStore, xs), Deliveries(xs), id)
  {
    if xs != [] {
      var front, x := xs[..|xs| - 1], xs[|xs| - 1];
      assert x in xs && forall y | y in front :: y in xs;
      assert xs == front + [x];
      StoreRemembers(front, id);
      RunSplit(EmptyStore, front, x);
      HandleRemembers(Run(EmptyStore, front), Deliveries(front), x.d, id);
    }
  }

  /** While nothing is evicted, what is cached of an event is the hash of the persisted body if and only if,
      in case its first acceptable delivery carried no amount, the next one carried the same body. */
  lemma CacheFaithfulExactlyWhen(xs: seq<Input>, id: Key)
    requires OnlyDeliveries(xs)
    ensures var s, ds := Run(EmptyStore, xs), Deliveries(xs);
      var first, second := FirstOf(ds, id), SecondOf(ds, id);
      && (id in s.cache ==> id in s.tables.events)
      && ((id in s.cache ==> s.cache[id] == s.tables.events[id].hash) <==>
            (first.Some? && first.value.amount <= 0.0 && second.Some? ==> second.value.hash == first.value.hash))
  {
    StoreRemembers(xs, id);
  }

  const UNPAID := BY_NAME.(amount := 0.0)

  /** Without any eviction: two deliveries of an event that carries no amount, with different bodies.  The
      second one's hash is cached, and the persisted body is from then on refused as a conflict. */
  lemma UnpaidEventLosesTheHash()
    ensures var s := Run(EmptyStore, [Deliver(UNPAID), Deliver(UNPAID.(hash := "b"))]);
      && "evt_2" in s.tables.events && s.tables.events["evt_2"].hash == "a"
      && "evt_2" in s.cache && s.cache["evt_2"] == "b"
      && ResponseTo(s, UNPAID) == Conflict
  {
    var altered := UNPAID.(hash := "b");
    var s1, s2 := Handle(EmptyStore, UNPAID), Handle(Handle(EmptyStore, UNPAID), altered);
    RunSplit(EmptyStore, [], Deliver(UNPAID));
    RunSplit(EmptyStore, [Deliver(UNPAID)], Deliver(altered));
    assert [] + [Deliver(UNPAID)] == [Deliver(UNPAID)];
    assert [Deliver(UNPAID)] + [Deliver(altered)] == [Deliver(UNPAID), Deliver(altered)];
    assert UNPAID.hash == "a" && altered.hash == "b";
    assert "evt_2" in s1.tables.events && "evt_2" !in s1.cache;
  }

  /** The cache holds, for every persisted event, the hash it was persisted with. */
  predicate CacheFaithful(s: Store) {
    && s.cache.Keys == s.tables.events.Keys
    && forall id | id in s.cache :: s.cache[id] == s.tables.events[id].hash
  }

  /** A delivery whose body has a hash and whose amount the intents table accepts. */
  predicate IsPaid(d: Delivery) {
    d.hash != "" && d.amount > 0.0
  }

  /** From any store whose cache is faithful, while nothing is evicted and every delivery carries an amount,
      the cache stays faithful. */
  lemma {:induction false} CacheStaysFaithful(s: Store, xs: seq<Input>)
    requires CacheFaithful(s) && forall x | x in xs :: x.Deliver? && IsPaid(x.d)
    ensures CacheFaithful(Run(s, xs))
    decreases |xs|
  {
    if xs != [] {
      assert xs[0] in xs;
      CacheStaysFaithful(Step(s, xs[0]), xs[1..]);
    }
  }

  /** So an event once persisted is answered for good: its own body as a duplicate, any other as a conflict. */
  lemma RedeliveriesAreRecognized(s: Store, xs: seq<Input>, d: Delivery)
    requires CacheFaithful(s) && forall x | x in xs :: x.Deliver? && IsPaid(x.d)
    requires IsAcceptable(d) && d.eventId in Run(s, xs).tables.events
    ensures var hash := Run(s, xs).tables.events[d.eventId].hash;
      ResponseTo(Run(s, xs), d) == if hash == d.hash || hash == NO_HASH then IgnoredByCache else Conflict
  {
    CacheStaysFaithful(s, xs);
  }

  const ORIGINAL := BY_NAME.(hash := "a")
  const ALTERED := BY_NAME.(hash := "b")

  /** After an eviction a redelivery with another body is not recognized as such; its hash takes the
      place of the persisted one, and the original body is from then on refused as a conflict. */
  lemma EvictionLosesTheHash(s: Store)
    requires "evt_2" !in s.tables.events && "evt_2" !in s.cache
    ensures var s' := Handle(Step(Handle(s, ORIGINAL), Evict({"evt_2"})), ALTERED);
      && s'.tables.events["evt_2"].hash == "a"
      && s'.cache["evt_2"] == "b"
      && ResponseTo(s', ORIGINAL) == Conflict
  {
    var s1 := Handle(s, ORIGINAL);
    assert "evt_2" in s1.tables.events && s1.tables.events["evt_2"].hash == "a";
    var s2 := Step(s1, Evict({"evt_2"}));
    assert "evt_2" !in s2.cache;
    assert ALTERED.hash == "b" && ORIGINAL.hash == "a";
  }
}
