/** The intents table and the statements that write it outside the resolver.  None of them goes
    through the state machine's transition function. */
module Intents {
  import opened Domain

  datatype Resolution = Pending | InProgress | Resolved

  datatype Intent = Intent(
    amount: Decimal,
    currency: string,
    state: PaymentState,
    activePayment: Option<string>,
    version: nat,
    resolution: Resolution)

  type IntentId = nat

  type Table = map<IntentId, Intent>

  function Coalesce(a: Option<string>, b: Option<string>): Option<string> {
    if a.Some? then a else b
  }

  /** The row a new intent starts with. */
  function Fresh(amount: Decimal, currency: string, state: PaymentState, payment: Option<string>): Intent {
    Intent(amount, currency, state, payment, 1, Pending)
  }

  /** Order creation: inserts a CREATED row unless the key exists; a non-positive amount violates the
      table's check. */
  function CreateOrder(t: Table, i: IntentId, amount: Decimal, currency: string): Table {
    if i in t || amount <= 0.0 then t else t[i := Fresh(amount, currency, Created, None)]
  }

  /** The webhook's upsert.  The proposed row is checked before the conflict is looked at, so a
      non-positive amount makes the statement fail even when the intent exists. */
  function WebhookUpsert(t: Table, i: IntentId, failed: bool, amount: Decimal, currency: string,
                         payment: Option<string>): Option<Table> {
    if amount <= 0.0 then None
    else if i in t then
      var row := t[i];
      Some(t[i := row.(amount := amount,
                       activePayment := Coalesce(payment, row.activePayment),
                       state := if failed then PaymentState.Failed else row.state)])
    else
      Some(t[i := Fresh(amount, currency, if failed then PaymentState.Failed else PendingRail, payment)])
  }

  /** What a checkout handler has read before it writes.  The read and the write are separate
      statements, so other writers may have come between. */
  predicate AlreadyVerified(seen: Intent, payment: string) {
    seen.state in {PaymentState.Authorized, PaymentState.Captured, Reconciled} && seen.activePayment == Some(payment)
  }

  /** A verified checkout authorizes the intent, whatever state it is in. */
  function VerifyCheckout(t: Table, i: IntentId, payment: string, seen: Intent): Table {
    if i !in t || AlreadyVerified(seen, payment) then t
    else t[i := t[i].(state := PaymentState.Authorized, activePayment := Some(payment))]
  }

  function ReportFailure(t: Table, i: IntentId, payment: Option<string>): Table {
    if i !in t then t
    else t[i := t[i].(state := PaymentState.Failed, activePayment := Coalesce(payment, t[i].activePayment))]
  }

  /** A writer that changes nothing but the state, the active payment and the resolution of one intent. */
  predicate IsChangeOf(t: Table, t': Table, i: IntentId, state: PaymentState, payment: Option<string>, resolution: Resolution) {
    && t'.Keys == t.Keys
    && (forall j | j in t && j != i :: t'[j] == t[j])
    && (i in t ==>
          t'[i] == Intent(t[i].amount, t[i].currency, state, payment, t[i].version, resolution))
  }

  /** What the writers other than webhooks write.  None of them changes an amount, a currency or a version; a
      checkout authorizes whatever the state, unless what it has read was authorized, captured or reconciled
      with the very payment; a failure report fails whatever the state. */
  lemma WhatWritersChange(t: Table, i: IntentId, payment: string, reported: Option<string>, seen: Intent, action: OperatorAction)
    requires i in t
    ensures CreateOrder(t, i, seen.amount, seen.currency) == t
    ensures
      var known := seen.state in {PaymentState.Authorized, PaymentState.Captured, Reconciled} && seen.activePayment == Some(payment);
      if known then VerifyCheckout(t, i, payment, seen) == t
      else IsChangeOf(t, VerifyCheckout(t, i, payment, seen), i, PaymentState.Authorized, Some(payment), t[i].resolution)
    ensures IsChangeOf(t, ReportFailure(t, i, reported), i, PaymentState.Failed,
                       if reported.Some? then reported else t[i].activePayment, t[i].resolution)
    ensures IsChangeOf(t, ManualResolve(t, i, action), i,
                       if action in {OpCapture, OpRefund, OpClose} then Reconciled else PaymentState.ManualReview,
                       t[i].activePayment, Resolved)
  {
  }

  /** And of an intent that does not exist: only an order creates it, in the state CREATED and for a positive
      amount. */
  lemma WhoCreates(t: Table, i: IntentId, amount: Decimal, currency: string, payment: string, seen: Intent, action: OperatorAction)
    requires i !in t
    ensures VerifyCheckout(t, i, payment, seen) == ReportFailure(t, i, Some(payment)) == ManualResolve(t, i, action) == t
    ensures CreateOrder(t, i, amount, currency)
         == if amount > 0.0 then t[i := Intent(amount, currency, Created, None, 1, Pending)] else t
  {
  }

  datatype OperatorAction = OpCapture | OpRefund | OpClose | OpOther

  function ManualResolve(t: Table, i: IntentId, action: OperatorAction): Table {
    if i !in t then t
    else t[i := t[i].(state := if action == OpOther then PaymentState.ManualReview else Reconciled,
                      resolution := Resolved)]
  }
}
