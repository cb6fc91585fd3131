/** The negotiator: turns what was read from the provider into evidence. */
module Negotiator {
  import opened Domain
  import Money

  /** A payment record as the provider's API returns it.  Absent fields are None. */
  datatype PaymentInfo = PaymentInfo(
    status: string,
    id: Option<string>,
    amount: Option<int>,
    currency: Option<string>)

  /** The outcomes of looking the payment up: a record; an API error; or no API lookup at all, in
      which case a synthetic rail is asked. */
  datatype Reading =
    | Found(info: PaymentInfo)
    | ReadError
    | Synthetic(status: string, transactionId: Option<string>)

  function ApiStatus(raw: string): ExternalStatus {
    var s := Money.Upper(raw);
    if s == "CAPTURED" then Success
    else if s == "AUTHORIZED" then ExternalStatus.Authorized
    else if s == "FAILED" then ExternalStatus.Failed
    else if s == "REFUNDED" then Refunded
    else ExternalStatus.Unknown
  }

  function RailStatus(raw: string): ExternalStatus {
    if raw == "SUCCESS" then Success
    else if raw == "FAILED" then ExternalStatus.Failed
    else if raw == "VOIDED" then Voided
    else if raw == "REFUNDED" then Refunded
    else if raw == "DUPLICATE" then Duplicate
    else ExternalStatus.Unknown
  }

  /** An absent or zero provider amount is replaced by the intent's own. */
  function Verify(amount: Decimal, currency: string, reading: Reading): NegotiatorResult {
    match reading
    case Found(info) =>
      NegotiatorResult(
        ApiStatus(info.status),
        info.id,
        if info.amount.Some? && info.amount.value != 0 then info.amount.value as real / 100.0 else amount,
        if info.currency.Some? then info.currency.value else currency)
    case ReadError => NegotiatorResult(ExternalStatus.Unknown, None, amount, currency)
    case Synthetic(status, id) => NegotiatorResult(RailStatus(status), id, amount, currency)
  }

  /** What a record counts as is decided by its status in capitals; any other word is UNKNOWN. */
  lemma RecordCountsAs(raw: string)
    ensures var status, word := ApiStatus(raw), Money.Upper(raw);
      && (status == Success <==> word == "CAPTURED")
      && (status == ExternalStatus.Authorized <==> word == "AUTHORIZED")
      && (status == ExternalStatus.Failed <==> word == "FAILED")
      && (status == Refunded <==> word == "REFUNDED")
      && (status == ExternalStatus.Unknown <==> word !in {"CAPTURED", "AUTHORIZED", "FAILED", "REFUNDED"})
  {
  }

  /** The words that the provider uses. */
  lemma ProvidersWords(raw: string)
    ensures raw == "captured" ==> ApiStatus(raw) == Success
    ensures raw == "authorized" ==> ApiStatus(raw) == ExternalStatus.Authorized
    ensures raw == "failed" ==> ApiStatus(raw) == ExternalStatus.Failed
    ensures raw == "refunded" ==> ApiStatus(raw) == Refunded
    ensures raw == "created" ==> ApiStatus(raw) == ExternalStatus.Unknown
  {
    if raw == "captured" {
      InCapitals(raw, "CAPTURED");
    } else if raw == "authorized" {
      InCapitals(raw, "AUTHORIZED");
    } else if raw == "failed" {
      InCapitals(raw, "FAILED");
    } else if raw == "refunded" {
      InCapitals(raw, "REFUNDED");
    } else if raw == "created" {
      InCapitals(raw, "CREATED");
    }
  }

  lemma InCapitals(raw: string, word: string)
    requires |raw| == |word| && forall k | 0 <= k < |raw| :: word[k] == Money.UpperChar(raw[k])
    ensures Money.Upper(raw) == word
  {
  }

  /** What a rail's answer counts as; it is taken literally. */
  lemma RailCountsAs(raw: string)
    ensures var status := RailStatus(raw);
      && (status == Success <==> raw == "SUCCESS")
      && (status == ExternalStatus.Failed <==> raw == "FAILED")
      && (status == Voided <==> raw == "VOIDED")
      && (status == Refunded <==> raw == "REFUNDED")
      && (status == Duplicate <==> raw == "DUPLICATE")
      && (status == ExternalStatus.Unknown <==> raw !in {"SUCCESS", "FAILED", "VOIDED", "REFUNDED", "DUPLICATE"})
  {
  }

  /** The evidence that a reading amounts to: the record's status and payment, its amount in hundredths unless
      it is absent or zero, and its currency; what it does not say is the intent's own. */
  lemma EvidenceOfReading(amount: Decimal, currency: string, reading: Reading)
    ensures var neg := Verify(amount, currency, reading);
      && (reading.Found? ==>
            && neg.transactionId == reading.info.id
            && (reading.info.amount in {None, Some(0)} ==> neg.amount == amount)
            && (reading.info.amount !in {None, Some(0)} ==> neg.amount * 100.0 == reading.info.amount.value as real)
            && (reading.info.currency.None? ==> neg.currency == currency)
            && (reading.info.currency.Some? ==> neg.currency == reading.info.currency.value))
      && (!reading.Found? ==> neg.amount == amount && neg.currency == currency)
      && (reading.ReadError? ==> neg.status == ExternalStatus.Unknown && neg.transactionId.None?)
      && (reading.Synthetic? ==> neg.transactionId == reading.transactionId)
  {
  }

  function StatusName(s: ExternalStatus): string {
    match s
    case Success => "SUCCESS"
    case Captured => "CAPTURED"
    case Authorized => "AUTHORIZED"
    case Failed => "FAILED"
    case Unknown => "UNKNOWN"
    case Voided => "VOIDED"
    case Refunded => "REFUNDED"
    case Duplicate => "DUPLICATE"
  }

  /** The names are the words that the rails use for the same statuses. */
  lemma NamesAreWords(s: ExternalStatus)
    ensures s !in {ExternalStatus.Captured, ExternalStatus.Authorized} ==> RailStatus(StatusName(s)) == s
    ensures StatusName(ExternalStatus.Captured) == "CAPTURED" && StatusName(ExternalStatus.Authorized) == "AUTHORIZED"
  {
  }

  /** The status that reconciliation is given: that of the record, if it has one, or else the name of the
      negotiator's own. */
  predicate IsReportedStatus(reading: Reading, status: string) {
    match reading
    case Found(info) => status == info.status || (info.status == "" && status == "UNKNOWN")
    case ReadError => status == StatusName(ExternalStatus.Unknown)
    case Synthetic(raw, _) => status == StatusName(RailStatus(raw))
  }

  /** UNKNOWN is reported only if the negotiator does not know either. */
  lemma UnknownIsUnknown(amount: Decimal, currency: string, reading: Reading)
    requires IsReportedStatus(reading, "UNKNOWN")
    ensures Verify(amount, currency, reading).status == ExternalStatus.Unknown
  {
    if reading.Found? {
      UnknownToTheApi(reading.info.status);
    } else if reading.Synthetic? {
      OnlyUnknownIsCalledSo(RailStatus(reading.status));
    }
  }

  lemma UnknownToTheApi(raw: string)
    requires raw == "UNKNOWN" || raw == ""
    ensures ApiStatus(raw) == ExternalStatus.Unknown
  {
    assert Money.Upper(raw) == raw by {
      if raw == "UNKNOWN" {
        assert Money.Upper("UNKNOWN") == "UNKNOWN";
      }
    }
  }

  lemma OnlyUnknownIsCalledSo(s: ExternalStatus)
    ensures StatusName(s) == "UNKNOWN" <==> s == ExternalStatus.Unknown
  {
  }
}
