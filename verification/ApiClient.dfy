/** The provider client: one request is repeated for transient answers, at most a configured number of
    times, with exponential backoff in between. */
module ApiClient {
  import opened Domain

  /** What the Retry-After header says; `Unreadable` is anything that is not a number of seconds. */
  datatype RetryAfter = Absent | Seconds(seconds: real) | Unreadable

  /** How one attempt ends.  `body` is None when it cannot be parsed. */
  datatype Reply =
    | Answer(status: int, body: Option<string>, retryAfter: RetryAfter)
    | Timeout
    | NetworkError

  /** `OtherError` stands for an exception that is not the client's own. */
  datatype Outcome = Returned(body: string) | ApiError(status: int) | OtherError

  predicate IsTransient(reply: Reply) {
    reply.Answer? ==> reply.status in {429, 502, 503, 504}
  }

  /** The attempt is followed by another one. */
  predicate IsRetried(reply: Reply, attempt: nat, maxRetries: nat) {
    attempt < maxRetries && IsTransient(reply) && !(reply.Answer? && reply.retryAfter.Unreadable?)
  }

  /** What the caller sees when the given attempt is the last. */
  function OutcomeOf(reply: Reply, attempt: nat, maxRetries: nat): Outcome {
    match reply
    case Timeout => ApiError(504)
    case NetworkError => ApiError(503)
    case Answer(status, body, retryAfter) =>
      if status < 400 then if body.Some? then Returned(body.value) else OtherError
      else if attempt < maxRetries && IsTransient(reply) then OtherError
      else ApiError(status)
  }

  /** A request ends with the attempt `k`: the first whose reply is not retried. */
  predicate EndsAt(replies: nat -> Reply, k: nat, maxRetries: nat) {
    && 1 <= k <= maxRetries
    && !IsRetried(replies(k), k, maxRetries)
    && forall j | 1 <= j < k :: IsRetried(replies(j), j, maxRetries)
  }

  /** The pause after an attempt.  Sleeping for a negative time returns at once. */
  function Pause(reply: Reply, attempt: nat, backoff: real): real
    requires attempt > 0
  {
    if reply.Answer? && reply.retryAfter.Seconds? then
      if reply.retryAfter.seconds > 0.0 then reply.retryAfter.seconds else 0.0
    else backoff * Pow2(attempt - 1)
  }

  /** The pauses between the first k attempts. */
  function Pauses(replies: nat -> Reply, k: nat, backoff: real): real {
    if k <= 1 then 0.0 else Pauses(replies, k - 1, backoff) + Pause(replies(k - 1), k - 1, backoff)
  }

  class Client {
    const keyId: string
    const keySecret: string
    const maxRetries: nat
    const backoff: real

    constructor (keyId: string, keySecret: string, maxRetries: int, backoff: real)
      ensures this.keyId == keyId && this.keySecret == keySecret && this.backoff == backoff
      ensures this.maxRetries >= 1 && this.maxRetries == if maxRetries >= 1 then maxRetries else 1
    {
      this.keyId, this.keySecret, this.backoff := keyId, keySecret, backoff;
      this.maxRetries := if maxRetries >= 1 then maxRetries else 1;
    }

    /** `replies(k)` is what attempt k meets.  The error after the loop is never raised. */
    method Request(replies: nat -> Reply) returns (outcome: Outcome, attempts: nat, slept: real)
      requires maxRetries >= 1
      ensures keyId == "" || keySecret == "" ==> outcome == ApiError(401) && attempts == 0 && slept == 0.0
      ensures keyId != "" && keySecret != "" ==>
        && EndsAt(replies, attempts, maxRetries)
        && outcome == OutcomeOf(replies(attempts), attempts, maxRetries)
        && slept == Pauses(replies, attempts, backoff)
    {
      if keyId == "" || keySecret == "" {
        return ApiError(401), 0, 0.0;
      }
      slept := 0.0;
      var attempt := 1;
      while attempt <= maxRetries
        invariant 1 <= attempt <= maxRetries
        invariant forall j | 1 <= j < attempt :: IsRetried(replies(j), j, maxRetries)
        invariant slept == Pauses(replies, attempt, backoff)
      {
        var wait: real;
        match replies(attempt) {
          case Answer(status, body, retryAfter) =>
            if status < 400 {
              return if body.Some? then Returned(body.value) else OtherError, attempt, slept;
            }
            if status !in {429, 502, 503, 504} || attempt >= maxRetries {
              return ApiError(status), attempt, slept;
            }
            match retryAfter {
              case Absent => wait := backoff * Pow2(attempt - 1);
              case Seconds(seconds) => wait := if seconds > 0.0 then seconds else 0.0;
              case Unreadable => return OtherError, attempt, slept;
            }
          case Timeout =>
            if attempt >= maxRetries {
              return ApiError(504), attempt, slept;
            }
            wait := backoff * Pow2(attempt - 1);
          case NetworkError =>
            if attempt >= maxRetries {
              return ApiError(503), attempt, slept;
            }
            wait := backoff * Pow2(attempt - 1);
        }
        slept := slept + wait;
        attempt := attempt + 1;
      }
      assert false;
    }
  }

  /** Whatever the replies, exactly one attempt is the last. */
  lemma {:induction false} EndsExactlyOnce(replies: nat -> Reply, maxRetries: nat)
    requires maxRetries >= 1
    ensures exists k :: EndsAt(replies, k, maxRetries) && forall j | EndsAt(replies, j, maxRetries) :: j == k
  {
    var k := LastAttempt(replies, 1, maxRetries);
    assert EndsAt(replies, k, maxRetries);
    forall j | EndsAt(replies, j, maxRetries) ensures j == k {
    }
  }

  function LastAttempt(replies: nat -> Reply, from: nat, maxRetries: nat): (k: nat)
    requires 1 <= from <= maxRetries
    requires forall j | 1 <= j < from :: IsRetried(replies(j), j, maxRetries)
    ensures EndsAt(replies, k, maxRetries)
    decreases maxRetries - from
  {
    if IsRetried(replies(from), from, maxRetries) then LastAttempt(replies, from + 1, maxRetries) else from
  }

  /** What the caller gets from the last attempt: the body of a good answer that can be read; the status of any
      other answer, with 504 for a timeout and 503 for a network error; and an error of another kind for a
      good answer that cannot be read, or for a pause that cannot be computed. */
  lemma OutcomeExactlyWhen(replies: nat -> Reply, k: nat, maxRetries: nat)
    requires EndsAt(replies, k, maxRetries)
    ensures var reply, outcome := replies(k), OutcomeOf(replies(k), k, maxRetries);
      var stuck := k < maxRetries && reply.Answer? && reply.status in {429, 502, 503, 504} && reply.retryAfter.Unreadable?;
      && (forall body :: outcome == Returned(body) <==> reply.Answer? && reply.status < 400 && reply.body == Some(body))
      && (forall status :: outcome == ApiError(status) <==>
            || (reply.Timeout? && status == 504)
            || (reply.NetworkError? && status == 503)
            || (reply.Answer? && status == reply.status >= 400 && !stuck))
      && (outcome == OtherError <==> stuck || (reply.Answer? && reply.status < 400 && reply.body.None?))
  {
  }

  /** The client pauses for as long as Retry-After asks, or not at all if that is no positive time; and without
      a readable one for backoff * 2^(k-1) after the attempt k. */
  lemma RetryAfterIsObeyed(replies: nat -> Reply, k: nat, backoff: real)
    requires k >= 1
    ensures var pause := Pauses(replies, k + 1, backoff) - Pauses(replies, k, backoff);
      if replies(k).Answer? && replies(k).retryAfter.Seconds?
      then pause >= 0.0 && (pause == replies(k).retryAfter.seconds || (pause == 0.0 && replies(k).retryAfter.seconds < 0.0))
      else pause == backoff * Pow2(k - 1)
  {
  }

  /** A good answer that only transient faults precede is what the caller gets. */
  lemma TransientFaultsAreMasked(replies: nat -> Reply, k: nat, maxRetries: nat, n: nat)
    requires 1 <= k <= maxRetries && EndsAt(replies, n, maxRetries)
    requires forall j | 1 <= j < k :: IsTransient(replies(j)) && !(replies(j).Answer? && replies(j).retryAfter.Unreadable?)
    requires replies(k).Answer? && replies(k).status < 400 && replies(k).body.Some?
    ensures n == k && OutcomeOf(replies(n), n, maxRetries) == Returned(replies(k).body.value)
  {
    assert n < k ==> IsTransient(replies(n));
    assert k < n ==> IsRetried(replies(k), k, maxRetries);
  }

  /** Without Retry-After the pauses before attempt k add up to backoff * (2^(k-1) - 1). */
  lemma {:induction false} PausesAreGeometric(replies: nat -> Reply, k: nat, backoff: real)
    requires k >= 1 && forall j | 1 <= j < k :: !(replies(j).Answer? && replies(j).retryAfter.Seconds?)
    ensures Pauses(replies, k, backoff) == backoff * (Pow2(k - 1) - 1.0)
  {
    if k > 1 {
      PausesAreGeometric(replies, k - 1, backoff);
    }
  }

  /** The caller sees the status 500 only when the provider answered with it. */
  lemma OwnErrorsAreNotInternal(replies: nat -> Reply, k: nat, maxRetries: nat)
    requires EndsAt(replies, k, maxRetries) && OutcomeOf(replies(k), k, maxRetries) == ApiError(500)
    ensures replies(k).Answer? && replies(k).status == 500
  {
  }

  /** An unreadable Retry-After, such as a date, escapes as an exception of another kind when attempts
      remain; on the last attempt the header is not looked at. */
  lemma UnreadableRetryAfter(replies: nat -> Reply, k: nat, maxRetries: nat)
    requires EndsAt(replies, k, maxRetries) && replies(k).Answer? && replies(k).status >= 400
    ensures OutcomeOf(replies(k), k, maxRetries) == OtherError
      <==> k < maxRetries && replies(k).status in {429, 502, 503, 504} && replies(k).retryAfter.Unreadable?
  {
  }
}
