/** How a failed delivery is classified, and when it may be tried again. Times are milliseconds. */
module Retry {
  import opened Wrappers

  datatype ErrorCode =
    | InvalidPayload | ContentTooLong | ScopeMismatch | InvalidMemoryScope | RequestBodyTooLarge
    | ReceiptMismatch | ResponseTooLarge | InvalidResponseJson | RedirectBlocked
    | CorruptEnvelope | PendingPredecessor | LaneGap | IdempotentReplay | NetworkError | OtherCode(text: string)

  /** The Retry-After header: a number of seconds, a date, or nothing that gives a finite time. */
  datatype RetryAfter = NoTime | Seconds(value: real) | Date(at: real)

  datatype AnyFailure = Failure(code: ErrorCode, status: Option<int>, retryAfter: RetryAfter)

  /** What is raised: the transport lets only codes of a fixed form through. */
  type Failure = f: AnyFailure | Acceptable(f.code) witness Failure(NetworkError, None, NoTime)

  datatype State =
    | Pending | RetryWait | PausedAuth | Quarantined | BlockedProtocol | BlockedReconciliation | BlockedGap | Unknown

  /** The durable state beside an envelope; H is the type of envelope hashes. */
  datatype Sidecar<+H> = Sidecar(
    state: State, attempts: int, error: Option<ErrorCode>, status: Option<int>, firstFailedAt: Option<real>,
    nextRetryAt: Option<real>, credential: Option<string>, hash: Option<H>)

  /** What the next flush accepts as a state it may act on. */
  predicate Valid<H>(sidecar: Sidecar<H>) {
    sidecar.attempts >= 0 && sidecar.state != Unknown && (sidecar.error.Some? ==> Acceptable(sidecar.error.value))
  }

  predicate CodeChar(c: char) {
    'A' <= c <= 'Z' || '0' <= c <= '9' || c == '_'
  }

  /** The form of a recorded error code, or the empty text; the named codes have it. */
  predicate Acceptable(code: ErrorCode) {
    code.OtherCode? ==> |code.text| <= 64 && forall i :: 0 <= i < |code.text| ==> CodeChar(code.text[i])
  }

  /** The form of a code that the transport takes from an answer. */
  predicate FromServer(code: ErrorCode) {
    Acceptable(code) && (code.OtherCode? ==> code.text != "" && 'A' <= code.text[0] <= 'Z')
  }

  function Digit(n: nat): char
    requires n < 10
  {
    '0' + n as char
  }

  function HttpCode(status: nat): (code: ErrorCode)
    requires 100 <= status < 1000
    ensures FromServer(code)
  {
    var text := "HTTP_" + [Digit(status / 100), Digit(status / 10 % 10), Digit(status % 10)];
    assert forall n: nat :: n < 10 ==> CodeChar(Digit(n));
    OtherCode(text)
  }

  /**
    The failure that an answer other than 2xx raises. Whatever the server wrote as its code, what is
    recorded is a code that the next flush accepts.
   */
  function Raised(status: nat, code: Option<ErrorCode>, retryAfter: RetryAfter): (failure: Failure)
    requires 100 <= status < 1000
    ensures failure.status == Some(status)
    ensures FromServer(failure.code) && (code.Some? && FromServer(code.value) ==> failure.code == code.value)
  {
    Failure(if code.Some? && FromServer(code.value) then code.value
            else if 300 <= status < 400 then RedirectBlocked else HttpCode(status),
            Some(status), retryAfter)
  }

  const CAP := 300000
  const LATEST := 253402300799000.0

  function Pow2(n: nat): (p: nat)
    ensures p >= 1
  {
    if n == 0 then 1 else 2 * Pow2(n - 1)
  }

  function Min(a: int, b: int): int {
    if a < b then a else b
  }

  /** The longest wait after so many failures. */
  function Ceiling(count: nat): nat
    requires count >= 1
  {
    Min(CAP, 1000 * Pow2(Min(count - 1, 18)))
  }

  function Backoff(count: nat, rng: real): real
    requires count >= 1
  {
    Ceiling(count) as real * (0.5 + rng * 0.5)
  }

  function Until(retryAfter: RetryAfter, now: real): real {
    match retryAfter
    case NoTime => now
    case Seconds(value) => now + value * 1000.0
    case Date(at) => at
  }

  function Wait(failure: Failure, count: nat, now: real, rng: real): real
    requires count >= 1
  {
    var delay := Backoff(count, rng);
    var until := Until(failure.retryAfter, now);
    if failure.status == Some(429) && now < until < LATEST && delay < until - now then until - now else delay
  }

  function Classify(failure: Failure): State {
    if failure.status in {Some(401), Some(403)} then PausedAuth
    else if failure.status == Some(409) || failure.code == ReceiptMismatch then BlockedReconciliation
    else if failure.status == Some(413)
         || (failure.status in {Some(400), Some(422)}
             && failure.code in {InvalidPayload, ContentTooLong, ScopeMismatch, InvalidMemoryScope,
                                 RequestBodyTooLarge})
         then Quarantined
    else if failure.code in {ResponseTooLarge, InvalidResponseJson, RedirectBlocked}
         || (failure.status.Some? && failure.status.value != 0 && failure.status.value < 500
             && failure.status.value != 429)
         then BlockedProtocol
    else RetryWait
  }

  function RetryState<H>(failure: Failure, previous: Sidecar<H>, now: real, rng: real, credential: string): Sidecar<H>
    requires previous.attempts >= 0
  {
    var count := previous.attempts + 1;
    var state := Classify(failure);
    previous.(
      state := state, attempts := count, error := Some(failure.code), status := failure.status,
      firstFailedAt := if previous.firstFailedAt.Some? then previous.firstFailedAt else Some(now),
      nextRetryAt := if state == RetryWait then Some(now + Wait(failure, count, now, rng)) else None,
      credential := Some(credential))
  }

  // ---------------------------------------------------------------- properties

  lemma {:induction false} Pow2Monotone(m: nat, n: nat)
    requires m <= n
    ensures Pow2(m) <= Pow2(n)
    decreases n - m
  {
    if m < n {
      Pow2Monotone(m + 1, n);
    }
  }

  /** The ceiling never falls as failures accumulate, and is the cap exactly from the tenth failure on. */
  lemma CeilingGrows(count: nat, later: nat)
    requires 1 <= count <= later
    ensures 1000 <= Ceiling(count) <= Ceiling(later) <= CAP
    ensures Ceiling(count) == CAP <==> count >= 10
  {
    Pow2Monotone(Min(count - 1, 18), Min(later - 1, 18));
    assert Pow2(8) == 256 && Pow2(9) == 512;
    if count >= 10 {
      Pow2Monotone(9, Min(count - 1, 18));
    } else {
      Pow2Monotone(count - 1, 8);
    }
  }

  /** Within the jitter, a wait lies between half of its ceiling and its ceiling. */
  lemma BackoffWithin(count: nat, rng: real)
    requires count >= 1 && 0.0 <= rng <= 1.0
    ensures Ceiling(count) as real / 2.0 <= Backoff(count, rng) <= Ceiling(count) as real
    ensures 500.0 <= Backoff(count, rng) <= 300000.0
  {
    CeilingGrows(count, count);
    var c := Ceiling(count) as real;
    var j := 0.5 + rng * 0.5;
    assert 0.5 <= j <= 1.0;
    assert c * 0.5 <= c * j <= c;
  }

  /**
    The schedule: a next time is set exactly while waiting to retry. Except under 429 it is between half a
    second and five minutes ahead, within the growing envelope; under 429 a usable Retry-After is never
    undercut. The result counts the attempt, keeps the first failure, and is valid for the next flush.
   */
  lemma RetrySchedule<H>(failure: Failure, previous: Sidecar<H>, now: real, rng: real, credential: string)
    requires previous.attempts >= 0 && 0.0 <= rng <= 1.0
    ensures var next := RetryState(failure, previous, now, rng, credential);
      && Valid(next) && next.attempts == previous.attempts + 1 && next.hash == previous.hash
      && (next.nextRetryAt.Some? <==> next.state == RetryWait)
      && (previous.firstFailedAt.Some? ==> next.firstFailedAt == previous.firstFailedAt)
      && (next.nextRetryAt.Some? ==>
            && now + Ceiling(next.attempts) as real / 2.0 <= next.nextRetryAt.value
            && now + 500.0 <= next.nextRetryAt.value
            && (failure.status != Some(429) ==>
                  next.nextRetryAt.value <= now + Ceiling(next.attempts) as real <= now + 300000.0)
            && (failure.status == Some(429) && now < Until(failure.retryAfter, now) < LATEST ==>
                  Until(failure.retryAfter, now) <= next.nextRetryAt.value))
  {
    BackoffWithin(previous.attempts + 1, rng);
    CeilingGrows(previous.attempts + 1, previous.attempts + 1);
  }

  /**
    Only failures that may pass by themselves are scheduled: no answer at all, a server error or 429. A
    refusal that the envelope itself causes is never retried on a timer.
   */
  lemma OnlyTransientRetried(failure: Failure)
    ensures Classify(failure) == RetryWait <==>
      && (failure.status.None? || failure.status.value == 0 || failure.status.value == 429
          || failure.status.value >= 500)
      && failure.code !in {ReceiptMismatch, ResponseTooLarge, InvalidResponseJson, RedirectBlocked}
  {
    assert forall s: int :: failure.status == Some(s) ==> failure.status.value == s;
  }
}
