/**
 * The field service's client for the weather service: three GET endpoints
 * sharing one retry policy. A failed attempt is retried only for a server
 * error, a rate limit, a timeout or a refused connection, at most
 * `maxRetries` times, with a back-off capped at `retryTimeoutMs`; whatever
 * error is left after that makes the call complete empty.
 *
 * The network is an oracle: `outcome(k)` is what the k-th attempt (0-based)
 * of a request yields.
 */
module WeatherClient {
  import opened Wrappers

  /** What a failed attempt threw. */
  datatype Failure =
    | Status(code: int)     // WebClientResponseException carrying an HTTP status
    | TimedOut              // java.util.concurrent.TimeoutException
    | ConnectTimedOut       // io.netty.channel.ConnectTimeoutException
    | ConnectRefused        // java.net.ConnectException
    | OtherError            // anything else (decoding errors, I/O errors, ...)

  /** One attempt: a decoded body, an empty body, or a failure. */
  datatype Attempt<T> = Body(data: T) | NoBody | Failed(failure: Failure)

  datatype Policy = Policy(maxRetries: int, retryTimeoutMs: nat)

  /** The configured defaults: two retries, 50 seconds apart. */
  const DefaultPolicy := Policy(2, 50000)

  /** Status classes of section 15 of RFC 9110. */
  datatype StatusClass = Informational | Successful | Redirection | ClientError | ServerError | Unclassified

  function ClassOf(code: int): (c: StatusClass)
    ensures c == ServerError <==> 500 <= code <= 599
    ensures c == ClientError <==> 400 <= code <= 499
  {
    if 100 <= code <= 199 then Informational
    else if 200 <= code <= 299 then Successful
    else if 300 <= code <= 399 then Redirection
    else if 400 <= code <= 499 then ClientError
    else if 500 <= code <= 599 then ServerError
    else Unclassified
  }

  /** 429 Too Many Requests, section 4 of RFC 6585. */
  const TooManyRequests := 429

  /** The retry filter of the shared policy. */
  predicate Retryable(f: Failure) {
    match f
    case Status(code) => ClassOf(code) == ServerError || code == TooManyRequests
    case TimedOut => true
    case ConnectTimedOut => true
    case ConnectRefused => true
    case OtherError => false
  }

  /** Of the HTTP errors, exactly the server errors and the rate limit are retried. */
  lemma RetryableStatus(code: int)
    ensures Retryable(Status(code)) <==> (500 <= code <= 599 || code == 429)
    ensures 400 <= code <= 499 && code != 429 ==> !Retryable(Status(code))
  {
  }

  /** The outcome of a whole call: the value it completes with and how many attempts it made. */
  datatype Trace<T> = Trace(result: Option<T>, attempts: nat)

  function Budget(p: Policy): nat {
    if p.maxRetries < 0 then 0 else p.maxRetries
  }

  /**
   * The call from attempt `k` on: a body ends it with that value, an empty
   * body ends it empty, a failure is retried while the filter accepts it
   * and fewer than `maxRetries` retries were made, and otherwise it is
   * swallowed into an empty result.
   */
  function Run<T>(outcome: nat -> Attempt<T>, p: Policy, k: nat): (t: Trace<T>)
    requires k <= Budget(p)
    decreases Budget(p) - k
    ensures k < t.attempts <= Budget(p) + 1
    ensures forall j :: k <= j < t.attempts - 1 ==>
              outcome(j).Failed? && Retryable(outcome(j).failure)
    ensures t.result.Some? <==> outcome(t.attempts - 1).Body?
    ensures t.result.Some? ==> t.result.value == outcome(t.attempts - 1).data
    ensures outcome(t.attempts - 1).Failed? && Retryable(outcome(t.attempts - 1).failure) ==>
              t.attempts == Budget(p) + 1
  {
    match outcome(k)
    case Body(d) => Trace(Some(d), k + 1)
    case NoBody => Trace(None, k + 1)
    case Failed(f) =>
      if Retryable(f) && k < Budget(p) then Run(outcome, p, k + 1) else Trace(None, k + 1)
  }

  /** The three endpoints, with the query parameters each sends. */
  datatype Endpoint =
    | ForecastMetrics(lat: real, lon: real, days: int)
    | HistoricalMetrics(lat: real, lon: real, startDate: string, endDate: string)
    | ForecastWindow(lat: real, lon: real)

  function Path(e: Endpoint): string {
    match e
    case ForecastMetrics(_, _, _) => "/api/agro-data/forecast"
    case HistoricalMetrics(_, _, _, _) => "/api/agro-data/metrics"
    case ForecastWindow(_, _) => "/api/agro-data/forecast-window"
  }

  /**
   * A GET against any endpoint: the shared policy applied to the attempts,
   * the value it completes with, never an error.
   */
  function Get<T>(e: Endpoint, p: Policy, outcome: nat -> Attempt<T>): (r: Option<T>)
    ensures r.Some? ==> exists k :: 0 <= k <= Budget(p) && outcome(k) == Body(r.value)
    ensures outcome(0).Failed? && !Retryable(outcome(0).failure) ==> r.None?
    ensures outcome(0).Body? ==> r == Some(outcome(0).data)
  {
    var t := Run(outcome, p, 0);
    assert t.result.Some? ==> outcome(t.attempts - 1) == Body(t.result.value);
    t.result
  }

  /** Attempts are made in order; no attempt after the first success is ever made. */
  lemma {:induction false} StopsAtFirstBody<T>(outcome: nat -> Attempt<T>, p: Policy, k: nat, j: nat)
    requires k <= j <= Budget(p)
    requires outcome(j).Body?
    ensures Run(outcome, p, k).attempts <= j + 1
    decreases j - k
  {
    match outcome(k)
    case Body(_) =>
    case NoBody =>
    case Failed(f) =>
      if Retryable(f) && k < Budget(p) {
        assert k != j;
        StopsAtFirstBody(outcome, p, k + 1, j);
      }
  }

  /**
   * Once every attempt before `j` failed with an error the filter accepts,
   * the call completes with `d` after exactly `j + 1` attempts iff attempt
   * `j` returns `d`.
   */
  lemma {:induction false} SucceedsAtIff<T>(outcome: nat -> Attempt<T>, p: Policy, j: nat, d: T)
    requires j <= Budget(p)
    requires forall i :: 0 <= i < j ==> outcome(i).Failed? && Retryable(outcome(i).failure)
    ensures Run(outcome, p, 0) == Trace(Some(d), j + 1) <==> outcome(j) == Body(d)
    ensures Run(outcome, p, 0).attempts >= j + 1
  {
    RetriedThrough(outcome, 0, j);
    AdvancesThrough(outcome, p, 0, j);
  }

  /** Attempts `k` to `j - 1` all failed with an error the filter accepts. */
  predicate RetriedFrom<T>(outcome: nat -> Attempt<T>, k: nat, j: nat)
    decreases j - k
  {
    k < j ==> outcome(k).Failed? && Retryable(outcome(k).failure) && RetriedFrom(outcome, k + 1, j)
  }

  lemma {:induction false} RetriedThrough<T>(outcome: nat -> Attempt<T>, k: nat, j: nat)
    requires k <= j
    requires forall i :: k <= i < j ==> outcome(i).Failed? && Retryable(outcome(i).failure)
    ensures RetriedFrom(outcome, k, j)
    decreases j - k
  {
    if k < j {
      RetriedThrough(outcome, k + 1, j);
    }
  }

  lemma {:induction false} AdvancesThrough<T>(outcome: nat -> Attempt<T>, p: Policy, k: nat, j: nat)
    requires k <= j <= Budget(p)
    requires RetriedFrom(outcome, k, j)
    ensures Run(outcome, p, k) == Run(outcome, p, j)
    decreases j - k
  {
    if k < j {
      RunSkips(outcome, p, k);
      AdvancesThrough(outcome, p, k + 1, j);
    }
  }

  /** A retried failure hands the call over to the next attempt. */
  lemma RunSkips<T>(outcome: nat -> Attempt<T>, p: Policy, k: nat)
    requires k < Budget(p)
    requires outcome(k).Failed? && Retryable(outcome(k).failure)
    ensures Run(outcome, p, k) == Run(outcome, p, k + 1)
  {
  }

  /** With the default configuration a call makes at most three attempts. */
  lemma DefaultAttempts<T>(outcome: nat -> Attempt<T>)
    ensures 1 <= Run(outcome, DefaultPolicy, 0).attempts <= 3
  {
  }

  /** A call whose every attempt fails with a retryable error uses up the whole budget and completes empty. */
  lemma {:induction false} ExhaustedIsEmpty<T>(outcome: nat -> Attempt<T>, p: Policy)
    requires forall i :: 0 <= i <= Budget(p) ==> outcome(i).Failed? && Retryable(outcome(i).failure)
    ensures Run(outcome, p, 0) == Trace(None, Budget(p) + 1)
  {
    var t := Run(outcome, p, 0);
    assert outcome(t.attempts - 1).Failed?;
  }

  function Pow2(n: nat): (r: nat)
    ensures r >= 1
  {
    if n == 0 then 1 else 2 * Pow2(n - 1)
  }

  /**
   * The delay before retry number `n` (0-based): exponential from
   * `retryTimeoutMs`, capped at `retryTimeoutMs`.
   */
  function Backoff(p: Policy, n: nat): (ms: nat)
    ensures ms <= p.retryTimeoutMs
  {
    var grown := p.retryTimeoutMs * Pow2(n);
    if grown <= p.retryTimeoutMs then grown else p.retryTimeoutMs
  }

  /** Since the minimum and the cap coincide, every retry waits exactly `retryTimeoutMs`. */
  lemma {:induction false} BackoffIsConstant(p: Policy, n: nat)
    ensures Backoff(p, n) == p.retryTimeoutMs
  {
    var q := Pow2(n);
    assert p.retryTimeoutMs * q >= p.retryTimeoutMs * 1 by {
      MulMonotone(p.retryTimeoutMs, 1, q);
    }
  }

  lemma MulMonotone(a: nat, b: nat, c: nat)
    requires b <= c
    ensures a * b <= a * c
  {
  }
}
