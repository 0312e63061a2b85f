/**
 * retryHTTP in internal/bot/bot.go: up to three calls of a request, a short
 * growing pause after a transport error, a fixed longer pause after HTTP 429.
 * The request is an input `fn`: fn(i) is what the i-th call returns.
 */
module Retry {
  import opened Wrappers

  const MaxAttempts: nat := 3
  const RateLimitStatus: int := 429
  const RateLimitPauseMs: nat := 2000

  /** What one call of the request returns: an error, or a response with its status code. */
  datatype Response = Failed(reason: string) | Status(code: int)

  /** The error retryHTTP reports: the request's own, or the rate-limit error it makes up. */
  datatype HttpError = Transport(reason: string) | RateLimited

  /** A call ends the loop when it returns no error and a status other than 429 (any other status counts). */
  predicate Succeeds(r: Response) {
    r.Status? && r.code != RateLimitStatus
  }

  /** The pause after a failed attempt `i` (counting from 0): (i+1)*500 ms after an error, 2 s after a 429. */
  function PauseAfter(r: Response, i: nat): nat
    requires !Succeeds(r)
  {
    if r.Failed? then (i + 1) * 500 else RateLimitPauseMs
  }

  function ErrorOf(r: Response): HttpError
    requires !Succeeds(r)
  {
    if r.Failed? then Transport(r.reason) else RateLimited
  }

  /** The pauses taken after the first `n` attempts, all of them failed. */
  function Pauses(fn: nat -> Response, n: nat): (p: seq<nat>)
    requires forall i :: 0 <= i < n ==> !Succeeds(fn(i))
    ensures |p| == n
    ensures forall i :: 0 <= i < n ==> p[i] == PauseAfter(fn(i), i)
  {
    if n == 0 then [] else Pauses(fn, n - 1) + [PauseAfter(fn(n - 1), n - 1)]
  }

  function Sum(s: seq<nat>): nat {
    if |s| == 0 then 0 else s[0] + Sum(s[1..])
  }

  method RetryHTTP(fn: nat -> Response) returns (err: Option<HttpError>, attempts: nat, sleeps: seq<nat>)
    ensures 1 <= attempts <= MaxAttempts
    ensures forall i :: 0 <= i < attempts - 1 ==> !Succeeds(fn(i))
    ensures err.None? <==> Succeeds(fn(attempts - 1))
    ensures err.None? <==> exists i :: 0 <= i < MaxAttempts && Succeeds(fn(i))
    ensures err.Some? ==> attempts == MaxAttempts && err.value == ErrorOf(fn(attempts - 1))
    ensures sleeps == Pauses(fn, if err.None? then attempts - 1 else attempts)
  {
    var lastErr: Option<HttpError> := None;
    sleeps := [];
    var i := 0;
    while i < MaxAttempts
      invariant 0 <= i <= MaxAttempts
      invariant forall k :: 0 <= k < i ==> !Succeeds(fn(k))
      invariant i > 0 ==> lastErr == Some(ErrorOf(fn(i - 1)))
      invariant sleeps == Pauses(fn, i)
    {
      var resp := fn(i);
      if resp.Failed? {
        lastErr := Some(Transport(resp.reason));
        sleeps := sleeps + [(i + 1) * 500];
        i := i + 1;
        continue;
      }
      if resp.code == RateLimitStatus {
        sleeps := sleeps + [RateLimitPauseMs];
        lastErr := Some(RateLimited);
        i := i + 1;
        continue;
      }
      return None, i + 1, sleeps;
    }
    return lastErr, MaxAttempts, sleeps;
  }

  /** However the attempts go, retryHTTP sleeps at most 3 * 2 s in all. */
  lemma {:induction false} PausesBounded(fn: nat -> Response, n: nat)
    requires n <= MaxAttempts
    requires forall i :: 0 <= i < n ==> !Succeeds(fn(i))
    ensures Sum(Pauses(fn, n)) <= n * RateLimitPauseMs
    decreases n
  {
    if n > 0 {
      PausesBounded(fn, n - 1);
      SumAppend(Pauses(fn, n - 1), PauseAfter(fn(n - 1), n - 1));
    }
  }

  lemma {:induction false} SumAppend(s: seq<nat>, x: nat)
    ensures Sum(s + [x]) == Sum(s) + x
    decreases |s|
  {
    if |s| > 0 {
      assert (s + [x])[1..] == s[1..] + [x];
      SumAppend(s[1..], x);
    }
  }
}
