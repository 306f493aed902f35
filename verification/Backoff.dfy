/**
 Retries with a capped exponential backoff: retryableasyncmethod (mognet/tools/retries.py) and the
 loop of the Redis backend (mognet/backend/redis_result_backend.py). Times are real numbers.
 */
module Backoff {

  type Value = string
  type Error = string

  /** One call of the wrapped function: it returns, fails with a retryable error, or raises another one. */
  datatype Attempt = Returns(value: Value) | Fails(error: Error) | Raises(error: Error)

  /** `GaveUp` is the error made up when nothing was tried, `Nothing` an implicit None. */
  datatype Ending = Returned(value: Value) | Raised(error: Error) | GaveUp | Nothing

  /** How many calls fail before the first that does not, of `attempts` at most. */
  function Failures(calls: nat -> Attempt, attempts: int): nat {
    FailuresFrom(calls, attempts, 0)
  }

  function FailuresFrom(calls: nat -> Attempt, attempts: int, from: nat): nat
    decreases attempts - from
  {
    if from >= attempts || !calls(from).Fails? then 0 else 1 + FailuresFrom(calls, attempts, from + 1)
  }

  /** The ending after all retries: the first call that does not fail decides, or else the last error. */
  function Outcome(calls: nat -> Attempt, attempts: int, untried: Ending): Ending {
    var n := Failures(calls, attempts);
    if n < attempts then
      match calls(n)
      case Returns(value) => Returned(value)
      case Raises(error) => Raised(error)
      case Fails(error) => Raised(error)
    else if n == 0 then untried
    else
      match calls(n - 1)
      case Fails(error) => Raised(error)
      case _ => untried
  }

  function Pow2(i: nat): real {
    if i == 0 then 1.0 else 2.0 * Pow2(i - 1)
  }

  function Min(a: real, b: real): real {
    if b < a then b else a
  }

  /** time * 2^i */
  function Doubled(time: real, i: nat): real {
    if i == 0 then time else 2.0 * Doubled(time, i - 1)
  }

  /** The wait after failure i + 1, in closed form. */
  function Wait(timeout: real, i: nat): real {
    if timeout < 0.0 then Doubled(timeout, i) else Min(Pow2(i), timeout)
  }

  /** The same for the Redis loop, which starts at 1 whatever the cap is. */
  function RedisWait(timeout: real, i: nat): real {
    if i == 0 then 1.0
    else if timeout < 0.0 then Doubled(timeout, i - 1)
    else Min(Pow2(i), timeout)
  }

  function Schedule(timeout: real, n: nat): seq<real> {
    seq(n, i requires 0 <= i < n => Wait(timeout, i))
  }

  function RedisSchedule(timeout: real, n: nat): seq<real> {
    seq(n, i requires 0 <= i < n => RedisWait(timeout, i))
  }

  function Total(waits: seq<real>): real {
    if waits == [] then 0.0 else Total(waits[..|waits| - 1]) + waits[|waits| - 1]
  }

  lemma {:induction false} FailuresUpTo(calls: nat -> Attempt, attempts: int, n: nat)
    requires n <= attempts && forall i | 0 <= i < n :: calls(i).Fails?
    requires n < attempts ==> !calls(n).Fails?
    ensures Failures(calls, attempts) == n
  {
    FailuresRest(calls, attempts, n, 0);
  }

  lemma {:induction false} FailuresRest(calls: nat -> Attempt, attempts: int, n: nat, from: nat)
    requires from <= n <= attempts && forall i | from <= i < n :: calls(i).Fails?
    requires n < attempts ==> !calls(n).Fails?
    ensures FailuresFrom(calls, attempts, from) == n - from
    decreases n - from
  {
    if from < n {
      FailuresRest(calls, attempts, n, from + 1);
    }
  }

  lemma {:induction false} Pow2AtLeastOne(i: nat)
    ensures Pow2(i) >= 1.0
  {
    if i > 0 {
      Pow2AtLeastOne(i - 1);
    }
  }

  lemma NextWait(timeout: real, i: nat)
    ensures Wait(timeout, i + 1) == Min(Wait(timeout, i) * 2.0, timeout)
    ensures RedisWait(timeout, i + 1) == Min(RedisWait(timeout, i) * 2.0, timeout)
  {
    Pow2AtLeastOne(i);
    if timeout < 0.0 {
      Sinks(timeout, i);
      if i > 0 {
        Sinks(timeout, i - 1);
      }
    }
  }

  lemma {:induction false} Sinks(timeout: real, i: nat)
    requires timeout < 0.0
    ensures Doubled(timeout, i) <= timeout && (i > 0 ==> Doubled(timeout, i) < timeout)
  {
    if i > 0 {
      Sinks(timeout, i - 1);
    }
  }

  /**
   retryableasyncmethod: `calls(i)` is what call i + 1 of the function does. It is called until it does
   not fail, `attempts` times at most; each failure, the last one included, is followed by one wait.
   */
  method Retry(calls: nat -> Attempt, attempts: int, timeout: real)
    returns (ending: Ending, called: nat, waits: seq<real>)
    ensures ending == Outcome(calls, attempts, GaveUp)
    ensures forall i | 0 <= i < called - 1 :: calls(i).Fails?
    ensures called > 0 ==>
              match calls(called - 1)
              case Returns(value) => ending == Returned(value)
              case Raises(error) => ending == Raised(error)
              case Fails(error) => ending == Raised(error) && called == attempts
    ensures called == 0 <==> attempts <= 0
    ensures called == 0 ==> ending == GaveUp
    ensures |waits| == if called > 0 && !calls(called - 1).Fails? then called - 1 else called
    ensures |waits| > 0 ==> waits[0] == if timeout < 1.0 then timeout else 1.0
    ensures forall i | 0 <= i < |waits| - 1 ::
              waits[i + 1] == if 2.0 * waits[i] <= timeout then 2.0 * waits[i] else timeout
    ensures waits == Schedule(timeout, Failures(calls, attempts))
    ensures called == Failures(calls, attempts) + if Failures(calls, attempts) < attempts then 1 else 0
    ensures attempts >= 0 ==> called <= attempts
  {
    var lastExc := GaveUp;
    var currentWait := Min(1.0, timeout);
    waits, called := [], 0;
    var attempt := 1;
    while attempt < attempts + 1
      invariant attempt >= 1 && called == |waits| == attempt - 1 && (attempts >= 0 ==> attempt <= attempts + 1)
      invariant attempts < 1 ==> attempt == 1
      invariant forall i | 0 <= i < attempt - 1 :: calls(i).Fails?
      invariant lastExc == if attempt == 1 then GaveUp else Raised(calls(attempt - 2).error)
      invariant currentWait == Wait(timeout, attempt - 1) && waits == Schedule(timeout, attempt - 1)
      invariant forall i | 0 <= i < |waits| - 1 ::
                  waits[i + 1] == if 2.0 * waits[i] <= timeout then 2.0 * waits[i] else timeout
      invariant |waits| > 0 ==>
                  var last := waits[|waits| - 1];
                  currentWait == if 2.0 * last <= timeout then 2.0 * last else timeout
      decreases attempts - attempt
    {
      called := called + 1;
      match calls(attempt - 1)
      case Returns(value) =>
        FailuresUpTo(calls, attempts, attempt - 1);
        return Returned(value), called, waits;
      case Raises(error) =>
        FailuresUpTo(calls, attempts, attempt - 1);
        return Raised(error), called, waits;
      case Fails(error) =>
        lastExc := Raised(error);
        NextWait(timeout, attempt - 1);
        waits := waits + [currentWait];
        currentWait := Min(currentWait * 2.0, timeout);
        attempt := attempt + 1;
    }
    if attempts >= 0 {
      FailuresUpTo(calls, attempts, attempts);
    }
    ending := lastExc;
  }

  /** _retry of the Redis backend: the same loop from a first wait of 1, and None when nothing was tried. */
  method RetryRedis(calls: nat -> Attempt, attempts: int, timeout: real)
    returns (ending: Ending, called: nat, waits: seq<real>)
    ensures ending == Outcome(calls, attempts, Nothing)
    ensures forall i | 0 <= i < called - 1 :: calls(i).Fails?
    ensures called > 0 ==>
              match calls(called - 1)
              case Returns(value) => ending == Returned(value)
              case Raises(error) => ending == Raised(error)
              case Fails(error) => ending == Raised(error) && called == attempts
    ensures called == 0 <==> attempts <= 0
    ensures called == 0 ==> ending == Nothing
    ensures |waits| == if called > 0 && !calls(called - 1).Fails? then called - 1 else called
    ensures |waits| > 0 ==> waits[0] == 1.0
    ensures forall i | 0 <= i < |waits| - 1 ::
              waits[i + 1] == if 2.0 * waits[i] <= timeout then 2.0 * waits[i] else timeout
    ensures waits == RedisSchedule(timeout, Failures(calls, attempts))
    ensures called == Failures(calls, attempts) + if Failures(calls, attempts) < attempts then 1 else 0
    ensures attempts >= 0 ==> called <= attempts
  {
    var lastErr := Nothing;
    var sleep := 1.0;
    waits, called := [], 0;
    var attempt := 0;
    while attempt < attempts
      invariant attempt >= 0 && called == |waits| == attempt && (attempts >= 0 ==> attempt <= attempts)
      invariant attempts < 0 ==> attempt == 0
      invariant forall i | 0 <= i < attempt :: calls(i).Fails?
      invariant lastErr == if attempt == 0 then Nothing else Raised(calls(attempt - 1).error)
      invariant sleep == RedisWait(timeout, attempt) && waits == RedisSchedule(timeout, attempt)
      invariant forall i | 0 <= i < |waits| - 1 ::
                  waits[i + 1] == if 2.0 * waits[i] <= timeout then 2.0 * waits[i] else timeout
      invariant |waits| > 0 ==>
                  var last := waits[|waits| - 1];
                  sleep == if 2.0 * last <= timeout then 2.0 * last else timeout
    {
      called := called + 1;
      match calls(attempt)
      case Returns(value) =>
        FailuresUpTo(calls, attempts, attempt);
        return Returned(value), called, waits;
      case Raises(error) =>
        FailuresUpTo(calls, attempts, attempt);
        return Raised(error), called, waits;
      case Fails(error) =>
        lastErr := Raised(error);
        NextWait(timeout, attempt);
        waits := waits + [sleep];
        sleep := Min(sleep * 2.0, timeout);
        attempt := attempt + 1;
    }
    if attempts >= 0 {
      FailuresUpTo(calls, attempts, attempts);
    }
    ending := lastErr;
  }

  /** The i-th wait (from 0) is the smaller of 2^i and the timeout exactly unless the timeout is negative and i > 0. */
  lemma CappedIff(timeout: real, i: nat)
    ensures Wait(timeout, i) == Min(Pow2(i), timeout) <==> timeout >= 0.0 || i == 0
  {
    Pow2AtLeastOne(i);
    if timeout < 0.0 {
      Sinks(timeout, i);
    }
  }

  function Times(k: nat, timeout: real): real {
    if k == 0 then 0.0 else Times(k - 1, timeout) + timeout
  }

  lemma {:induction false} TimesIsProduct(k: nat, timeout: real)
    ensures Times(k, timeout) == k as real * timeout
  {
    if k > 0 {
      TimesIsProduct(k - 1, timeout);
    }
  }

  lemma {:induction false} CappedTotal(timeout: real, n: nat, c: nat)
    requires timeout >= 0.0 && c <= n
    requires forall i | 0 <= i < c :: Pow2(i) <= timeout
    requires c < n ==> Pow2(c) > timeout
    ensures Total(Schedule(timeout, n)) == Pow2(c) - 1.0 + Times(n - c, timeout)
  {
    if n > 0 {
      assert Schedule(timeout, n)[..n - 1] == Schedule(timeout, n - 1);
      if c < n {
        CappedTotal(timeout, n - 1, c);
        Grows(c, n - 1);
      } else {
        CappedTotal(timeout, n - 1, n - 1);
      }
    }
  }

  /** With `c` of the `n` waits not capped, the total is (2^c - 1) + (n - c) * timeout. */
  lemma TotalWait(timeout: real, n: nat, c: nat)
    requires timeout >= 0.0 && c <= n
    requires forall i | 0 <= i < c :: Pow2(i) <= timeout
    requires c < n ==> Pow2(c) > timeout
    ensures Total(Schedule(timeout, n)) == (Pow2(c) - 1.0) + (n - c) as real * timeout
  {
    CappedTotal(timeout, n, c);
    TimesIsProduct(n - c, timeout);
  }

  lemma {:induction false} Grows(i: nat, j: nat)
    requires i <= j
    ensures Pow2(i) <= Pow2(j)
  {
    if i < j {
      Grows(i, j - 1);
      Pow2AtLeastOne(j - 1);
    }
  }

  /** The two loops wait alike exactly when the cap is at least 1, or nothing fails. */
  lemma SchedulesAgree(timeout: real, n: nat)
    ensures RedisSchedule(timeout, n) == Schedule(timeout, n) <==> n == 0 || timeout >= 1.0
  {
    if n > 0 {
      assert RedisSchedule(timeout, n)[0] == 1.0 && Schedule(timeout, n)[0] == Wait(timeout, 0);
    }
    if timeout >= 1.0 {
      assert forall i: nat :: RedisWait(timeout, i) == Wait(timeout, i);
    }
  }
}
