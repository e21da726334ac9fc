/** The API status indicator: a health check whose failures are retried automatically with
    an exponential back-off, at most three times, and a manual retry that starts over. */
module ApiStatusIndicator {
  import opened Js
  import opened ExpenseService

  datatype Status = Checking | Online | Offline

  const MaxRetries: nat := 3
  const MaxDelay: nat := 10000

  function Pow2(n: nat): (r: nat)
    ensures r >= 1
  {
    if n == 0 then 1 else 2 * Pow2(n - 1)
  }

  /** `Math.min(1000 * Math.pow(2, count), 10000)` milliseconds. */
  function RetryDelay(count: nat): (r: nat)
    ensures r <= MaxDelay
    ensures r <= 1000 * Pow2(count)
    ensures r == MaxDelay || r == 1000 * Pow2(count)
  {
    if 1000 * Pow2(count) < MaxDelay then 1000 * Pow2(count) else MaxDelay
  }

  /** After a check: the new retry count and the delay of the next automatic check, if one
      is scheduled. A success resets the count; a failure counts and retries while the
      count stays below three. */
  function AfterCheck(count: nat, succeeded: bool): (r: (nat, Option<nat>))
    ensures succeeded ==> r == (0, None)
    ensures !succeeded ==> r.0 == count + 1
    ensures r.1.Some? <==> !succeeded && count + 1 < MaxRetries
    ensures r.1.Some? ==> r.1.value == RetryDelay(count + 1)
  {
    if succeeded then (0, None)
    else if count + 1 < MaxRetries then (count + 1, Some(RetryDelay(count + 1)))
    else (count + 1, None)
  }

  /** From a fresh count, failures are retried after 2 and then 4 seconds, and the third
      failure schedules nothing: the 10-second cap is never reached. */
  lemma RetrySchedule()
    ensures AfterCheck(0, false) == (1, Some(2000))
    ensures AfterCheck(1, false) == (2, Some(4000))
    ensures AfterCheck(2, false) == (3, None)
  {
    assert Pow2(1) == 2 && Pow2(2) == 4;
  }

  /** Every delay that is actually scheduled is below the cap. */
  lemma ScheduledDelaysUnderCap(count: nat, succeeded: bool)
    ensures AfterCheck(count, succeeded).1.Some? ==> AfterCheck(count, succeeded).1.value <= 4000
  {
    if !succeeded && count + 1 < MaxRetries {
      assert count + 1 == 1 || count + 1 == 2;
      assert Pow2(1) == 2 && Pow2(2) == 4;
    }
  }

  class Indicator {
    var status: Status
    var retryCount: nat
    var scheduled: Option<nat>

    constructor ()
      ensures status == Checking && retryCount == 0 && scheduled == None
    {
      status := Checking;
      retryCount := 0;
      scheduled := None;
    }

    /** `checkApiStatus()` with `health` and `fallback` the outcomes of the two requests the
        health check may make: any pending retry is cancelled, the status becomes online or
        offline, and the count and the next retry follow `AfterCheck`. */
    method Check(health: Settled, fallback: Settled) returns (requests: seq<Request>)
      modifies this
      ensures requests == HealthCheck(health, fallback).0
      ensures var ok := HealthCheck(health, fallback).1.Fulfilled?;
              status == (if ok then Online else Offline)
              && (retryCount, scheduled) == AfterCheck(old(retryCount), ok)
      ensures Visible() <==> !HealthCheck(health, fallback).1.Fulfilled?
    {
      status := Checking;
      scheduled := None;
      var result := HealthCheck(health, fallback);
      requests := result.0;
      if result.1.Fulfilled? {
        status := Online;
        retryCount := 0;
      } else {
        status := Offline;
        retryCount := retryCount + 1;
        if retryCount < MaxRetries {
          scheduled := Some(RetryDelay(retryCount));
        }
      }
    }

    /** `handleRetry()`: the count starts over before checking, so a failure is retried
        again after two seconds however many retries came before. */
    method Retry(health: Settled, fallback: Settled) returns (requests: seq<Request>)
      modifies this
      ensures requests == HealthCheck(health, fallback).0
      ensures var ok := HealthCheck(health, fallback).1.Fulfilled?;
              status == (if ok then Online else Offline) && (retryCount, scheduled) == AfterCheck(0, ok)
      ensures !HealthCheck(health, fallback).1.Fulfilled? ==> retryCount == 1 && scheduled == Some(2000)
    {
      retryCount := 0;
      requests := Check(health, fallback);
      RetrySchedule();
    }

    /** The indicator renders nothing while the API is online. */
    predicate Visible()
      reads this
    {
      status != Online
    }
  }

  /** A failed check schedules a retry exactly when fewer than two checks had failed
      before it. */
  lemma RetriesWhileBelowThree(count: nat)
    ensures var r := AfterCheck(count, false); r.1.Some? <==> count < 2
  {
  }
}
