/** The backoff policy shared by both copies of the retrying transport:
    the wait before retry number n (n retries already made) is 2^n seconds. */
module Schedule {

  /** `time.Second`, in nanoseconds (the unit of `time.Duration`). */
  const Second: nat := 1_000_000_000

  function Pow2(n: nat): (p: nat)
    ensures p >= 1
  {
    if n == 0 then 1 else 2 * Pow2(n - 1)
  }

  /** `backoff(retries)`: `math.Pow(2, retries)` whole seconds, as a duration in nanoseconds.
      For every count of retries the loop passes in, 2^retries is an integer, so the float
      power and its truncation to a Duration are exact. */
  function Backoff(retries: nat): (d: nat)
    ensures d >= Second && d % Second == 0
  {
    Pow2(retries) * Second
  }

  /** Each wait is twice the one before it, starting from one second. */
  lemma BackoffDoubles(retries: nat)
    ensures Backoff(0) == Second
    ensures Backoff(retries + 1) == 2 * Backoff(retries)
  {
  }

  /** The waits of a loop that has made `retries` retries, oldest first. */
  function WaitSchedule(retries: nat): seq<nat> {
    if retries == 0 then [] else WaitSchedule(retries - 1) + [Backoff(retries - 1)]
  }

  function Sum(s: seq<nat>): nat {
    if s == [] then 0 else Sum(s[..|s| - 1]) + s[|s| - 1]
  }

  /** The wait before retry k of r is exactly 2^k seconds. */
  lemma {:induction false} WaitScheduleAt(retries: nat, k: nat)
    requires k < retries
    ensures |WaitSchedule(retries)| == retries
    ensures WaitSchedule(retries)[k] == Pow2(k) * Second
  {
    WaitScheduleLength(retries - 1);
    if k < retries - 1 {
      WaitScheduleAt(retries - 1, k);
    }
  }

  lemma {:induction false} WaitScheduleLength(retries: nat)
    ensures |WaitSchedule(retries)| == retries
  {
    if retries > 0 {
      WaitScheduleLength(retries - 1);
    }
  }

  /** After r retries the loop has waited 2^r - 1 seconds in all. */
  lemma {:induction false} TotalWait(retries: nat)
    ensures Sum(WaitSchedule(retries)) == (Pow2(retries) - 1) * Second
  {
    if retries > 0 {
      var s := WaitSchedule(retries);
      WaitScheduleLength(retries - 1);
      assert s[..|s| - 1] == WaitSchedule(retries - 1);
      TotalWait(retries - 1);
    }
  }
}
