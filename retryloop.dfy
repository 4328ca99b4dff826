/** The retry loop both copies of `RoundTrip` run,
      for shouldRetry(err, resp) && retries < RetryCount { ...; retries++ }
    seen only through its decisions: `retryable(k)` says whether shouldRetry holds of the
    outcome of attempt k (attempt 0 is the first send), and `limit` is RetryCount. */
module RetryLoop {
  import opened Schedule
  import opened Http

  function Max0(n: int): nat { if n < 0 then 0 else n }

  function Min(a: int, b: int): int { if a <= b then a else b }

  /** The value of `retries` when the loop ends, having reached `k` so far. */
  function RetriesFrom(retryable: nat -> bool, limit: int, k: nat): nat
    decreases limit - k
  {
    if retryable(k) && k < limit then RetriesFrom(retryable, limit, k + 1) else k
  }

  /** The number of retries the loop makes; the transport is called one time more. */
  function Retries(retryable: nat -> bool, limit: int): nat {
    RetriesFrom(retryable, limit, 0)
  }

  lemma {:induction false} RetriesFromSpec(retryable: nat -> bool, limit: int, k: nat)
    ensures k <= RetriesFrom(retryable, limit, k) <= if k <= limit then limit else k
    ensures forall j :: k <= j < RetriesFrom(retryable, limit, k) ==> retryable(j)
    ensures RetriesFrom(retryable, limit, k) < limit ==> !retryable(RetriesFrom(retryable, limit, k))
    decreases limit - k
  {
    if retryable(k) && k < limit {
      RetriesFromSpec(retryable, limit, k + 1);
    }
  }

  /** The loop retries at most RetryCount times (never, when RetryCount <= 0); every attempt
      but the last was retryable; and it ends on a non-retryable attempt unless it has used
      up all RetryCount retries. */
  lemma RetriesSpec(retryable: nat -> bool, limit: int)
    ensures Retries(retryable, limit) <= Max0(limit)
    ensures forall j :: 0 <= j < Retries(retryable, limit) ==> retryable(j)
    ensures Retries(retryable, limit) < limit ==> !retryable(Retries(retryable, limit))
  {
    RetriesFromSpec(retryable, limit, 0);
  }

  /** Where the loop stops: at the first k from which it would not go on. */
  lemma RetriesAtExit(retryable: nat -> bool, limit: int, k: nat)
    requires Retries(retryable, limit) == RetriesFrom(retryable, limit, k)
    requires !(retryable(k) && k < limit)
    ensures Retries(retryable, limit) == k
  {
  }

  /** The three properties of RetriesSpec determine the number of retries: it is the index of
      the first non-retryable attempt, cut off at RetryCount. */
  lemma RetriesUnique(retryable: nat -> bool, limit: int, n: nat)
    requires n <= Max0(limit)
    requires forall j :: 0 <= j < n ==> retryable(j)
    requires n < limit ==> !retryable(n)
    ensures Retries(retryable, limit) == n
  {
    RetriesSpec(retryable, limit);
  }

  /** The events of retry k: a sleep of `backoff(k)`, the drain of the response being
      retried (if there is one), and the next send. */
  function Step(answer: nat -> Reply, n0: nat, body: Option<seq<byte>>, k: nat): seq<Event> {
    [Slept(Backoff(k))] + DrainOf(Answered(answer, n0 + k)) + [Send(body, Answered(answer, n0 + k + 1))]
  }

  /** The events of a `RoundTrip` call that makes `retries` retries, when the network has
      already been called n0 times and the request body yields `body`: the first send, then
      the steps of the retries. */
  function Trace(answer: nat -> Reply, n0: nat, body: Option<seq<byte>>, retries: nat): seq<Event> {
    if retries == 0 then [Send(body, Answered(answer, n0))]
    else Trace(answer, n0, body, retries - 1) + Step(answer, n0, body, retries - 1)
  }

  /** The `Send` events of a log, in order. */
  function Sends(t: seq<Event>): seq<Event> {
    if t == [] then [] else Sends(t[..|t| - 1]) + (if t[|t| - 1].Send? then [t[|t| - 1]] else [])
  }

  /** The durations slept, in order. */
  function Waits(t: seq<Event>): seq<nat> {
    if t == [] then [] else Waits(t[..|t| - 1]) + (if t[|t| - 1].Slept? then [t[|t| - 1].d] else [])
  }

  /** The responses drained, in order. */
  function Drains(t: seq<Event>): seq<nat> {
    if t == [] then [] else Drains(t[..|t| - 1]) + (if t[|t| - 1].Drained? then [t[|t| - 1].id] else [])
  }

  lemma {:induction false} ProjectAppend(a: seq<Event>, b: seq<Event>)
    ensures Sends(a + b) == Sends(a) + Sends(b)
    ensures Waits(a + b) == Waits(a) + Waits(b)
    ensures Drains(a + b) == Drains(a) + Drains(b)
  {
    if b != [] {
      var b' := b[..|b| - 1];
      assert (a + b)[..|a + b| - 1] == a + b';
      ProjectAppend(a, b');
    } else {
      assert a + b == a;
    }
  }

  lemma ProjectOne(e: Event)
    ensures Sends([e]) == if e.Send? then [e] else []
    ensures Waits([e]) == if e.Slept? then [e.d] else []
    ensures Drains([e]) == if e.Drained? then [e.id] else []
  {
    assert [e][..0] == [] && [e][|[e]| - 1] == e;
    assert Sends([e]) == Sends([]) + (if e.Send? then [e] else []);
    assert Waits([e]) == Waits([]) + (if e.Slept? then [e.d] else []);
    assert Drains([e]) == Drains([]) + (if e.Drained? then [e.id] else []);
  }

  /** The response ids `drainBody` drains for an outcome. */
  function DrainedIds(o: Outcome): seq<nat> {
    if o.Resp? then [o.id] else []
  }

  /** Retry k sends once, with the body and the answer of the next call; sleeps
      `backoff(k)`; and drains the response of send k, if there is one. */
  lemma StepProjections(answer: nat -> Reply, n0: nat, body: Option<seq<byte>>, k: nat)
    ensures Sends(Step(answer, n0, body, k)) == [Send(body, Answered(answer, n0 + k + 1))]
    ensures Waits(Step(answer, n0, body, k)) == [Backoff(k)]
    ensures Drains(Step(answer, n0, body, k)) == DrainedIds(Answered(answer, n0 + k))
  {
    var d := DrainOf(Answered(answer, n0 + k));
    ProjectAppend([Slept(Backoff(k))], d);
    ProjectAppend([Slept(Backoff(k))] + d, [Send(body, Answered(answer, n0 + k + 1))]);
    ProjectOne(Slept(Backoff(k)));
    ProjectOne(Send(body, Answered(answer, n0 + k + 1)));
    if d != [] {
      ProjectOne(d[0]);
    } else {
      assert Sends(d) == [] && Waits(d) == [] && Drains(d) == [];
    }
  }

  /** What retry k adds to the sends of the log. */
  lemma SendsGrow(answer: nat -> Reply, n0: nat, body: Option<seq<byte>>, k: nat)
    ensures Sends(Trace(answer, n0, body, k + 1))
      == Sends(Trace(answer, n0, body, k)) + [Send(body, Answered(answer, n0 + k + 1))]
  {
    var t', step := Trace(answer, n0, body, k), Step(answer, n0, body, k);
    assert Trace(answer, n0, body, k + 1) == t' + step;
    StepProjections(answer, n0, body, k);
    ProjectAppend(t', step);
  }

  /** What retry k adds to the waits of the log. */
  lemma WaitsGrow(answer: nat -> Reply, n0: nat, body: Option<seq<byte>>, k: nat)
    ensures Waits(Trace(answer, n0, body, k + 1)) == Waits(Trace(answer, n0, body, k)) + [Backoff(k)]
  {
    var t', step := Trace(answer, n0, body, k), Step(answer, n0, body, k);
    assert Trace(answer, n0, body, k + 1) == t' + step;
    StepProjections(answer, n0, body, k);
    ProjectAppend(t', step);
  }

  /** What retry k adds to the drains of the log. */
  lemma DrainsGrow(answer: nat -> Reply, n0: nat, body: Option<seq<byte>>, k: nat)
    ensures Drains(Trace(answer, n0, body, k + 1))
      == Drains(Trace(answer, n0, body, k)) + DrainedIds(Answered(answer, n0 + k))
  {
    var t', step := Trace(answer, n0, body, k), Step(answer, n0, body, k);
    assert Trace(answer, n0, body, k + 1) == t' + step;
    StepProjections(answer, n0, body, k);
    ProjectAppend(t', step);
  }

  /** The log ends with the last send. */
  lemma TraceLast(answer: nat -> Reply, n0: nat, body: Option<seq<byte>>, retries: nat)
    ensures Trace(answer, n0, body, retries)[|Trace(answer, n0, body, retries)| - 1]
      == Send(body, Answered(answer, n0 + retries))
  {
    if retries > 0 {
      var t', step := Trace(answer, n0, body, retries - 1), Step(answer, n0, body, retries - 1);
      assert Trace(answer, n0, body, retries) == t' + step;
      assert step[|step| - 1] == Send(body, Answered(answer, n0 + retries));
    }
  }

  lemma TraceFirst(answer: nat -> Reply, n0: nat, body: Option<seq<byte>>)
    ensures Sends(Trace(answer, n0, body, 0)) == Trace(answer, n0, body, 0) == [Send(body, Answered(answer, n0))]
    ensures Waits(Trace(answer, n0, body, 0)) == [] && Drains(Trace(answer, n0, body, 0)) == []
  {
    ProjectOne(Send(body, Answered(answer, n0)));
  }

  /** A call that makes r retries sends r + 1 times, each time the same body; send i returns
      what network call n0 + i answered. */
  lemma {:induction false} TraceSends(answer: nat -> Reply, n0: nat, body: Option<seq<byte>>, retries: nat)
    ensures |Sends(Trace(answer, n0, body, retries))| == retries + 1
    ensures forall i :: 0 <= i <= retries ==>
      Sends(Trace(answer, n0, body, retries))[i] == Send(body, Answered(answer, n0 + i))
    decreases retries
  {
    if retries == 0 {
      TraceFirst(answer, n0, body);
    } else {
      var k := retries - 1;
      TraceSends(answer, n0, body, k);
      SendsGrow(answer, n0, body, k);
      var before, t := Sends(Trace(answer, n0, body, k)), Sends(Trace(answer, n0, body, k + 1));
      assert t == before + [Send(body, Answered(answer, n0 + k + 1))];
      forall i | 0 <= i <= retries ensures t[i] == Send(body, Answered(answer, n0 + i)) {
        if i <= k {
          assert t[i] == before[i];
        }
      }
    }
  }

  /** A call that makes r retries sleeps 2^0, ..., 2^(r-1) seconds, in that order. */
  lemma {:induction false} TraceWaits(answer: nat -> Reply, n0: nat, body: Option<seq<byte>>, retries: nat)
    ensures Waits(Trace(answer, n0, body, retries)) == WaitSchedule(retries)
    decreases retries
  {
    if retries == 0 {
      TraceFirst(answer, n0, body);
    } else {
      var k := retries - 1;
      TraceWaits(answer, n0, body, k);
      WaitsGrow(answer, n0, body, k);
      assert WaitSchedule(k + 1) == WaitSchedule(k) + [Backoff(k)];
    }
  }

  /** A call that makes r retries drains exactly the responses of its first r sends, and so
      never the response it returns. */
  lemma {:induction false} TraceDrains(answer: nat -> Reply, n0: nat, body: Option<seq<byte>>, retries: nat, m: nat)
    ensures m in Drains(Trace(answer, n0, body, retries)) <==> n0 <= m < n0 + retries && Answered(answer, m).Resp?
    decreases retries
  {
    if retries == 0 {
      TraceFirst(answer, n0, body);
    } else {
      var k := retries - 1;
      TraceDrains(answer, n0, body, k, m);
      DrainsGrow(answer, n0, body, k);
      var before, added := Drains(Trace(answer, n0, body, k)), DrainedIds(Answered(answer, n0 + k));
      assert Drains(Trace(answer, n0, body, k + 1)) == before + added;
      assert m in before + added <==> m in before || m in added;
    }
  }

  /** A call whose retried sends all failed drains nothing. */
  lemma {:induction false} NothingToDrain(answer: nat -> Reply, n0: nat, body: Option<seq<byte>>, retries: nat)
    requires forall m :: n0 <= m < n0 + retries ==> answer(m).NoResponse?
    ensures Drains(Trace(answer, n0, body, retries)) == []
    decreases retries
  {
    if retries == 0 {
      TraceFirst(answer, n0, body);
    } else {
      var k := retries - 1;
      NothingToDrain(answer, n0, body, k);
      DrainsGrow(answer, n0, body, k);
    }
  }

  /** The responses are drained in the order they were received, each once. */
  lemma {:induction false} DrainsInOrder(answer: nat -> Reply, n0: nat, body: Option<seq<byte>>, retries: nat)
    ensures forall i, j :: 0 <= i < j < |Drains(Trace(answer, n0, body, retries))| ==>
      Drains(Trace(answer, n0, body, retries))[i] < Drains(Trace(answer, n0, body, retries))[j]
    decreases retries
  {
    if retries == 0 {
      TraceFirst(answer, n0, body);
    } else {
      var k := retries - 1;
      DrainsInOrder(answer, n0, body, k);
      DrainsGrow(answer, n0, body, k);
      var before, t := Drains(Trace(answer, n0, body, k)), Drains(Trace(answer, n0, body, k + 1));
      assert t == before + DrainedIds(Answered(answer, n0 + k));
      forall i, j | 0 <= i < j < |t| ensures t[i] < t[j] {
        if j >= |before| {
          assert t[j] == n0 + k;
          assert t[i] == before[i] && t[i] in before;
          TraceDrains(answer, n0, body, k, t[i]);
        } else {
          assert t[i] == before[i] && t[j] == before[j];
        }
      }
    }
  }
}
