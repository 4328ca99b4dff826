/** util/httpclient/httpclient.go: the library copy of the retrying transport. It differs
    from main.go's copy only in its retry decision, which also retries every response whose
    status is not on the package's `AcceptedCode` list. */
module HttpClient {
  import opened Strconv
  import opened Schedule
  import opened RetryLoop
  import opened Http

  /** The initial value of `AcceptedCode`. */
  const DefaultAcceptedCode: seq<string> := ["200", "201", "204"]

  /** The decision `shouldRetry` makes on what a call returned: retry a transport error and
      every response whose status no entry of `codes` parses to. */
  predicate Unaccepted(codes: seq<string>, r: Reply) {
    r.NoResponse? || !Listed(codes, r.code)
  }

  lemma DefaultCodes()
    ensures Atoi("200") == 200 && Atoi("201") == 201 && Atoi("204") == 204
  {
    assert AllDigits("200") && AllDigits("201") && AllDigits("204");
    assert "200"[..2] == "20" && "201"[..2] == "20" && "204"[..2] == "20";
    assert "20"[..1] == "2" && "2"[..0] == "";
  }

  /** By default exactly the statuses 200, 201 and 204 are accepted. */
  lemma DefaultAccepted(status: int)
    ensures Listed(DefaultAcceptedCode, status) <==> status == 200 || status == 201 || status == 204
  {
    DefaultCodes();
    if status == 200 {
      assert Atoi(DefaultAcceptedCode[0]) == status;
    } else if status == 201 {
      assert Atoi(DefaultAcceptedCode[1]) == status;
    } else if status == 204 {
      assert Atoi(DefaultAcceptedCode[2]) == status;
    }
  }

  /** Which attempts the loop would retry, when attempt k is network call base + k. */
  function Retryable(answer: nat -> Reply, base: nat, codes: seq<string>): nat -> bool {
    (k: nat) => Unaccepted(codes, answer(base + k))
  }

  lemma RetryableAt(answer: nat -> Reply, base: nat, codes: seq<string>, k: nat)
    ensures Retryable(answer, base, codes)(k) == Unaccepted(codes, answer(base + k))
  {
  }

  /** The transport is called once when the first response is accepted. */
  lemma AcceptedAtOnce(answer: nat -> Reply, base: nat, codes: seq<string>, limit: int)
    requires answer(base).Status? && Listed(codes, answer(base).code)
    ensures Retries(Retryable(answer, base, codes), limit) == 0
  {
    RetryableAt(answer, base, codes, 0);
    RetriesUnique(Retryable(answer, base, codes), limit, 0);
  }

  /** A transport whose first k answers are errors or unaccepted and whose next one is
      accepted is called min(k, RetryCount) + 1 times. */
  lemma StopsAtFirstAccepted(answer: nat -> Reply, base: nat, codes: seq<string>, limit: int, k: nat)
    requires forall i :: base <= i < base + k ==> Unaccepted(codes, answer(i))
    requires !Unaccepted(codes, answer(base + k))
    ensures Retries(Retryable(answer, base, codes), limit) == Min(k, Max0(limit))
  {
    var n := Min(k, Max0(limit));
    assert forall j :: 0 <= j < n ==> Retryable(answer, base, codes)(j) by {
      forall j | 0 <= j < n ensures Retryable(answer, base, codes)(j) {
        RetryableAt(answer, base, codes, j);
      }
    }
    RetryableAt(answer, base, codes, k);
    RetriesUnique(Retryable(answer, base, codes), limit, n);
  }

  /** When the last outcome is still an error or unaccepted, the loop used up every retry:
      RetryCount + 1 calls, for RetryCount >= 0. */
  lemma UnacceptedExhausts(answer: nat -> Reply, base: nat, codes: seq<string>, limit: int)
    requires limit >= 0
    requires Unaccepted(codes, answer(base + Retries(Retryable(answer, base, codes), limit)))
    ensures Retries(Retryable(answer, base, codes), limit) == limit
  {
    var r := Retries(Retryable(answer, base, codes), limit);
    RetriesSpec(Retryable(answer, base, codes), limit);
    RetryableAt(answer, base, codes, r);
  }

  /** Every response drained was retried because it was not accepted, and the response
      `RoundTrip` returns is never drained. */
  lemma DrainsUnaccepted(answer: nat -> Reply, n0: nat, body: Option<seq<byte>>, codes: seq<string>,
                         limit: int, m: nat)
    requires m in Drains(Trace(answer, n0, body, Retries(Retryable(answer, n0, codes), limit)))
    ensures n0 <= m < n0 + Retries(Retryable(answer, n0, codes), limit)
    ensures answer(m).Status? && !Listed(codes, answer(m).code)
  {
    var r := Retries(Retryable(answer, n0, codes), limit);
    TraceDrains(answer, n0, body, r, m);
    RetriesSpec(Retryable(answer, n0, codes), limit);
    RetryableAt(answer, n0, codes, m - n0);
  }

  /** A server that always answers 500, with RetryCount 2 and only 200 accepted: three
      calls, waits of one and then two seconds, and the last 500 returned. */
  lemma AlwaysFailing(answer: nat -> Reply, n0: nat, body: Option<seq<byte>>)
    requires forall i :: n0 <= i ==> answer(i) == Status(500)
    ensures Retries(Retryable(answer, n0, ["200"]), 2) == 2
    ensures Waits(Trace(answer, n0, body, 2)) == [Second, 2 * Second]
    ensures Answered(answer, n0 + 2) == Resp(n0 + 2, 500)
  {
    DefaultCodes();
    assert !Listed(["200"], 500);
    forall j | 0 <= j < 2 ensures Retryable(answer, n0, ["200"])(j) {
      RetryableAt(answer, n0, ["200"], j);
    }
    RetriesUnique(Retryable(answer, n0, ["200"]), 2, 2);
    TraceWaits(answer, n0, body, 2);
    assert WaitSchedule(2) == [Backoff(0), Backoff(1)];
  }

  /** A server that answers 500 and then 200, with RetryCount 3 and the default list: two
      calls, one wait of a second, and the 200 returned. */
  lemma RecoversOnSecondCall(answer: nat -> Reply, n0: nat, body: Option<seq<byte>>)
    requires answer(n0) == Status(500) && answer(n0 + 1) == Status(200)
    ensures Retries(Retryable(answer, n0, DefaultAcceptedCode), 3) == 1
    ensures Waits(Trace(answer, n0, body, 1)) == [Second]
    ensures Answered(answer, n0 + 1) == Resp(n0 + 1, 200)
  {
    DefaultAccepted(500);
    DefaultAccepted(200);
    StopsAtFirstAccepted(answer, n0, DefaultAcceptedCode, 3, 1);
    TraceWaits(answer, n0, body, 1);
    assert WaitSchedule(1) == [Backoff(0)];
  }

  /** The package-level variables `AcceptedCode` and `RetryCount`. */
  class Globals {
    var acceptedCode: seq<string>
    var retryCount: int

    constructor ()
      ensures acceptedCode == DefaultAcceptedCode && retryCount == 1
    {
      acceptedCode := DefaultAcceptedCode;
      retryCount := 1;
    }

    /** `NewRetryableClient`: wrap the network transport and set both package variables.
        Timeout and proxy settings belong to the wrapped transport and are not modelled. */
    method NewRetryableClient(env: Env, accept: seq<string>, retry: int) returns (client: RetryableTransport)
      modifies this
      ensures retryCount == retry && acceptedCode == accept
      ensures fresh(client) && client.env == env && client.globals == this
    {
      client := new RetryableTransport(env, this);
      retryCount := retry;
      acceptedCode := accept;
    }

    /** `shouldRetry(err, resp)`: true on a transport error; otherwise false as soon as an
        entry of `AcceptedCode` parses to the status, and true when none does. */
    method ShouldRetry(o: Outcome) returns (b: bool)
      ensures b <==> o.Err? || !Listed(acceptedCode, o.status)
    {
      if o.Err? {
        return true;
      }
      for i := 0 to |acceptedCode|
        invariant forall j :: 0 <= j < i ==> Atoi(acceptedCode[j]) != o.status
      {
        var statusCodeInt := Atoi(acceptedCode[i]);
        if o.status == statusCodeInt {
          return false;
        }
      }
      return true;
    }
  }

  /** `retryableTransport`: the wrapped transport (with the clock and the response bodies,
      as one environment), and the package variables it reads. */
  class RetryableTransport {
    const env: Env
    const globals: Globals

    constructor (env: Env, globals: Globals)
      ensures this.env == env && this.globals == globals
    {
      this.env := env;
      this.globals := globals;
    }

    /** One pass of the retry loop: wait `backoff(retries)`, drain the response being
        retried, hand the request a fresh stream of the body and send it again. Here n0,
        `events0` and `body` are the network calls made and the events seen before
        `RoundTrip`, and the bytes its request body held on entry. */
    method Retry(req: Request, bodyBytes: seq<byte>, previous: Outcome, retries: nat,
                 ghost n0: nat, ghost events0: seq<Event>, ghost body: Option<seq<byte>>)
      returns (next: Outcome)
      requires env.sends == n0 + retries + 1 && previous == Answered(env.answer, n0 + retries)
      requires env.events == events0 + Trace(env.answer, n0, body, retries)
      requires req.body == Consumed(body) && (body.Some? ==> bodyBytes == body.value)
      modifies req, env
      ensures env.sends == n0 + (retries + 1) + 1 && next == Answered(env.answer, n0 + (retries + 1))
      ensures env.events == events0 + Trace(env.answer, n0, body, retries + 1)
      ensures req.body == Consumed(body) && req.header == old(req.header)
    {
      env.Sleep(Backoff(retries));
      // Consume any response, so that its connection can be reused.
      env.DrainBody(previous);
      if req.body.Some? {
        req.body := Some(bodyBytes);
      }
      next := env.RoundTrip(req);
      assert env.events == events0 + (Trace(env.answer, n0, body, retries) + Step(env.answer, n0, body, retries));
    }

    /** The retry loop of `RoundTrip`, entered after the first send of attempt 0; the
        decision `shouldRetry` makes is taken before every evaluation of the loop condition. */
    method RunRetries(req: Request, bodyBytes: seq<byte>, first: Outcome,
                      ghost n0: nat, ghost events0: seq<Event>, ghost body: Option<seq<byte>>)
      returns (result: Outcome, retries: nat)
      requires env.sends == n0 + 1 && first == Answered(env.answer, n0)
      requires env.events == events0 + Trace(env.answer, n0, body, 0)
      requires req.body == Consumed(body) && (body.Some? ==> bodyBytes == body.value)
      modifies req, env
      ensures retries == Retries(Retryable(env.answer, n0, globals.acceptedCode), globals.retryCount)
      ensures env.sends == n0 + retries + 1 && result == Answered(env.answer, n0 + retries)
      ensures env.events == events0 + Trace(env.answer, n0, body, retries)
      ensures req.body == Consumed(body) && req.header == old(req.header)
    {
      ghost var retryable, limit := Retryable(env.answer, n0, globals.acceptedCode), globals.retryCount;
      result := first;
      retries := 0;
      var again := globals.ShouldRetry(result);
      RetryableAt(env.answer, n0, globals.acceptedCode, 0);
      while again && retries < globals.retryCount
        invariant env.sends == n0 + retries + 1 && result == Answered(env.answer, n0 + retries)
        invariant env.events == events0 + Trace(env.answer, n0, body, retries)
        invariant req.body == Consumed(body) && req.header == old(req.header)
        invariant again == retryable(retries)
        invariant globals.acceptedCode == old(globals.acceptedCode) && globals.retryCount == limit
        invariant Retries(retryable, limit) == RetriesFrom(retryable, limit, retries)
        decreases limit - retries
      {
        result := Retry(req, bodyBytes, result, retries, n0, events0, body);
        retries := retries + 1;
        again := globals.ShouldRetry(result);
        RetryableAt(env.answer, n0, globals.acceptedCode, retries);
      }
      RetriesAtExit(retryable, limit, retries);
    }

    /** `RoundTrip(req)`: clone the body, send, and run the retry loop. With n0 the network
        calls made before and r the number of retries the loop makes, the environment sees
        exactly `Trace` of r retries - r + 1 sends of the bytes req's body held on entry, with
        the backoff sleeps and drains between them - and the result is what the last send
        returned. */
    method RoundTrip(req: Request) returns (result: Outcome)
      modifies req, env
      ensures env.sends == old(env.sends) + 1
        + Retries(Retryable(env.answer, old(env.sends), globals.acceptedCode), globals.retryCount)
      ensures env.events == old(env.events) + Trace(env.answer, old(env.sends), old(req.body),
        Retries(Retryable(env.answer, old(env.sends), globals.acceptedCode), globals.retryCount))
      ensures result == Answered(env.answer, env.sends - 1)
      ensures req.body == Consumed(old(req.body)) && req.header == old(req.header)
    {
      ghost var n0, events0, body0 := env.sends, env.events, req.body;
      // Clone the request body: read it once, and hand the request a fresh stream of it.
      var bodyBytes: seq<byte> := [];
      if req.body.Some? {
        bodyBytes := req.body.value;
        req.body := Some(bodyBytes);
      }
      var first := env.RoundTrip(req);
      var retries;
      result, retries := RunRetries(req, bodyBytes, first, n0, events0, body0);
    }
  }
}
