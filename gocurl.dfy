/** main.go: the command's own copy of the retrying transport, whose retry decision looks
    only at transport errors, and the part of `main` around it: setting the request
    headers, sending, and checking the final status against the `accept` list. */
module Gocurl {
  import opened Strconv
  import opened Header
  import opened Schedule
  import opened RetryLoop
  import opened Http

  /** `shouldRetry(err, resp)`: retry exactly when the transport returned an error; any
      response, 500 included, ends the loop. */
  function ShouldRetry(r: Reply): (b: bool)
    ensures r.Status? ==> !b
    ensures r.NoResponse? ==> b
  {
    r.NoResponse?
  }

  /** Which attempts the loop would retry, when attempt k is network call base + k. */
  function Retryable(answer: nat -> Reply, base: nat): nat -> bool {
    (k: nat) => ShouldRetry(answer(base + k))
  }

  lemma RetryableAt(answer: nat -> Reply, base: nat, k: nat)
    ensures Retryable(answer, base)(k) == ShouldRetry(answer(base + k))
  {
  }

  /** A transport that fails for the first k calls and then responds is called
      min(k, RetryCount) + 1 times: the loop stops at the first response. */
  lemma StopsAtFirstResponse(answer: nat -> Reply, base: nat, limit: int, k: nat)
    requires forall i :: base <= i < base + k ==> answer(i).NoResponse?
    requires answer(base + k).Status?
    ensures Retries(Retryable(answer, base), limit) == Min(k, Max0(limit))
  {
    var n := Min(k, Max0(limit));
    assert forall j :: 0 <= j < n ==> Retryable(answer, base)(j) by {
      forall j | 0 <= j < n ensures Retryable(answer, base)(j) {
        RetryableAt(answer, base, j);
      }
    }
    RetryableAt(answer, base, k);
    RetriesUnique(Retryable(answer, base), limit, n);
  }

  /** A transport that always fails is called RetryCount + 1 times (once if RetryCount <= 0). */
  lemma PermanentFailure(answer: nat -> Reply, base: nat, limit: int)
    requires forall i :: base <= i ==> answer(i).NoResponse?
    ensures Retries(Retryable(answer, base), limit) == Max0(limit)
  {
    var n := Max0(limit);
    assert forall j :: 0 <= j < n ==> Retryable(answer, base)(j) by {
      forall j | 0 <= j < n ensures Retryable(answer, base)(j) {
        RetryableAt(answer, base, j);
      }
    }
    RetriesUnique(Retryable(answer, base), limit, n);
  }

  /** main.go never drains a response: the loop only retries transport errors, so the
      `drainBody` call in it always gets a nil response. */
  lemma NeverDrains(answer: nat -> Reply, n0: nat, body: Option<seq<byte>>, limit: int)
    ensures Drains(Trace(answer, n0, body, Retries(Retryable(answer, n0), limit))) == []
  {
    var r := Retries(Retryable(answer, n0), limit);
    RetriesSpec(Retryable(answer, n0), limit);
    forall m | n0 <= m < n0 + r ensures answer(m).NoResponse? {
      RetryableAt(answer, n0, m - n0);
    }
    NothingToDrain(answer, n0, body, r);
  }

  /** The package-level variable `RetryCount` of main.go. */
  class Globals {
    var retryCount: int

    constructor ()
      ensures retryCount == 1
    {
      retryCount := 1;
    }

    /** `NewRetryableClient`: wrap the network transport and set the package's `RetryCount`.
        Timeout and proxy settings belong to the wrapped transport and are not modelled. */
    method NewRetryableClient(env: Env, retry: int) returns (client: RetryableTransport)
      modifies this
      ensures retryCount == retry
      ensures fresh(client) && client.env == env && client.globals == this
    {
      client := new RetryableTransport(env, this);
      retryCount := retry;
    }
  }

  /** `retryableTransport`: the wrapped transport (with the clock and the response bodies,
      as one environment), and the package variables it reads. */
  class RetryableTransport {
    const env: Env
    const globals: Globals

    constructor (env: Env, globals: Globals)
      ensures this.env == env && this.globals == globals
    {
      this.env := env;
      this.globals := globals;
    }

    /** One pass of the retry loop: wait `backoff(retries)`, drain the response being
        retried, hand the request a fresh stream of the body and send it again. Here n0,
        `events0` and `body` are the network calls made and the events seen before
        `RoundTrip`, and the bytes its request body held on entry. */
    method Retry(req: Request, bodyBytes: seq<byte>, previous: Outcome, retries: nat,
                 ghost n0: nat, ghost events0: seq<Event>, ghost body: Option<seq<byte>>)
      returns (next: Outcome)
      requires env.sends == n0 + retries + 1 && previous == Answered(env.answer, n0 + retries)
      requires env.events == events0 + Trace(env.answer, n0, body, retries)
      requires req.body == Consumed(body) && (body.Some? ==> bodyBytes == body.value)
      modifies req, env
      ensures env.sends == n0 + (retries + 1) + 1 && next == Answered(env.answer, n0 + (retries + 1))
      ensures env.events == events0 + Trace(env.answer, n0, body, retries + 1)
      ensures req.body == Consumed(body) && req.header == old(req.header)
    {
      env.Sleep(Backoff(retries));
      // Consume any response, so that its connection can be reused.
      env.DrainBody(previous);
      if req.body.Some? {
        req.body := Some(bodyBytes);
      }
      next := env.RoundTrip(req);
      assert env.events == events0 + (Trace(env.answer, n0, body, retries) + Step(env.answer, n0, body, retries));
    }

    /** The retry loop of `RoundTrip`, entered after the first send of attempt 0. */
    method RunRetries(req: Request, bodyBytes: seq<byte>, first: Outcome,
                     ghost n0: nat, ghost events0: seq<Event>, ghost body: Option<seq<byte>>)
      returns (result: Outcome, retries: nat)
      requires env.sends == n0 + 1 && first == Answered(env.answer, n0)
      requires env.events == events0 + Trace(env.answer, n0, body, 0)
      requires req.body == Consumed(body) && (body.Some? ==> bodyBytes == body.value)
      modifies req, env
      ensures retries == Retries(Retryable(env.answer, n0), globals.retryCount)
      ensures env.sends == n0 + retries + 1 && result == Answered(env.answer, n0 + retries)
      ensures env.events == events0 + Trace(env.answer, n0, body, retries)
      ensures req.body == Consumed(body) && req.header == old(req.header)
    {
      ghost var retryable, limit := Retryable(env.answer, n0), globals.retryCount;
      result := first;
      retries := 0;
      while ShouldRetry(result.View()) && retries < globals.retryCount
        invariant env.sends == n0 + retries + 1 && result == Answered(env.answer, n0 + retries)
        invariant env.events == events0 + Trace(env.answer, n0, body, retries)
        invariant req.body == Consumed(body) && req.header == old(req.header)
        invariant Retries(retryable, limit) == RetriesFrom(retryable, limit, retries)
        invariant globals.retryCount == limit
        decreases limit - retries
      {
        result := Retry(req, bodyBytes, result, retries, n0, events0, body);
        RetryableAt(env.answer, n0, retries);
        retries := retries + 1;
      }
      RetryableAt(env.answer, n0, retries);
      RetriesAtExit(retryable, limit, retries);
    }

    /** `RoundTrip(req)`: clone the body, send, and run the retry loop. With n0 the network
        calls made before and r the number of retries the loop makes, the environment sees
        exactly `Trace` of r retries - r + 1 sends of the bytes req's body held on entry, with
        the backoff sleeps and drains between them - and the result is what the last send
        returned. */
    method RoundTrip(req: Request) returns (result: Outcome)
      modifies req, env
      ensures env.sends == old(env.sends) + 1 + Retries(Retryable(env.answer, old(env.sends)), globals.retryCount)
      ensures env.events == old(env.events)
        + Trace(env.answer, old(env.sends), old(req.body), Retries(Retryable(env.answer, old(env.sends)), globals.retryCount))
      ensures result == Answered(env.answer, env.sends - 1)
      ensures req.body == Consumed(old(req.body)) && req.header == old(req.header)
    {
      ghost var n0, events0, body0 := env.sends, env.events, req.body;
      // Clone the request body: read it once, and hand the request a fresh stream of it.
      var bodyBytes: seq<byte> := [];
      if req.body.Some? {
        bodyBytes := req.body.value;
        req.body := Some(bodyBytes);
      }
      var first := env.RoundTrip(req);
      var retries;
      result, retries := RunRetries(req, bodyBytes, first, n0, events0, body0);
    }
  }

  /** The accept check of `main`: split the list at commas and parse each entry. */
  method CheckAccepted(accept: string, status: int) returns (accepted: bool)
    ensures accepted <==> Listed(Split(accept, ','), status)
  {
    var acceptedCode := Split(accept, ',');
    accepted := false;
    for i := 0 to |acceptedCode|
      invariant accepted <==> exists j :: 0 <= j < i && Atoi(acceptedCode[j]) == status
    {
      var statusCodeInt := Atoi(acceptedCode[i]);
      if status == statusCodeInt {
        accepted := true;
      }
    }
  }

  /** The header map lines 54-62 of `main` leave: Content-Type first, then a Basic and then
      a Bearer Authorization when their tokens are given. */
  function PresetHeaders(h: Header, basicAuthToken: string, bearerToken: string): Header {
    var withType := Set(h, "Content-Type", "application/json");
    var withBasic := if basicAuthToken != "" then Set(withType, "Authorization", "Basic " + basicAuthToken) else withType;
    if bearerToken != "" then Set(withBasic, "Authorization", "Bearer " + bearerToken) else withBasic
  }

  /** The header map `main` builds: the preset headers, then the user's headers in
      iteration order. */
  function RequestHeaders(h: Header, basicAuthToken: string, bearerToken: string, headers: seq<(string, string)>): Header {
    SetAll(PresetHeaders(h, basicAuthToken, bearerToken), headers)
  }

  /** "Content-Type" is already in canonical form, so `Header.Set` stores it as written. */
  lemma ContentTypeCanonical()
    ensures CanonicalKey("Content-Type") == "Content-Type"
  {
    assert IsToken("Content-Type");
    HyphenatedCanonical("Content", "Type", true);
    assert "Content" + "-" + "Type" == "Content-Type";
  }

  /** "Authorization" is already in canonical form, so `Header.Set` stores it as written. */
  lemma AuthorizationCanonical()
    ensures CanonicalKey("Authorization") == "Authorization"
  {
    assert IsToken("Authorization");
    WordCanonical("Authorization", true);
  }

  /** A user header wins over everything under its canonical key: the last one given, when
      several share it. */
  lemma UserHeaderWins(h: Header, basicAuthToken: string, bearerToken: string, headers: seq<(string, string)>, j: nat)
    requires j < |headers|
    requires forall i :: j < i < |headers| ==> CanonicalKey(headers[i].0) != CanonicalKey(headers[j].0)
    ensures CanonicalKey(headers[j].0) in RequestHeaders(h, basicAuthToken, bearerToken, headers)
    ensures RequestHeaders(h, basicAuthToken, bearerToken, headers)[CanonicalKey(headers[j].0)] == headers[j].1
  {
    LastWriteWins(PresetHeaders(h, basicAuthToken, bearerToken), headers, j);
  }

  /** Without a user Content-Type header, Content-Type is application/json. */
  lemma DefaultContentType(h: Header, basicAuthToken: string, bearerToken: string, headers: seq<(string, string)>)
    requires forall i :: 0 <= i < |headers| ==> CanonicalKey(headers[i].0) != "Content-Type"
    ensures "Content-Type" in RequestHeaders(h, basicAuthToken, bearerToken, headers)
    ensures RequestHeaders(h, basicAuthToken, bearerToken, headers)["Content-Type"] == "application/json"
  {
    ContentTypeCanonical();
    AuthorizationCanonical();
    NotWritten(PresetHeaders(h, basicAuthToken, bearerToken), headers, "Content-Type");
  }

  /** Without a user Authorization header, a Bearer token given decides Authorization... */
  lemma BearerAuthorization(h: Header, basicAuthToken: string, bearerToken: string, headers: seq<(string, string)>)
    requires forall i :: 0 <= i < |headers| ==> CanonicalKey(headers[i].0) != "Authorization"
    requires bearerToken != ""
    ensures "Authorization" in RequestHeaders(h, basicAuthToken, bearerToken, headers)
    ensures RequestHeaders(h, basicAuthToken, bearerToken, headers)["Authorization"] == "Bearer " + bearerToken
  {
    AuthorizationCanonical();
    NotWritten(PresetHeaders(h, basicAuthToken, bearerToken), headers, "Authorization");
  }

  /** ...else a Basic token given does... */
  lemma BasicAuthorization(h: Header, basicAuthToken: string, headers: seq<(string, string)>)
    requires forall i :: 0 <= i < |headers| ==> CanonicalKey(headers[i].0) != "Authorization"
    requires basicAuthToken != ""
    ensures "Authorization" in RequestHeaders(h, basicAuthToken, "", headers)
    ensures RequestHeaders(h, basicAuthToken, "", headers)["Authorization"] == "Basic " + basicAuthToken
  {
    AuthorizationCanonical();
    NotWritten(PresetHeaders(h, basicAuthToken, ""), headers, "Authorization");
  }

  /** ...and with neither, the request keeps the Authorization it had, or stays without one. */
  lemma IncomingAuthorization(h: Header, headers: seq<(string, string)>)
    requires forall i :: 0 <= i < |headers| ==> CanonicalKey(headers[i].0) != "Authorization"
    ensures "Authorization" in RequestHeaders(h, "", "", headers) <==> "Authorization" in h
    ensures "Authorization" in h ==> RequestHeaders(h, "", "", headers)["Authorization"] == h["Authorization"]
  {
    ContentTypeCanonical();
    NotWritten(PresetHeaders(h, "", ""), headers, "Authorization");
  }

  /** Lines 54-62 and 72-74 of `main`: `Header.Set` calls on the request. */
  method SetRequestHeaders(req: Request, basicAuthToken: string, bearerToken: string, headers: seq<(string, string)>)
    modifies req
    ensures req.header == RequestHeaders(old(req.header), basicAuthToken, bearerToken, headers)
    ensures req.body == old(req.body)
  {
    req.header := Set(req.header, "Content-Type", "application/json");
    if basicAuthToken != "" {
      req.header := Set(req.header, "Authorization", "Basic " + basicAuthToken);
    }
    if bearerToken != "" {
      req.header := Set(req.header, "Authorization", "Bearer " + bearerToken);
    }
    ghost var base := req.header;
    for i := 0 to |headers|
      invariant req.header == SetAll(base, headers[..i])
      invariant req.body == old(req.body)
    {
      assert headers[..i + 1][..i] == headers[..i] && headers[..i + 1][i] == headers[i];
      assert SetAll(base, headers[..i + 1]) == Set(SetAll(base, headers[..i]), headers[i].0, headers[i].1);
      req.header := Set(req.header, headers[i].0, headers[i].1);
    }
    assert headers[..|headers|] == headers;
  }

  /** How `main` ends after the request: it goes on to read and report response `id`,
      stops with `log.Fatalln` on an unaccepted status, or crashes reading the status of the
      nil response that a final transport error leaves. */
  datatype Exit = Report(id: nat, status: int) | Fatal(message: string) | NilDereference

  /** Lines 54-92 of `main`, query parameters aside: set the headers, send through the
      retrying client, and check the final status against the accept list. */
  method Execute(client: RetryableTransport, req: Request, accept: string,
                 basicAuthToken: string, bearerToken: string, headers: seq<(string, string)>)
    returns (exit: Exit)
    modifies req, client.env
    ensures req.header == RequestHeaders(old(req.header), basicAuthToken, bearerToken, headers)
    ensures client.env.events == old(client.env.events)
      + Trace(client.env.answer, old(client.env.sends), old(req.body),
              Retries(Retryable(client.env.answer, old(client.env.sends)), client.globals.retryCount))
    ensures client.env.sends == old(client.env.sends) + 1
      + Retries(Retryable(client.env.answer, old(client.env.sends)), client.globals.retryCount)
    ensures req.body == Consumed(old(req.body))
    ensures match Answered(client.env.answer, client.env.sends - 1)
      case Err => exit == NilDereference
      case Resp(id, status) =>
        if Listed(Split(accept, ','), status) then exit == Report(id, status)
        else exit == Fatal("Error: Request failed with status code " + Itoa(status))
  {
    SetRequestHeaders(req, basicAuthToken, bearerToken, headers);
    var response := client.RoundTrip(req);
    if response.Err? {
      return NilDereference;
    }
    var accepted := CheckAccepted(accept, response.status);
    if !accepted {
      return Fatal("Error: Request failed with status code " + Itoa(response.status));
    }
    exit := Report(response.id, response.status);
  }
}
