# gocurl's retrying HTTP transport, in Dafny

gocurl is a small Go command that sends one HTTP request (a GitHub Action step). Its one
piece of real logic is a retrying `http.RoundTripper`, which exists in two near-identical
copies: one in `main.go`, one in `util/httpclient/httpclient.go`. Each copy works the same way:

- It reads the request body once and sends the request.
- While `shouldRetry(err, resp)` holds and `retries < RetryCount`, it repeats these steps:
  - sleep `backoff(retries)`, which is 2^retries seconds;
  - drain the previous response;
  - hand the request a fresh stream of the same body bytes;
  - send again.
- It returns the last `(resp, err)`.

The copies differ only in `shouldRetry`:

- The one in `main.go` retries only a transport error.
- The library's also retries every status that no entry of `AcceptedCode` parses to.

Around the transport, `main` sets the request headers and checks the final status against the
comma-separated `accept` list.

The model works as follows:

- **The world beyond the transport.** This is one object, `Http.Env`:
  - `answer(i)` is what network call number i yields: no response, or a status.
  - `sends` counts the calls made.
  - `events` logs, in order, every send (with the body bytes it carried and its outcome),
    every sleep and every response drained.
- **Package variables and the transport.** The package variables (`RetryCount`, and
  `AcceptedCode` in the library) are the fields of a `Globals` object, which
  `NewRetryableClient` updates. Each `RoundTrip` is a method that changes `Env` and the
  request.
- **RoundTrip's contract.** Each `RoundTrip` is proved to leave exactly
  `RetryLoop.Trace(answer, n0, body, r)` in the log, where:
  - `n0` is the number of calls made before;
  - `body` is what the request body held on entry;
  - `r = RetryLoop.Retries(...)` is the number of retries the loop's condition allows.
- **The properties.** They are proved about `Trace` and `Retries`: the attempt bounds, the stop
  rules, the wait schedule, replay of the body, the final outcome, and what is drained.
- **Module layout:**
  - `strconv.dfy` holds `Atoi`, `Itoa` and `Split`.
  - `schedule.dfy` holds `backoff`.
  - `http.dfy` holds the request and the environment.
  - `retryloop.dfy` holds the loop the two copies share.
  - `header.dfy` holds `Header.Set` with canonical keys.
  - `gocurl.dfy` holds main.go.
  - `httpclient.dfy` holds the library copy.

Two behaviours of the code are worth stating outright:

- **Retry rule.** `main.go`'s `shouldRetry` retries only transport errors, so its loop ends at
  the first response, 500 included. The library's copy also retries unaccepted statuses.
- **Negative retry counts.** `RetryCount` is any `int`; a negative count behaves like 0.

## Model

| member | source | states |
|---|---|---|
| Strconv.Atoi | main.go:83 | no contract of its own: `strconv.Atoi` with its error dropped; AtoiItoa and AtoiRejectsNonDigit pin it down |
| Strconv.Itoa | main.go:91 | the decimal numeral of a status is non-empty and starts with '-' exactly when the status is negative |
| Strconv.DigitsOfDecimalString | main.go:91 | the numeral Itoa prints for n has the value n |
| Strconv.AtoiItoa | main.go:83 | Atoi parses back every integer Itoa prints |
| Strconv.AtoiRejectsNonDigit | main.go:83 | an accept entry with a space or other non-digit (other than a leading sign) parses to 0, so " 201" does not accept 201 |
| Strconv.Split | main.go:79 | splitting the accept list gives at least one entry, and no entry holds a comma |
| Strconv.JoinSplit | main.go:79 | joining the entries with commas gives the accept list back |
| Strconv.SplitNoSeparator | main.go:79 | a list without commas is one entry |
| Strconv.SplitAfterPiece | main.go:79 | the text before the first comma is the first entry |
| Strconv.SplitJoin | main.go:79 | splitting a comma-joined list of comma-free entries gives the entries back |
| Schedule.Pow2 | main.go:192 | 2^n is at least 1 |
| Schedule.Backoff | main.go:191-193 | every backoff is a positive whole number of seconds |
| Schedule.BackoffDoubles | main.go:191-193 | the first backoff is one second and each one is twice the one before |
| Schedule.WaitScheduleLength | main.go:176 | r retries wait r times |
| Schedule.WaitScheduleAt | main.go:176 | the wait before retry k is exactly 2^k seconds |
| Schedule.TotalWait | main.go:176 | after r retries the loop has waited 2^r - 1 seconds in all |
| Http.Answered | main.go:171 | the outcome of call i is what the network answered, and a response carries its call number i |
| Http.Consumed | main.go:167 | reading a body to its end leaves an empty stream, and a nil body stays nil |
| Http.Env.RoundTrip | main.go:171 | the wrapped transport returns the answer of the next call number, counts the call, logs one send of exactly the bytes the request body held, leaves that body read to its end and the header unchanged |
| Http.Env.Sleep | main.go:176 | `time.Sleep(d)` logs one wait of d and calls nothing |
| Http.Env.DrainBody | main.go:199-204 | `drainBody` logs the drain of the response when there is one, and nothing for a nil response |
| RetryLoop.RetriesFrom | main.go:174 | no contract of its own: the value of `retries` when the loop, having reached k, stops; RetriesFromSpec and RetriesAtExit pin it down |
| RetryLoop.Retries | main.go:173-186 | no contract of its own: the number of retries the loop makes; RetriesSpec and RetriesUnique pin it down |
| RetryLoop.Step | main.go:175-185 | no contract of its own: the events of one pass of the loop; StepProjections and the Grow lemmas pin it down |
| RetryLoop.Trace | main.go:171-186 | no contract of its own: the events of a RoundTrip with r retries; TraceFirst, TraceLast, TraceSends, TraceWaits, TraceDrains and DrainsInOrder pin it down |
| RetryLoop.RetriesFromSpec | main.go:174 | from any point the loop goes on only through retryable attempts, stops at RetryCount at the latest, and stops early only on a non-retryable attempt |
| RetryLoop.RetriesSpec | main.go:171-186 | the loop retries at most RetryCount times (never when RetryCount <= 0), every attempt before the last was retryable, and it ends on a non-retryable attempt unless all retries are used |
| RetryLoop.RetriesAtExit | main.go:174 | when the loop condition fails, the retries so far are all the loop makes |
| RetryLoop.RetriesUnique | main.go:174 | those three properties determine the retry count: the first non-retryable attempt, cut off at RetryCount |
| RetryLoop.ProjectAppend | main.go:174-186 | the sends, waits and drains of two logs in a row are those of each, in order |
| RetryLoop.ProjectOne | main.go:174-186 | the sends, waits and drains of a one-event log are that event alone in the projection of its own kind, and empty in the other two |
| RetryLoop.StepProjections | main.go:175-185 | retry k sends once, with the original body, and gets the answer of the next call; waits once, for backoff(k); and drains the response of attempt k, only when there is one |
| RetryLoop.SendsGrow | main.go:184 | a further retry adds one send at the end |
| RetryLoop.WaitsGrow | main.go:176 | a further retry adds one wait of backoff(k) at the end |
| RetryLoop.DrainsGrow | main.go:178 | a further retry adds the drain of the response being retried |
| RetryLoop.TraceFirst | main.go:171 | without retries the call sends once and neither waits nor drains |
| RetryLoop.TraceLast | main.go:184-188 | the last thing RoundTrip does is the send whose outcome it returns |
| RetryLoop.TraceSends | main.go:165-184 | r retries send r + 1 times; every send carries the body bytes read on entry (a nil body stays nil), and send i gets the answer of call n0 + i |
| RetryLoop.TraceWaits | main.go:176 | r retries wait exactly 2^0, ..., 2^(r-1) seconds, in that order |
| RetryLoop.TraceDrains | main.go:178 | a response is drained exactly when it came from one of the first r sends, so the returned response is never drained |
| RetryLoop.NothingToDrain | main.go:178 | a call whose retried attempts all failed drains nothing |
| RetryLoop.DrainsInOrder | main.go:178 | the responses are drained in the order they came, each once |
| Header.Canonical | main.go:54 | canonicalising a key keeps its length |
| Header.CanonicalAt | main.go:54 | character i of the canonical form is upper-cased when it is the first or follows a '-', and lower-cased otherwise |
| Header.CanonicalKey | main.go:73 | no contract of its own: the key `Header.Set` stores under, canonical when the key is a token and as given otherwise; CanonicalAt, CanonicalIdempotent and CanonicalKeyIdempotent pin it down |
| Header.Set | main.go:73 | after `h.Set(key, value)` the canonical key holds value, and every other key keeps its entry or its absence |
| Header.SetAll | main.go:72-74 | no contract of its own: a series of `Set` calls in order; LastWriteWins, NotWritten, SetAllKeeps, SetAllAdds and SetAllOnly pin it down |
| Header.CanonicalIdempotent | main.go:73 | canonicalising twice gives what canonicalising once does, and keeps a key a token |
| Header.CanonicalKeyIdempotent | main.go:73 | `Header.Set`'s key canonicalisation is idempotent |
| Header.WordCanonical | main.go:57 | a capitalised word such as Authorization is its own canonical form |
| Header.HyphenatedCanonical | main.go:54 | two capitalised words joined by '-', such as Content-Type, are their own canonical form |
| Header.LastWriteWins | main.go:72-74 | after a series of `Set` calls, a key holds the value of the last call that canonicalises to it |
| Header.NotWritten | main.go:72-74 | a key no call canonicalises to keeps its entry, or stays absent |
| Header.SetAllKeeps | main.go:72-74 | `Set` calls never remove a key |
| Header.SetAllAdds | main.go:72-74 | every `Set` call leaves its canonical key present |
| Header.SetAllOnly | main.go:72-74 | every key added comes from some `Set` call |
| Gocurl.ShouldRetry | main.go:195-197 | main.go retries a transport error and never a response, whatever its status |
| Gocurl.RetryableAt | main.go:174 | attempt k is retried exactly when call n0 + k was a transport error |
| Gocurl.StopsAtFirstResponse | main.go:174 | a transport that fails k times and then responds is called min(k, RetryCount) + 1 times |
| Gocurl.PermanentFailure | main.go:171-186 | a transport that always fails is called RetryCount + 1 times, or once when RetryCount <= 0 |
| Gocurl.NeverDrains | main.go:178 | main.go's loop never drains a response, because it only retries transport errors |
| Gocurl.Globals.constructor | main.go:132 | `RetryCount` starts at 1 |
| Gocurl.Globals.NewRetryableClient | main.go:138-161 | the client wraps the given transport, and `RetryCount` becomes the `retry` argument |
| Gocurl.RetryableTransport.constructor | main.go:139-141 | the transport wraps the given network transport |
| Gocurl.RetryableTransport.Retry | main.go:175-185 | one pass waits backoff(retries), drains the response being retried, re-emits the body and sends, which extends the log by exactly one step |
| Gocurl.RetryableTransport.RunRetries | main.go:173-186 | the loop makes exactly Retries(...) retries, and its log is exactly Trace(...) of them |
| Gocurl.RetryableTransport.RoundTrip | main.go:163-189 | RoundTrip calls the network 1 + Retries(...) times, logs exactly Trace(...) (body replay, waits and drains), returns the last call's outcome, and leaves the body read and the header unchanged |
| Http.Listed | main.go:82-87 | no contract of its own: some entry of the list parses to the status; CheckAccepted and HttpClient.Globals.ShouldRetry are proved equal to it |
| Gocurl.CheckAccepted | main.go:79-88 | the status is accepted exactly when some comma-separated entry of the accept list parses to it |
| Gocurl.ContentTypeCanonical | main.go:54 | `Header.Set` stores Content-Type under "Content-Type" |
| Gocurl.AuthorizationCanonical | main.go:57-61 | `Header.Set` stores Authorization under "Authorization" |
| Gocurl.UserHeaderWins | main.go:72-74 | a user header overrides the preset ones under its canonical key, the last of several taking effect |
| Gocurl.DefaultContentType | main.go:54 | without a user Content-Type header, Content-Type is application/json |
| Gocurl.PresetHeaders | main.go:54-62 | no contract of its own: the header after the Content-Type and Authorization `Set` calls; DefaultContentType and the three Authorization lemmas pin it down |
| Gocurl.RequestHeaders | main.go:54-74 | no contract of its own: the preset headers followed by the user headers in iteration order; UserHeaderWins, DefaultContentType and the three Authorization lemmas pin it down |
| Gocurl.BearerAuthorization | main.go:56-62 | without a user Authorization header, a given Bearer token decides Authorization, whether a Basic token is given or not |
| Gocurl.BasicAuthorization | main.go:56-58 | without a user Authorization header or a Bearer token, a given Basic token decides Authorization |
| Gocurl.IncomingAuthorization | main.go:54-74 | with neither token nor a user Authorization header, the request keeps the Authorization it had, or stays without one |
| Gocurl.SetRequestHeaders | main.go:54-74 | the request header becomes the preset headers followed by the user headers, and the body is unchanged |
| Gocurl.Exit | main.go:77-92 | no contract of its own: how `main` goes on after the request; Execute's contract says which exit each final outcome leads to |
| Gocurl.Execute | main.go:54-92 | main sets the headers and calls the network exactly 1 + Retries(...) times with the exact Trace(...) logged, leaving the body read. It then reports the last call's response id, stops with "Error: Request failed with status code N" when no accept entry parses to N, or dereferences a nil response after a final transport error |
| HttpClient.Unaccepted | util/httpclient/httpclient.go:78-92 | no contract of its own: the retry decision on what a call returned; Globals.ShouldRetry is proved equal to it and RetryableAt ties it to attempt k |
| HttpClient.DefaultCodes | util/httpclient/httpclient.go:13 | the default entries parse to 200, 201 and 204 |
| HttpClient.DefaultAccepted | util/httpclient/httpclient.go:13 | by default a status is accepted exactly when it is 200, 201 or 204 |
| HttpClient.RetryableAt | util/httpclient/httpclient.go:57 | attempt k is retried exactly when call n0 + k was an error or a status no entry parses to |
| HttpClient.AcceptedAtOnce | util/httpclient/httpclient.go:54-69 | an accepted first response means one call and no retry, whatever RetryCount is |
| HttpClient.StopsAtFirstAccepted | util/httpclient/httpclient.go:57 | k unaccepted outcomes followed by an accepted one mean min(k, RetryCount) + 1 calls |
| HttpClient.UnacceptedExhausts | util/httpclient/httpclient.go:57-71 | if the returned outcome is an error or unaccepted and RetryCount >= 0, all RetryCount retries were made |
| HttpClient.DrainsUnaccepted | util/httpclient/httpclient.go:61 | every response drained was a retried, unaccepted one, and the returned response is not drained |
| HttpClient.AlwaysFailing | util/httpclient/httpclient.go:54-71 | always 500, RetryCount 2 and only 200 accepted: three calls, waits of 1 s and 2 s, final 500 |
| HttpClient.RecoversOnSecondCall | util/httpclient/httpclient.go:54-71 | 500 then 200, RetryCount 3 and the default list: two calls, one wait of 1 s, final 200 |
| HttpClient.Globals.constructor | util/httpclient/httpclient.go:13-14 | `AcceptedCode` starts as ["200", "201", "204"] and `RetryCount` as 1 |
| HttpClient.Globals.NewRetryableClient | util/httpclient/httpclient.go:20-44 | `RetryCount` and `AcceptedCode` become the arguments, and nothing else in that state changes |
| HttpClient.Globals.ShouldRetry | util/httpclient/httpclient.go:78-92 | an error is retried, and a response is retried exactly when no entry of `AcceptedCode` parses to its status |
| HttpClient.RetryableTransport.constructor | util/httpclient/httpclient.go:21-23 | the transport wraps the given network transport |
| HttpClient.RetryableTransport.Retry | util/httpclient/httpclient.go:58-68 | one pass waits backoff(retries), drains the response being retried, re-emits the body and sends, which extends the log by exactly one step |
| HttpClient.RetryableTransport.RunRetries | util/httpclient/httpclient.go:56-69 | the loop makes exactly Retries(...) retries under the accept-list rule, and its log is exactly Trace(...) of them |
| HttpClient.RetryableTransport.RoundTrip | util/httpclient/httpclient.go:46-72 | RoundTrip calls the network 1 + Retries(...) times, logs exactly Trace(...) (body replay, waits and drains), returns the last call's outcome, and leaves the body read and the header unchanged |

## Left out

- The network itself. The wrapped `http.Transport` is the oracle `answer`, which is indexed
  by call number. Connections, pooling, proxy URL parsing and `url.UserPassword` are not modelled.
- The client's timeout and `http.Client.Do`. A transport error is taken to reach `main` as
  a nil response. Redirects that `Do` follows are not modelled.
- Real time. `time.Sleep` only logs its duration.
- Stream I/O. A body is the byte sequence it yields. `io.ReadAll`'s error result is dropped,
  as in the source. Draining logs the response's call number; how `io.Copy` and `Close`
  behave is not modelled. `drainBody`'s `resp.Body != nil` test is taken to hold always,
  since a response from `http.Transport` always has a body.
- Clock, network and drained responses share one ordered log, so their interleaving is
  visible. They are otherwise independent of each other.
- Schedule.Backoff: `math.Pow`'s float arithmetic and `time.Duration`'s int64 range are not
  modelled. The wait is the exact integer 2^retries seconds, while Go's overflows once 2^retries
  seconds exceeds the int64 range (from about 34 retries).
- Strconv.Atoi: `strconv.Atoi`'s range check is not modelled. The value is unbounded, where
  Go clamps an out-of-range numeral and reports an error that the source drops.
- The `%v` formatting of header values (main.go:73). Header values are taken as the strings
  given.
- Go's map iteration order over the user headers (main.go:72): the headers are a sequence,
  in whatever order the iteration takes.
- Flag parsing, the JSON decoding of headers, params and body, and query parameter merging
  (main.go:65-69). Also left out: reading, decoding and encoding the response, writing the
  `GITHUB_OUTPUT` file, and `log.Fatalln`'s exit (main.go:94-129). `Execute` stops at the
  accept check and returns how `main` goes on.
- The nil dereference at main.go:85 after a final transport error is a Go panic. It is
  modelled as the exit `NilDereference`, not as a precondition.
- Concurrency. Requests sharing the package variables concurrently are not modelled.
- `http.NewRequest` (main.go:49) and its error are not modelled. A request is created
  with its body and an empty header.
