/** The environment the retrying transport works in: requests whose body is a stream that
    can be read once, and what lies beyond the transport - the wrapped network transport (an
    oracle that answers each call), the clock `time.Sleep` waits on, and the response bodies
    `drainBody` reads - seen together as one log of events in the order they happen. */
module Http {
  import opened Strconv

  /** A Go `byte`. */
  type byte = bv8

  datatype Option<T> = None | Some(value: T)

  /** What the network yields for one call: no response at all (a transport error -
      connection refused, timeout, ...) or a response with a status code. */
  datatype Reply = NoResponse | Status(code: int)

  /** The `(resp, err)` pair a round trip returns: `Err` is `(nil, err)`, `Resp` is
      `(resp, nil)` for the `*http.Response` that network call number `id` produced. */
  datatype Outcome = Err | Resp(id: nat, status: int) {
    /** What `shouldRetry(err, resp)` looks at: whether err is set, and the status code. */
    function View(): Reply {
      match this
      case Err => NoResponse
      case Resp(_, status) => Status(status)
    }
  }

  /** The outcome of network call number i when the network answers `answer`. */
  function Answered(answer: nat -> Reply, i: nat): (o: Outcome)
    ensures o.View() == answer(i)
    ensures o.Resp? ==> o.id == i
  {
    match answer(i)
    case NoResponse => Err
    case Status(code) => Resp(i, code)
  }

  /** What the transport can be seen to do: send a request whose body yielded `body` and get
      `outcome` back, sleep `d` nanoseconds, or read the body of response `id` to its end and
      close it. */
  datatype Event = Send(body: Option<seq<byte>>, outcome: Outcome) | Slept(d: nat) | Drained(id: nat)

  /** A body stream after it has been read to its end; a nil body stays nil. */
  function Consumed(body: Option<seq<byte>>): (c: Option<seq<byte>>)
    ensures c.None? <==> body.None?
    ensures c.Some? ==> c.value == []
  {
    if body.None? then None else Some([])
  }

  /** An `*http.Request`: its header map and the bytes its `Body` has still to yield
      (`None` for a nil Body). */
  class Request {
    var header: map<string, string>
    var body: Option<seq<byte>>

    constructor (body: Option<seq<byte>>)
      ensures header == map[] && this.body == body
    {
      header := map[];
      this.body := body;
    }
  }

  /** The world beyond the retrying transport. Network call number i is answered by
      `answer(i)`; `sends` counts the calls made; `events` logs everything done, oldest
      first. */
  class Env {
    const answer: nat -> Reply
    var sends: nat
    var events: seq<Event>

    constructor (answer: nat -> Reply)
      ensures this.answer == answer && sends == 0 && events == []
    {
      this.answer := answer;
      sends := 0;
      events := [];
    }

    /** The wrapped `http.RoundTripper`: it reads the request body to its end to send it. */
    method RoundTrip(req: Request) returns (o: Outcome)
      modifies this, req
      ensures o == Answered(answer, old(sends)) && sends == old(sends) + 1
      ensures events == old(events) + [Send(old(req.body), o)]
      ensures req.body == Consumed(old(req.body)) && req.header == old(req.header)
    {
      match answer(sends) {
        case NoResponse =>
          o := Err;
        case Status(code) =>
          o := Resp(sends, code);
      }
      events := events + [Send(req.body, o)];
      req.body := Consumed(req.body);
      sends := sends + 1;
    }

    /** `time.Sleep(d)`. */
    method Sleep(d: nat)
      modifies this
      ensures events == old(events) + [Slept(d)] && sends == old(sends)
    {
      events := events + [Slept(d)];
    }

    /** `drainBody(resp)`: read a response's body to its end and close it, so that its
        connection can be reused; nothing to do when there is no response. Identical in
        main.go and util/httpclient/httpclient.go. */
    method DrainBody(o: Outcome)
      modifies this
      ensures events == old(events) + DrainOf(o) && sends == old(sends)
    {
      if o.Resp? {
        events := events + [Drained(o.id)];
      }
    }
  }

  /** The events `drainBody` leaves for an outcome. */
  function DrainOf(o: Outcome): seq<Event> {
    if o.Resp? then [Drained(o.id)] else []
  }

  /** A status is on an acceptance list when some entry of the list parses to it. */
  predicate Listed(entries: seq<string>, status: int) {
    exists i :: 0 <= i < |entries| && Atoi(entries[i]) == status
  }
}
