/** The request handler given to `http.createServer`: it routes on the raw Host header,
    relays the request to the backend, and renders any failure into the response. The
    network is a parameter: what the backend answers is given as a `Reply`. */
module FrontDoor {
  import opened JsValues
  import opened BackendSetup
  import opened Options
  import opened Registry

  datatype Option<T> = None | Some(value: T)

  /** A response head: status code, reason phrase (None for Node's default phrase) and
      the header list as a flat array of names and values. */
  datatype Head = Head(statusCode: int, statusMessage: Option<string>, rawHeaders: seq<string>)

  /** What has been written to a `ServerResponse`: the head once sent, the body bytes
      written so far, and whether the response was ended. */
  datatype ResponseState = ResponseState(head: Option<Head>, body: string, ended: bool) {
    /** `res.headersSent` */
    predicate HeadersSent() {
      head.Some?
    }
  }

  /** A response as Node hands it to the handler. */
  const Unwritten := ResponseState(None, "", false)

  /** The head Node sends when the body is written before any head. */
  const ImplicitHead := Head(200, None, [])

  /** `res.writeHead(500, ['content-type', 'text/plain'])` */
  const ErrorHead := Head(500, None, ["content-type", "text/plain"])

  /** `res.writeHead(h)`: Node refuses a second head. */
  function WithHead(s: ResponseState, h: Head): ResponseState
    requires !s.HeadersSent()
  {
    s.(head := Some(h))
  }

  /** `res.write(chunk)` on a response that is not yet ended. */
  function WithChunk(s: ResponseState, chunk: string): ResponseState
    requires !s.ended
  {
    ResponseState(if s.HeadersSent() then s.head else Some(ImplicitHead), s.body + chunk, false)
  }

  /** `res.end(chunk)`: the last write, then the response is complete. */
  function Finished(s: ResponseState, chunk: string): ResponseState
    requires !s.ended
  {
    WithChunk(s, chunk).(ended := true)
  }

  /** The writes of the `catch` block, as one transition: a 500 plain-text head only if
      no head was sent yet (an earlier head is never replaced), then `webd error: ` and
      the message appended to the body in every case, then the end of the response. */
  function ErrorRendered(s: ResponseState, message: string): (r: ResponseState)
    requires !s.ended
    ensures r.ended
    ensures r.body == s.body + "webd error: " + message
    ensures !s.HeadersSent() ==> r.head == Some(ErrorHead)
    ensures s.HeadersSent() ==> r.head == s.head
  {
    var headed := if s.HeadersSent() then s else WithHead(s, ErrorHead);
    Finished(WithChunk(headed, "webd error: "), message)
  }

  /** What the backend does with the outbound request: it answers with a head and a
      body, or the request fails in transport. */
  datatype Reply =
    | Responded(statusCode: int, statusMessage: string, rawHeaders: seq<string>, body: string)
    | TransportError(error: Error)

  /** What `forwardHttpRequest` writes: on an answer, the backend's status code, reason
      phrase and raw headers verbatim, then its body, then the end; on a transport
      failure, nothing (the promise rejects instead). */
  function Forwarded(s: ResponseState, reply: Reply): (r: ResponseState)
    requires !s.HeadersSent() && !s.ended
    ensures reply.TransportError? ==> r == s
    ensures reply.Responded? ==>
      r == ResponseState(Some(Head(reply.statusCode, Some(reply.statusMessage), reply.rawHeaders)), s.body + reply.body, true)
  {
    match reply
    case TransportError(_) => s
    case Responded(code, reason, raw, body) =>
      Finished(WithChunk(WithHead(s, Head(code, Some(reason), raw)), body), "")
  }

  /** The whole handler on a response nobody has written to, given the entry
      `getBackend` returned and the backend's reply. Every path ends the response with a
      head: the backend's own on success, the 500 error head on any failure, with the
      failure's message after `webd error: `. */
  function Respond(s: ResponseState, outcome: Outcome, reply: Reply): (r: ResponseState)
    requires !s.HeadersSent() && !s.ended
    ensures r.ended && r.HeadersSent()
    ensures outcome.Failed? ==>
      r == ResponseState(Some(ErrorHead), s.body + "webd error: " + outcome.error.message, true)
    ensures outcome.Ready? && reply.TransportError? ==>
      r == ResponseState(Some(ErrorHead), s.body + "webd error: " + reply.error.message, true)
    ensures outcome.Ready? && reply.Responded? ==>
      r == ResponseState(Some(Head(reply.statusCode, Some(reply.statusMessage), reply.rawHeaders)), s.body + reply.body, true)
  {
    match outcome
    case Failed(e) => ErrorRendered(s, e.message)
    case Ready(_) =>
      match reply
      case TransportError(e) => ErrorRendered(Forwarded(s, reply), e.message)
      case Responded(_, _, _, _) => Forwarded(s, reply)
  }

  /** `req.headers['host']`: the header as received, or undefined when the request
      has none. */
  function HostHeader(req: IncomingRequest): (v: Value)
    ensures v.Str? || v.Undefined?
  {
    if "host" in req.headers then Str(req.headers["host"]) else Undefined
  }

  /** The string `backends[host]` uses as its key. `setupBackend`'s template literal
      `${host}` applies the same conversion, so the key and the host named in the
      error text are one string. */
  function RoutingKey(req: IncomingRequest): string {
    ToJsString(HostHeader(req))
  }

  /** The routing key is the Host header exactly as received, case included; without
      the header it is the string "undefined". */
  lemma RoutingKeyIsRawHostHeader(req: IncomingRequest)
    ensures "host" in req.headers ==> RoutingKey(req) == req.headers["host"]
    ensures "host" !in req.headers ==> RoutingKey(req) == "undefined"
  {
  }

  /** A request without a Host header is stored under "undefined" and, when no backend
      is configured under that name and none is stored yet, is answered
      `webd error: Unknown host: undefined`. */
  lemma MissingHostHeaderAnswered(config: Config, table: Table, req: IncomingRequest, reply: Reply)
    requires "host" !in req.headers && "undefined" !in table && !Configured(config, "undefined")
    ensures Lookup(config, table, RoutingKey(req)).1.Keys == table.Keys + {"undefined"}
    ensures Respond(Unwritten, Lookup(config, table, RoutingKey(req)).0, reply)
         == ResponseState(Some(ErrorHead), "webd error: Unknown host: undefined", true)
  {
  }

  /** A request for a host without usable configuration is answered 500, plain text,
      `webd error: Unknown host: ` and the host, whatever the network would have done. */
  lemma UnknownHostAnswered(config: Config, req: IncomingRequest, reply: Reply)
    requires !Configured(config, RoutingKey(req))
    ensures Respond(Unwritten, SetupBackend(config, RoutingKey(req)), reply)
         == ResponseState(Some(ErrorHead), "webd error: Unknown host: " + RoutingKey(req), true)
  {
  }

  /** The `ServerResponse` object the handler writes to. */
  class ServerResponse {
    var head: Option<Head>
    var body: string
    var ended: bool

    function State(): ResponseState
      reads this
    {
      ResponseState(head, body, ended)
    }

    predicate HeadersSent()
      reads this
    {
      State().HeadersSent()
    }

    constructor ()
      ensures State() == Unwritten
    {
      head, body, ended := None, "", false;
    }

    method WriteHead(h: Head)
      requires !HeadersSent()
      modifies this
      ensures State() == WithHead(old(State()), h)
    {
      head := Some(h);
    }

    method Write(chunk: string)
      requires !ended
      modifies this
      ensures State() == WithChunk(old(State()), chunk)
    {
      if head.None? {
        head := Some(ImplicitHead);
      }
      body := body + chunk;
    }

    method End(chunk: string)
      requires !ended
      modifies this
      ensures State() == Finished(old(State()), chunk)
    {
      Write(chunk);
      ended := true;
    }
  }

  /** The `catch` block: the error head only when no head was sent, then the error
      text, then the end. */
  method RenderError(res: ServerResponse, message: string)
    requires !res.ended
    modifies res
    ensures res.State() == ErrorRendered(old(res.State()), message)
  {
    if !res.HeadersSent() {
      res.WriteHead(ErrorHead);
    }
    res.Write("webd error: ");
    res.End(message);
  }

  /** `forwardHttpRequest(host, ireq, ires)`: issues the outbound request with the
      merged options and relays the answer, or reports the transport failure. */
  method ForwardHttpRequest(config: Config, host: string, req: IncomingRequest, res: ServerResponse, reply: Reply)
    returns (options: map<string, Value>, failure: Option<Error>)
    requires !Nullish(Entry(config, host))
    requires !res.HeadersSent() && !res.ended
    modifies res
    ensures options == OutboundOptions(config, host, req)
    ensures failure == if reply.TransportError? then Some(reply.error) else None
    ensures res.State() == Forwarded(old(res.State()), reply)
  {
    options := OutboundOptions(config, host, req);
    match reply
    case TransportError(e) =>
      failure := Some(e);
    case Responded(code, reason, raw, answer) =>
      res.WriteHead(Head(code, Some(reason), raw));
      res.Write(answer);
      res.End("");
      failure := None;
  }

  /** The handler given to `http.createServer`. It returns the options of the outbound
      request it issued, if it got that far. */
  method Handle(backends: Backends, res: ServerResponse, req: IncomingRequest, reply: Reply)
    returns (sent: Option<map<string, Value>>)
    requires backends.Valid()
    requires res.State() == Unwritten
    modifies backends, res
    ensures backends.Valid()
    ensures backends.table == Lookup(backends.config, old(backends.table), RoutingKey(req)).1
    ensures var outcome := SetupBackend(backends.config, RoutingKey(req));
      && sent == (if outcome.Ready? then Some(OutboundOptions(backends.config, RoutingKey(req), req)) else None)
      && res.State() == Respond(Unwritten, outcome, reply)
  {
    var host := RoutingKey(req);
    var outcome := backends.GetBackend(host);
    match outcome
    case Failed(e) =>
      sent := None;
      RenderError(res, e.message);
    case Ready(backend) =>
      var options, failure := ForwardHttpRequest(backends.config, backend.host, req, res, reply);
      sent := Some(options);
      if failure.Some? {
        RenderError(res, failure.value.message);
      }
  }
}
