/** The option objects `forwardHttpRequest` builds by object spread: the backend's
    connection target and the whole outbound request. A spread is a right-biased map
    union, so later keys override earlier ones. */
module Options {
  import opened JsValues
  import opened BackendSetup

  /** The parts of an inbound request the relay reads. Header names are the lower-case
      names Node gives them. */
  datatype IncomingRequest = IncomingRequest(httpMethod: string, url: string, headers: map<string, string>)

  /** The keys `...config.backends[host].connectionOptions` contributes. */
  function ConfiguredOptions(config: Config, host: string): map<string, Value>
    requires !Nullish(Entry(config, host))
  {
    Spread(Property(Entry(config, host), "connectionOptions"))
  }

  const Defaults: map<string, Value> := map["host" := Str("localhost"), "protocol" := Str("http:")]

  /** `connectionOptions(host)`: the defaults, overridden key by key by the backend's
      configured `connectionOptions`. */
  function ConnectionOptions(config: Config, host: string): (r: map<string, Value>)
    requires !Nullish(Entry(config, host))
    ensures r.Keys == {"host", "protocol"} + ConfiguredOptions(config, host).Keys
    ensures forall k | k in ConfiguredOptions(config, host) :: r[k] == ConfiguredOptions(config, host)[k]
    ensures "host" !in ConfiguredOptions(config, host) ==> r["host"] == Str("localhost")
    ensures "protocol" !in ConfiguredOptions(config, host) ==> r["protocol"] == Str("http:")
  {
    Defaults + ConfiguredOptions(config, host)
  }

  /** `ireq.headers` as the object handed on to the outbound request. */
  function HeadersObject(headers: map<string, string>): Value {
    Obj(map k | k in headers :: Str(headers[k]))
  }

  /** The keys taken from the inbound request. */
  function RequestOptions(req: IncomingRequest): map<string, Value> {
    map["method" := Str(req.httpMethod), "path" := Str(req.url), "headers" := HeadersObject(req.headers)]
  }

  /** The object passed to `http.request`: the inbound method, path and headers, then
      the connection options, then `setHost: false`. */
  function OutboundOptions(config: Config, host: string, req: IncomingRequest): (r: map<string, Value>)
    requires !Nullish(Entry(config, host))
    ensures r.Keys == {"method", "path", "headers", "host", "protocol", "setHost"} + ConfiguredOptions(config, host).Keys
    ensures r["setHost"] == Bool(false)
    ensures forall k | k in ConfiguredOptions(config, host) && k != "setHost" :: r[k] == ConfiguredOptions(config, host)[k]
    ensures "method" !in ConfiguredOptions(config, host) ==> r["method"] == Str(req.httpMethod)
    ensures "path" !in ConfiguredOptions(config, host) ==> r["path"] == Str(req.url)
    ensures "headers" !in ConfiguredOptions(config, host) ==> r["headers"] == HeadersObject(req.headers)
    ensures "host" !in ConfiguredOptions(config, host) ==> r["host"] == Str("localhost")
    ensures "protocol" !in ConfiguredOptions(config, host) ==> r["protocol"] == Str("http:")
  {
    RequestOptions(req) + ConnectionOptions(config, host) + map["setHost" := Bool(false)]
  }

  /** With `setHost: false` and the inbound headers passed on, the backend receives the
      client's own Host header unchanged, unless the configuration replaces `headers`. */
  lemma InboundHostHeaderForwarded(config: Config, host: string, req: IncomingRequest)
    requires !Nullish(Entry(config, host))
    requires "headers" !in ConfiguredOptions(config, host) && "host" in req.headers
    ensures var h := OutboundOptions(config, host, req)["headers"];
      h.Obj? && "host" in h.fields && h.fields["host"] == Str(req.headers["host"])
  {
  }
}
