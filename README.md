# webd core in Dafny

webd is an HTTP super-server: it routes every inbound request, by its Host header, to a
configured backend and relays the backend's answer. This project models the sequential
logic of `webd.js`:

- **the backend registry** (`getBackend`, `setupBackend`): a table keyed by the raw Host
  string. The first request for a host stores the promise `setupBackend(host)` returns,
  with no suspension point between the check and the insertion; every later request
  gets that stored entry. `setupBackend` fails with `Unknown host: <host>` when
  `config.backends[host]` is falsy. Nothing is ever removed, so a failure stays cached.
- **the option merge** (`connectionOptions` and the options of the outbound request):
  object spread modelled as right-biased map union over JavaScript values.
- **the front door** (the request handler): routing on the raw Host header, the relay
  of the backend's head and body, and the `catch` block that writes a 500 plain-text
  head only when no head was sent, then `webd error: ` and the message, then ends.

Modules, one per concern: `JsValues` (values, truthiness, property access, spread),
`BackendSetup` (configuration, `setupBackend`), `Options` (the merges), `Registry` (the
table as a class and as a value, arrival-order traces and their lemmas), `FrontDoor`
(response state, the `ServerResponse` class, the handler).

`setupBackend` contains no `await`, so the promise it returns is already settled when
`getBackend` stores it; an entry is modelled as the settled `Outcome`. The handler calls
`getBackend` before its first `await`, so requests that arrive together reach the table
one whole call at a time, in arrival order: `Registry.Replay` runs the calls of any
arrival order, and its lemmas hold for every order. The class `Registry.Backends` keeps a
ghost list of the hosts `setupBackend` was called for, and its invariant says each
entry came from exactly one such call.

Behaviour of `webd.js` worth stating on its own:

- A failed setup is never removed from the table, so later requests for that host get
  the cached failure without a new setup.
- When the head was already sent, the `catch` block still writes `webd error: ` and the
  message, then ends the response. The error body always starts with `webd error: `.
- The client's own Host header is passed on to the backend, because the inbound
  headers are copied and `setHost: false` stops Node from setting its own
  (`Options.InboundHostHeaderForwarded`).
- `webd.js` starts no processes and has no liveness probe, idle timer, crash handling
  or orchestrated shutdown, so none of these is modelled.
- A request without a Host header is routed under the string "undefined": both the
  key `backends[host]` and the template literal of the error text turn the missing
  header into that string.

## Model

| member | source | states |
|---|---|---|
| `BackendSetup.SetupBackend` | webd.js:36-47 | fails exactly when the host's entry in `config.backends` is missing or falsy, with the error `Unknown host: ` followed by the host; otherwise yields a backend that forwards to that host |
| `BackendSetup.UnknownHostNamesHost` | webd.js:39 | the unknown-host message ends with the host it was asked for |
| `Options.ConnectionOptions` | webd.js:12-16 | keys are `host`, `protocol` and the configured keys; every configured key keeps its configured value; `host` is `localhost` and `protocol` is `http:` unless configured |
| `Options.OutboundOptions` | webd.js:20-26 | `setHost` is always false; every other configured key wins with its value; `method`, `path` and `headers` come from the inbound request and `host`/`protocol` from the defaults unless configured; no other keys |
| `Options.InboundHostHeaderForwarded` | webd.js:20-26 | unless `headers` is configured, the outbound headers carry the inbound Host header unchanged |
| `Registry.Lookup` | webd.js:51-56 | the table gains the key `host` and no other; every existing entry, the host's own included, is unchanged and is what is returned; a new entry is the host's setup outcome |
| `Registry.Backends.constructor` | webd.js:49 | the table starts empty, with no setup run |
| `Registry.Backends.GetBackend` | webd.js:51-56 | the new table and the returned entry are those of `Lookup`; a setup is recorded only when the host had no entry; the invariant (one setup per entry, no host twice) is kept; the entry is the host's setup outcome |
| `Registry.ReplayOutcome` | webd.js:51-56 | in any arrival order, each request gets the entry stored before, or else the outcome of its host's single setup |
| `Registry.SameHostSameOutcome` | webd.js:51-56 | all requests for the same host get the identical entry |
| `Registry.ReplaySetups` | webd.js:52-54 | setup runs for exactly the requested hosts that had no entry, and for none of them twice |
| `Registry.ReplayTable` | webd.js:49-56 | the table only gains the requested hosts; entries are never evicted or changed; each new entry is its host's setup outcome |
| `Registry.BurstForOneHost` | webd.js:51-56 | N requests for one host run setup once if it had no entry and never otherwise, and all get the entry the table keeps |
| `Registry.FailureIsCached` | webd.js:36-56 | an unconfigured host's failure is stored, every request for it gets that same failure, and its setup ran |
| `Registry.OutcomeIndependentOfOrder` | webd.js:58-61 | with entries made by setup, what a request gets depends only on its own host and not on the arrival order |
| `Registry.LookupAsWritten` | webd.js:51-56 | as written, a name of an `Object.prototype` member with no own entry finds an inherited value and leaves the table alone; otherwise the host is added and every existing entry kept |
| `Registry.HandlerOutcomeAsWritten` | webd.js:61-62 | the handler fails exactly when the lookup found an inherited value or a failed entry; an own entry is passed on unchanged |
| `Registry.LookupAsWrittenAgrees` | webd.js:51-56 | except on a name of an `Object.prototype` member with no own entry, the as-written lookup and `Lookup` return the same entry and table |
| `Registry.InheritedHostSkipsSetup` | webd.js:51-56 | as written, a host named like an `Object.prototype` member finds an inherited value and never reaches setup, so the handler fails with a TypeError; `Lookup` runs the setup and answers unknown host |
| `FrontDoor.ErrorRendered` | webd.js:63-69 | the response ends; its body gains `webd error: ` and the message; the head is the 500 plain-text head if none was sent, and an earlier head is kept |
| `FrontDoor.RenderError` | webd.js:63-69 | the response object's writes leave it in the state `ErrorRendered` describes |
| `FrontDoor.ServerResponse.WriteHead` | webd.js:65 | records the head, once |
| `FrontDoor.ServerResponse.Write` | webd.js:67 | appends the chunk to the body (after Node's implicit head if none was sent) |
| `FrontDoor.ServerResponse.End` | webd.js:68 | appends the last chunk and ends the response |
| `FrontDoor.Forwarded` | webd.js:28-33 | on an answer, the head written is the backend's status code, reason phrase and raw headers, the body is the backend's body and the response ends; on a transport failure nothing is written |
| `FrontDoor.ForwardHttpRequest` | webd.js:18-34 | the request is issued with `OutboundOptions`; a transport failure is reported; otherwise the response is left as `Forwarded` describes |
| `FrontDoor.Respond` | webd.js:58-70 | every path ends the response with a head: on a setup or transport failure the 500 plain-text head and `webd error: ` with the failure's message, otherwise the backend's head and body |
| `FrontDoor.RoutingKeyIsRawHostHeader` | webd.js:60 | the routing key is the Host header exactly as received, or the string "undefined" when the request has none |
| `FrontDoor.MissingHostHeaderAnswered` | webd.js:39 | a request without a Host header is stored under "undefined" and, with no backend of that name, is answered 500 `webd error: Unknown host: undefined` |
| `FrontDoor.UnknownHostAnswered` | webd.js:58-69 | a request for an unconfigured host gets a 500 plain-text answer `webd error: Unknown host: ` and the host |
| `FrontDoor.Handle` | webd.js:58-70 | the table changes as `Lookup` says and keeps its invariant; the outbound request is issued, with `OutboundOptions`, exactly when setup succeeded; the response ends as `Respond` says |

## Findings

| source | as written | input that shows it | evidently intended | confidence | as-written member | corrected member |
|---|---|---|---|---|---|---|
| webd.js:51-56 | `!backends[host]` on the plain object `{}` also reads members inherited from `Object.prototype`; they are truthy, so setup is skipped and `getBackend` returns that member, whose missing `forward` makes the handler answer `webd error: backend.forward is not a function` | a request with `Host: constructor` (or `__proto__`, `toString`, `valueOf`, ...) | both lookups, `backends[host]` and `config.backends[host]` (webd.js:37), read own entries only: setup runs and the client gets `webd error: Unknown host: constructor` (correcting `getBackend` alone would let `setupBackend` find the inherited member and forward to `localhost`) | not executed; the TypeError text is V8's wording | `Registry.LookupAsWritten`, `Registry.InheritedHostSkipsSetup` | `Registry.Lookup` |

## Left out

- `http.createServer`, `server.listen` and `http.request` (webd.js:20, 58, 71) are network I/O: the backend's answer is a parameter (`FrontDoor.Reply`) and the outbound request is returned as its options.
- Streaming and backpressure (`ireq.pipe(oreq)`, `ores.pipe(ires)`): the request body is not modelled and the backend's body is relayed as one chunk followed by the end.
- Promise timing: `forwardHttpRequest` resolves once the head arrives and the body streams afterwards; the model writes the head and body in one step. Interleavings other than the order of `getBackend` calls are not modelled.
- Loading the configuration from `process.argv` and the usage exit (webd.js:4-8): the configuration is an immutable input.
- Spawning, liveness probing, idle shutdown, crash eviction and shutdown orchestration: not present in `webd.js`.
- `JsValues.Spread`: a string or array `connectionOptions` spreads as index keys in JavaScript; the model gives no keys for it.
- `JsValues.Value`: numbers are integers, so NaN and fractions (and the falsiness of NaN) are not modelled.
- `JsValues.Property`: built-in properties of strings and arrays (such as `length`) are not modelled.
- `Options.IncomingRequest`: header values are single strings; Node's arrays for repeated `set-cookie` headers are not modelled, and neither is the key order of option objects.
- `FrontDoor.ServerResponse.WriteHead`: Node's validation of status codes and header characters is not modelled. For the forwarded head (webd.js:29) such a throw happens in the `'response'` listener, after the promise executor has returned, so it would escape as an uncaught exception and never reach the `catch` block.
- `FrontDoor.ForwardHttpRequest`: `http.request` validates its options synchronously (a configured `protocol: 'https:'`, for one), which rejects the promise before any request is issued; the model can express this only as a `TransportError` reply, while `ForwardHttpRequest` and `Handle` still report the options as sent.
- `BackendSetup.Entry`: reads the own keys of `config.backends` only, as the corrected lookup needs; JavaScript's lookup also sees `Object.prototype` members. As written this never matters, because `getBackend` never passes such a name to `setupBackend` (`Registry.LookupAsWrittenAgrees`).
- `FrontDoor.ForwardHttpRequest`: requires a response with nothing written yet, which is the only state the handler calls it in.
- `FrontDoor.RenderError`: requires a response not yet ended, which holds for every failure the `catch` block can see; a thrown value without a string `message` is not modelled.
