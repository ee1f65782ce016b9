/** The configuration the server is started with and `setupBackend`, which turns a
    Host string into a backend or into the "unknown host" failure. */
module BackendSetup {
  import opened JsValues

  /** The loaded configuration; the core reads only its `backends` table, keyed by
      Host string. It never changes while the server runs. */
  datatype Config = Config(backends: map<string, Value>)

  /** `config.backends[host]`: a host without an entry reads as undefined. */
  function Entry(config: Config, host: string): Value {
    if host in config.backends then config.backends[host] else Undefined
  }

  /** A host that `setupBackend` accepts: its entry passes the `!backendConfig` test. */
  predicate Configured(config: Config, host: string) {
    Truthy(Entry(config, host))
  }

  datatype Error = Error(message: string)

  /** The object `setupBackend` resolves to: its `forward` relays requests to `host`. */
  datatype Backend = Backend(host: string)

  /** The settled state of the promise `setupBackend` returns. */
  datatype Outcome = Ready(backend: Backend) | Failed(error: Error)

  function UnknownHost(host: string): Error {
    Error("Unknown host: " + host)
  }

  /** `setupBackend(host)`. It has no `await`, so its promise is settled as soon as the
      call returns. */
  function SetupBackend(config: Config, host: string): (r: Outcome)
    ensures r.Failed? <==> !Configured(config, host)
    ensures r.Failed? ==> r.error == UnknownHost(host)
    ensures r.Ready? ==> r.backend.host == host && !Nullish(Entry(config, host))
  {
    if !Configured(config, host) then Failed(UnknownHost(host)) else Ready(Backend(host))
  }

  /** The failure names the host it was asked for, after a fixed prefix. */
  lemma UnknownHostNamesHost(config: Config, host: string)
    requires !Configured(config, host)
    ensures var m := SetupBackend(config, host).error.message;
      |m| == |"Unknown host: "| + |host| && m[|"Unknown host: "|..] == host
  {
  }
}
