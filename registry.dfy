/** The `backends` table and `getBackend`: an insert-if-absent cache keyed by Host
    string that runs `setupBackend` at most once per host and never removes an entry. */
module Registry {
  import opened BackendSetup

  /** The table as a value: Host string to the settled promise stored for it. */
  type Table = map<string, Outcome>

  predicate Distinct(s: seq<string>) {
    forall i, j | 0 <= i < j < |s| :: s[i] != s[j]
  }

  /** `getBackend(host)` on a table value, with the table consulted for its own entries
      only: the entry returned and the table afterwards. A stored promise is an object,
      so an own entry always passes the `!backends[host]` test. This is the corrected
      lookup; `LookupAsWritten` below also sees inherited members. */
  function Lookup(config: Config, table: Table, host: string): (r: (Outcome, Table))
    ensures r.1.Keys == table.Keys + {host}
    ensures host in r.1 && r.1[host] == r.0
    ensures forall h | h in table :: r.1[h] == table[h]
    ensures host !in table ==> r.0 == SetupBackend(config, host)
  {
    if host in table then (table[host], table)
    else
      var made := SetupBackend(config, host);
      (made, table[host := made])
  }

  /** The shared `backends` object, with a ghost record of the hosts `setupBackend`
      has been called for, in call order. */
  class Backends {
    const config: Config
    var table: Table
    ghost var setupCalls: seq<string>

    /** Every entry was made by exactly one call of `setupBackend` for its own host. */
    ghost predicate Valid()
      reads this
    {
      && Distinct(setupCalls)
      && (forall h :: h in table <==> h in setupCalls)
      && (forall h | h in table :: table[h] == SetupBackend(config, h))
    }

    /** `const backends = {}` */
    constructor (config: Config)
      ensures this.config == config && table == map[] && setupCalls == []
      ensures Valid()
    {
      this.config := config;
      table := map[];
      setupCalls := [];
    }

    /** `getBackend(host)`: the check and the insertion happen with no suspension point
        in between, so no later call can find the host absent again. */
    method GetBackend(host: string) returns (r: Outcome)
      requires Valid()
      modifies this
      ensures Valid()
      ensures (r, table) == Lookup(config, old(table), host)
      ensures setupCalls == if host in old(table) then old(setupCalls) else old(setupCalls) + [host]
      ensures r == SetupBackend(config, host)
    {
      if host !in table {
        setupCalls := setupCalls + [host];
        table := table[host := SetupBackend(config, host)];
      }
      r := table[host];
    }
  }

  /** What a run of requests sees: the entry each request got, the table at the end,
      and the hosts `setupBackend` ran for, in order. */
  datatype Trace = Trace(outcomes: seq<Outcome>, table: Table, setups: seq<string>)

  /** The `getBackend` calls of requests arriving for `hosts`, in arrival order. The
      handler calls `getBackend` before its first `await`, so concurrent requests reach
      the table one whole call at a time, in this order. */
  function Replay(config: Config, table: Table, hosts: seq<string>): (t: Trace)
    ensures |t.outcomes| == |hosts|
    decreases |hosts|
  {
    if hosts == [] then Trace([], table, [])
    else
      var step := Lookup(config, table, hosts[0]);
      var rest := Replay(config, step.1, hosts[1..]);
      Trace([step.0] + rest.outcomes, rest.table, (if hosts[0] in table then [] else [hosts[0]]) + rest.setups)
  }

  /** Each request gets the entry stored before the run, or else the outcome of the one
      setup for its host: whatever the order, never the result of a second setup. */
  lemma {:induction false} ReplayOutcome(config: Config, table: Table, hosts: seq<string>, i: nat)
    requires i < |hosts|
    ensures Replay(config, table, hosts).outcomes[i]
         == if hosts[i] in table then table[hosts[i]] else SetupBackend(config, hosts[i])
    decreases |hosts|
  {
    if i > 0 {
      var step := Lookup(config, table, hosts[0]);
      ReplayOutcome(config, step.1, hosts[1..], i - 1);
    }
  }

  /** Single flight: all requests for the same host get the identical entry. */
  lemma SameHostSameOutcome(config: Config, table: Table, hosts: seq<string>, i: nat, j: nat)
    requires i < |hosts| && j < |hosts| && hosts[i] == hosts[j]
    ensures Replay(config, table, hosts).outcomes[i] == Replay(config, table, hosts).outcomes[j]
  {
    ReplayOutcome(config, table, hosts, i);
    ReplayOutcome(config, table, hosts, j);
  }

  /** At most once: setup runs for exactly the requested hosts that had no entry, and
      for none of them twice. */
  lemma {:induction false} ReplaySetups(config: Config, table: Table, hosts: seq<string>)
    ensures Distinct(Replay(config, table, hosts).setups)
    ensures forall h :: h in Replay(config, table, hosts).setups <==> h in hosts && h !in table
    decreases |hosts|
  {
    if hosts != [] {
      var step := Lookup(config, table, hosts[0]);
      ReplaySetups(config, step.1, hosts[1..]);
      var rest := Replay(config, step.1, hosts[1..]).setups;
      assert forall h :: h in hosts <==> h == hosts[0] || h in hosts[1..];
      if hosts[0] !in table {
        assert hosts[0] !in rest;
        var s := [hosts[0]] + rest;
        forall i, j | 0 <= i < j < |s| ensures s[i] != s[j] {
          if i > 0 {
            assert s[i] == rest[i - 1] && s[j] == rest[j - 1];
          } else {
            assert s[j] == rest[j - 1];
          }
        }
      }
    }
  }

  /** Nothing is evicted and nothing else changes: the table only gains the requested
      hosts, old entries keep their values, and each new entry is its host's setup. */
  lemma {:induction false} ReplayTable(config: Config, table: Table, hosts: seq<string>)
    ensures Replay(config, table, hosts).table.Keys == table.Keys + set h | h in hosts
    ensures forall h | h in table :: Replay(config, table, hosts).table[h] == table[h]
    ensures forall h | h in Replay(config, table, hosts).table && h !in table ::
      Replay(config, table, hosts).table[h] == SetupBackend(config, h)
    decreases |hosts|
  {
    if hosts != [] {
      var step := Lookup(config, table, hosts[0]);
      ReplayTable(config, step.1, hosts[1..]);
      assert (set h | h in hosts) == {hosts[0]} + set h | h in hosts[1..];
    }
  }

  /** N requests for one host arriving together: setup runs once if the host had no
      entry and not at all otherwise, and every request gets the entry the table keeps. */
  lemma BurstForOneHost(config: Config, table: Table, host: string, hosts: seq<string>)
    requires |hosts| > 0 && forall i | 0 <= i < |hosts| :: hosts[i] == host
    ensures Replay(config, table, hosts).setups == if host in table then [] else [host]
    ensures host in Replay(config, table, hosts).table
    ensures forall i | 0 <= i < |hosts| ::
      Replay(config, table, hosts).outcomes[i] == Replay(config, table, hosts).table[host]
  {
    var t := Replay(config, table, hosts);
    ReplaySetups(config, table, hosts);
    ReplayTable(config, table, hosts);
    assert host in hosts;
    assert forall h | h in t.setups :: h == host;
    assert |t.setups| >= 2 ==> t.setups[0] == host == t.setups[1] by {
      assert forall k | 0 <= k < |t.setups| :: t.setups[k] in t.setups;
    }
    if host !in table {
      assert host in t.setups;
    }
    forall i | 0 <= i < |hosts| ensures t.outcomes[i] == t.table[host] {
      ReplayOutcome(config, table, hosts, i);
    }
  }

  /** A host with no usable configuration fails and the failure stays cached: every
      request for it gets the same failure, the table keeps it, and the setup that made
      it is the only one for that host (the setups are distinct, by `ReplaySetups`). */
  lemma FailureIsCached(config: Config, table: Table, hosts: seq<string>, i: nat)
    requires i < |hosts| && hosts[i] !in table && !Configured(config, hosts[i])
    ensures forall j | 0 <= j < |hosts| && hosts[j] == hosts[i] ::
      Replay(config, table, hosts).outcomes[j] == Failed(UnknownHost(hosts[i]))
    ensures hosts[i] in Replay(config, table, hosts).table
    ensures Replay(config, table, hosts).table[hosts[i]] == Failed(UnknownHost(hosts[i]))
    ensures hosts[i] in Replay(config, table, hosts).setups
  {
    forall j | 0 <= j < |hosts| && hosts[j] == hosts[i]
      ensures Replay(config, table, hosts).outcomes[j] == Failed(UnknownHost(hosts[i]))
    {
      ReplayOutcome(config, table, hosts, j);
    }
    ReplayTable(config, table, hosts);
    ReplaySetups(config, table, hosts);
  }

  /** When the stored entries are those `setupBackend` produced (as `Valid` keeps them),
      what a request gets depends only on its own host, not on the arrival order. */
  lemma OutcomeIndependentOfOrder(config: Config, table: Table, hosts: seq<string>, i: nat)
    requires i < |hosts|
    requires forall h | h in table :: table[h] == SetupBackend(config, h)
    ensures Replay(config, table, hosts).outcomes[i] == SetupBackend(config, hosts[i])
  {
    ReplayOutcome(config, table, hosts, i);
  }

  /** Property names every plain JavaScript object inherits from `Object.prototype`. */
  const ObjectPrototypeKeys: set<string> := {
    "constructor", "hasOwnProperty", "isPrototypeOf", "propertyIsEnumerable",
    "toLocaleString", "toString", "valueOf", "__proto__",
    "__defineGetter__", "__defineSetter__", "__lookupGetter__", "__lookupSetter__"
  }

  /** What `backends[host]` reads on the plain object `{}`: an own entry, an inherited
      member of `Object.prototype` (a function or object, so truthy), or nothing. */
  datatype Slot = Own(outcome: Outcome) | Inherited

  /** `getBackend(host)` as written, including inherited properties of `backends`. */
  function LookupAsWritten(config: Config, table: Table, host: string): (r: (Slot, Table))
    ensures r.0.Inherited? <==> host !in table && host in ObjectPrototypeKeys
    ensures r.0.Inherited? ==> r.1 == table
    ensures r.0.Own? ==> r.1.Keys == table.Keys + {host} && r.1[host] == r.0.outcome
    ensures forall h | h in table :: h in r.1 && r.1[h] == table[h]
  {
    if host in table then (Own(table[host]), table)
    else if host in ObjectPrototypeKeys then (Inherited, table)
    else
      var made := SetupBackend(config, host);
      (Own(made), table[host := made])
  }

  /** What the handler gets from `await getBackend(host)` followed by
      `backend.forward(...)`: an inherited member has no `forward`, so the call throws
      V8's TypeError. */
  function HandlerOutcomeAsWritten(slot: Slot): (r: Outcome)
    ensures r.Failed? <==> slot.Inherited? || slot.outcome.Failed?
    ensures slot.Own? ==> r == slot.outcome
  {
    match slot
    case Own(o) => o
    case Inherited => Failed(Error("backend.forward is not a function"))
  }

  /** A request with `Host: constructor` (or any other inherited name) never reaches
      `setupBackend` as written, and its client is told about a TypeError instead of an
      unknown host; `Lookup`, which consults own entries only, runs the setup. */
  lemma InheritedHostSkipsSetup(config: Config, table: Table, host: string)
    requires host in ObjectPrototypeKeys && host !in table && host !in config.backends
    ensures LookupAsWritten(config, table, host) == (Inherited, table)
    ensures HandlerOutcomeAsWritten(LookupAsWritten(config, table, host).0)
         == Failed(Error("backend.forward is not a function"))
    ensures Lookup(config, table, host).0 == Failed(UnknownHost(host))
    ensures host in Lookup(config, table, host).1
  {
  }

  /** Outside the inherited names the as-written lookup and `Lookup` agree on every
      input: the two differ exactly on a name of `Object.prototype` with no own entry.
      So, as written, `setupBackend` is never asked about an inherited name. */
  lemma LookupAsWrittenAgrees(config: Config, table: Table, host: string)
    requires host in table || host !in ObjectPrototypeKeys
    ensures LookupAsWritten(config, table, host)
         == (Own(Lookup(config, table, host).0), Lookup(config, table, host).1)
  {
  }
}
