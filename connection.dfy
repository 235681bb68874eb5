/** `PlanetScaleConnection`, the adapter between one query-builder
    connection and the wrapped client, and the registry of shared
    connections it consults. */
module Connection {
  import opened Types
  import opened Queries
  import opened Results
  import opened Wire
  import opened Transactions

  /** `sharedConnections`: at most one connection per configuration object. */
  class Registry {
    var entries: map<Config, ConnId>

    constructor ()
      ensures entries == map[]
    {
      entries := map[];
    }
  }

  /** `map.get(key)`. */
  function Lookup(entries: map<Config, ConnId>, key: Config): (r: Option<ConnId>)
    ensures r.Some? <==> key in entries
    ensures r.Some? ==> r.value == entries[key]
  {
    if key in entries then Some(entries[key]) else None
  }

  /** `map.set(key, map.get(key) ?? candidate)`: the entry is created when
      absent and otherwise left as it is. */
  function Register(entries: map<Config, ConnId>, key: Config, candidate: ConnId): (r: map<Config, ConnId>)
    // afterwards the configuration has an entry, and no other key is added
    ensures r.Keys == entries.Keys + {key}
    // every entry already present keeps its connection
    ensures forall k :: k in entries ==> r[k] == entries[k]
    // a new entry holds the candidate
    ensures key !in entries ==> r[key] == candidate
  {
    entries[key := if key in entries then entries[key] else candidate]
  }

  /** An existing entry is never replaced, and registering twice is
      registering once. */
  lemma RegisterNeverReplaces(entries: map<Config, ConnId>, key: Config, first: ConnId, second: ConnId)
    ensures key in entries ==> Register(entries, key, first) == entries
    ensures Lookup(Register(entries, key, first), key) == Some(if key in entries then entries[key] else first)
    ensures Register(Register(entries, key, first), key, second) == Register(entries, key, first)
  {
  }

  /** Registering one configuration leaves every other entry alone. */
  lemma RegisterKeepsOthers(entries: map<Config, ConnId>, key: Config, candidate: ConnId, other: Config)
    requires other != key
    ensures Lookup(Register(entries, key, candidate), other) == Lookup(entries, other)
  {
  }

  /** Two adapters in shared mode over the same configuration, with no
      transaction open, send their queries to one and the same connection:
      the one registered earlier, or the first adapter's candidate when
      there was none. */
  lemma SharedModeSharesConnection(entries: map<Config, ConnId>, key: Config, first: ConnId, second: ConnId)
    ensures var once := Register(entries, key, first); var twice := Register(once, key, second);
      Route(None, true, Lookup(once, key)) == Route(None, true, Lookup(twice, key))
        == ViaConnection(if key in entries then entries[key] else first)
  {
    RegisterNeverReplaces(entries, key, first, second);
  }

  class PlanetScaleConnection {
    const client: Client
    const registry: Registry
    const useSharedConnection: bool
    var transactionConn: Option<ConnId>

    /** The held transaction connection is one the client handed out. */
    ghost predicate Valid()
      reads this, client.backend
    {
      Issued(State())
    }

    /** The state this adapter shares with its database. */
    ghost function State(): TxState
      reads this, client.backend
    {
      TxState(transactionConn, client.backend.issued, client.backend.log)
    }

    /** Shared mode is on only when asked for and not for a transaction; in
        shared mode the registry gets a connection for the client's
        configuration unless it has one already. Nothing else is touched,
        and no statement is sent. */
    constructor (client: Client, registry: Registry, useSharedConnection: bool, isForTransaction: bool)
      modifies if useSharedConnection && !isForTransaction then {registry, client.backend} else {}
      ensures this.client == client && this.registry == registry
      ensures this.useSharedConnection == (useSharedConnection && !isForTransaction)
      ensures transactionConn == None && Valid()
      ensures client.backend.log == old(client.backend.log)
      ensures registry.entries ==
        if this.useSharedConnection then Register(old(registry.entries), client.config, old(client.backend.issued))
        else old(registry.entries)
      ensures client.backend.issued ==
        if this.useSharedConnection && client.config !in old(registry.entries) then old(client.backend.issued) + 1
        else old(client.backend.issued)
    {
      this.client := client;
      this.registry := registry;
      this.useSharedConnection := useSharedConnection && !isForTransaction;
      transactionConn := None;
      new;
      if this.useSharedConnection {
        var existing := Lookup(registry.entries, client.config);
        var conn: ConnId;
        if existing.Some? {
          conn := existing.value;
        } else {
          conn := client.Connection();
        }
        registry.entries := registry.entries[client.config := conn];
      }
    }

    /** `execute(compiledQuery, conn)`, with `conn` named by `via`. */
    method Execute(query: CompiledQuery, via: Target) returns (r: Result<QueryResult>)
      modifies client.backend
      ensures client.backend.issued == old(client.backend.issued)
      ensures (client.backend.log, r) ==
        ExecuteOn(client.backend.server, old(client.backend.log), client.config.hasFormat, via, query)
    {
      var parameters := RewriteParams(client.config.hasFormat, query.parameters);
      if parameters.Err? {
        return parameters.PropagateFailure();
      }
      var reply := client.Execute(via, query.sql, parameters.value);
      r := Settle(reply);
    }

    /** `executeQuery(compiledQuery)`: one `execute` on the target `Route` picks. */
    method ExecuteQuery(query: CompiledQuery) returns (r: Result<QueryResult>)
      requires Valid()
      modifies client.backend
      ensures Valid()
      ensures client.backend.issued == old(client.backend.issued)
      ensures var via := Route(transactionConn, useSharedConnection, Lookup(registry.entries, client.config));
        (client.backend.log, r) == ExecuteOn(client.backend.server, old(client.backend.log), client.config.hasFormat, via, query)
    {
      if transactionConn.Some? {
        r := Execute(query, ViaConnection(transactionConn.value));
      } else if useSharedConnection {
        var shared := Lookup(registry.entries, client.config);
        r := Execute(query, if shared.Some? then ViaConnection(shared.value) else ViaClient);
      } else {
        r := Execute(query, ViaClient);
      }
    }

    /** `beginTransaction(settings)`: the step `Begin`. */
    method BeginTransaction(settings: TransactionSettings) returns (r: Outcome)
      requires Valid()
      modifies this, client.backend
      ensures Valid()
      ensures (State(), r) == Begin(old(State()), client.backend.server, settings.isolationLevel)
    {
      if transactionConn.None? {
        var id := client.Connection();
        transactionConn := Some(id);
      }
      var conn := ViaConnection(transactionConn.value);
      if settings.isolationLevel.Some? {
        var reply := client.Execute(conn, SetIsolationSql(settings.isolationLevel.value), []);
        if reply.Threw? {
          return Fail(ClientError(reply.message));
        }
      }
      var reply := client.Execute(conn, "BEGIN", []);
      r := Acknowledge(reply);
    }

    /** `commitTransaction()`: the step `End` with COMMIT. The connection is
        dropped after the statement whatever its outcome (the `finally`). */
    method CommitTransaction() returns (r: Outcome)
      requires Valid()
      modifies this, client.backend
      ensures Valid()
      ensures (State(), r) == End(old(State()), client.backend.server, Commit)
    {
      if transactionConn.None? {
        return Fail(NoTransactionToCommit);
      }
      var reply := client.Execute(ViaConnection(transactionConn.value), "COMMIT", []);
      transactionConn := None;
      r := Acknowledge(reply);
    }

    /** `rollbackTransaction()`: the step `End` with ROLLBACK. */
    method RollbackTransaction() returns (r: Outcome)
      requires Valid()
      modifies this, client.backend
      ensures Valid()
      ensures (State(), r) == End(old(State()), client.backend.server, Rollback)
    {
      if transactionConn.None? {
        return Fail(NoTransactionToRollback);
      }
      var reply := client.Execute(ViaConnection(transactionConn.value), "ROLLBACK", []);
      transactionConn := None;
      r := Acknowledge(reply);
    }

    /** `streamQuery`: always rejected, for any query, without I/O. */
    method StreamQuery(query: CompiledQuery, chunkSize: int) returns (r: Result<seq<QueryResult>>)
      ensures r.Err? && r.error == StreamingUnsupported
    {
      r := Err(StreamingUnsupported);
    }
  }
}
