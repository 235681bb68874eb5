/** `PlanetScaleDriver`, the query builder's handle on the adapter: it owns
    one client and hands out connection adapters, and its transaction
    methods forward to the adapter they are given. */
module Driver {
  import opened Types
  import opened Queries
  import opened Wire
  import opened Transactions
  import opened Connection

  class PlanetScaleDriver {
    const client: Client
    const registry: Registry

    /** The client gets a configuration object of its own, copied from the
        one given (with the date-inflating `cast` added, not modelled). So
        the shared-connection registry is keyed by an object private to this
        driver, never by the caller's configuration. */
    constructor (config: Config, backend: Backend, registry: Registry)
      ensures client.backend == backend && this.registry == registry
      ensures fresh(client) && fresh(client.config) && client.config != config
      ensures client.config.hasFormat == config.hasFormat
    {
      var own := new Config(config.hasFormat);
      client := new Client(own, backend);
      this.registry := registry;
    }

    /** `acquireConnection()`: an adapter with the constructor's default
        arguments, so never in shared mode. Nothing is registered, acquired
        or sent. */
    method AcquireConnection() returns (conn: PlanetScaleConnection)
      ensures fresh(conn) && conn.client == client && conn.registry == registry
      ensures !conn.useSharedConnection && conn.transactionConn == None && conn.Valid()
    {
      conn := new PlanetScaleConnection(client, registry, false, false);
    }

    /** `beginTransaction(conn, settings)`: forwards to the adapter. */
    method BeginTransaction(conn: PlanetScaleConnection, settings: TransactionSettings) returns (r: Outcome)
      requires conn.Valid()
      modifies conn, conn.client.backend
      ensures conn.Valid()
      ensures (conn.State(), r) == Begin(old(conn.State()), conn.client.backend.server, settings.isolationLevel)
    {
      r := conn.BeginTransaction(settings);
    }

    /** `commitTransaction(conn)`: forwards to the adapter. */
    method CommitTransaction(conn: PlanetScaleConnection) returns (r: Outcome)
      requires conn.Valid()
      modifies conn, conn.client.backend
      ensures conn.Valid()
      ensures (conn.State(), r) == End(old(conn.State()), conn.client.backend.server, Commit)
    {
      r := conn.CommitTransaction();
    }

    /** `rollbackTransaction(conn)`: forwards to the adapter. */
    method RollbackTransaction(conn: PlanetScaleConnection) returns (r: Outcome)
      requires conn.Valid()
      modifies conn, conn.client.backend
      ensures conn.Valid()
      ensures (conn.State(), r) == End(old(conn.State()), conn.client.backend.server, Rollback)
    {
      r := conn.RollbackTransaction();
    }
  }

  /** A caller's view: committing or rolling back on a fresh adapter fails
      with the adapter's own error and sends nothing. */
  method NoTransactionToFinish(driver: PlanetScaleDriver) returns (commit: Outcome, rollback: Outcome)
    modifies driver.client.backend
    ensures commit == Fail(NoTransactionToCommit) && rollback == Fail(NoTransactionToRollback)
    ensures driver.client.backend.log == old(driver.client.backend.log)
  {
    var conn := driver.AcquireConnection();
    commit := driver.CommitTransaction(conn);
    rollback := driver.RollbackTransaction(conn);
  }

  /** A caller's view: begin, commit (whether COMMIT succeeds or not), then
      begin again. The second transaction runs on a new connection, and
      every statement of both went to the connection of its transaction. */
  method CommitThenBeginAgain(driver: PlanetScaleDriver) returns (first: ConnId, second: ConnId)
    modifies driver.client.backend
    ensures first != second
    ensures var log := driver.client.backend.log; var n := |old(driver.client.backend.log)|;
      |log| == n + 3 &&
      log[n] == Request(ViaConnection(first), "BEGIN", []) &&
      log[n + 1] == Request(ViaConnection(first), "COMMIT", []) &&
      log[n + 2] == Request(ViaConnection(second), "BEGIN", [])
  {
    var conn := driver.AcquireConnection();
    var settings := TransactionSettings(None);
    var began := driver.BeginTransaction(conn, settings);
    first := conn.transactionConn.value;
    var committed := driver.CommitTransaction(conn);
    assert conn.transactionConn == None;
    var again := driver.BeginTransaction(conn, settings);
    second := conn.transactionConn.value;
  }

  /** A caller's view: two adapters built in shared mode from one client,
      with no transaction open, run their queries on one and the same
      connection, whatever the parameters. */
  method SharedAdaptersShareConnection(client: Client, registry: Registry, q1: CompiledQuery, q2: CompiledQuery)
    returns (a: PlanetScaleConnection, b: PlanetScaleConnection)
    requires RewriteParams(client.config.hasFormat, q1.parameters).Ok?
    requires RewriteParams(client.config.hasFormat, q2.parameters).Ok?
    modifies registry, client.backend
    ensures var log := client.backend.log;
      |log| >= 2 && log[|log| - 2].via.ViaConnection? && log[|log| - 2].via == log[|log| - 1].via
  {
    a := new PlanetScaleConnection(client, registry, true, false);
    b := new PlanetScaleConnection(client, registry, true, false);
    var r1 := a.ExecuteQuery(q1);
    var r2 := b.ExecuteQuery(q2);
  }
}
