/** The connection adapter's behaviour as pure steps over the state it and
    the database share: the transaction connection it holds (idle when
    there is none), how many connections the client has handed out, and
    every statement sent so far. The methods of `PlanetScaleConnection` are
    proved to take exactly these steps. */
module Transactions {
  import opened Types
  import opened Queries
  import opened Results
  import opened Wire

  /** The isolation levels the query builder can ask for. */
  datatype IsolationLevel = ReadUncommitted | ReadCommitted | RepeatableRead | Serializable | Snapshot

  datatype TransactionSettings = TransactionSettings(isolationLevel: Option<IsolationLevel>)

  function LevelText(level: IsolationLevel): string {
    match level
    case ReadUncommitted => "read uncommitted"
    case ReadCommitted => "read committed"
    case RepeatableRead => "repeatable read"
    case Serializable => "serializable"
    case Snapshot => "snapshot"
  }

  /** The statement that sets the level of the next transaction. */
  function SetIsolationSql(level: IsolationLevel): (sql: string)
    ensures |sql| > 32 && sql[..32] == "SET TRANSACTION ISOLATION LEVEL "
    ensures sql[32..] == LevelText(level)
  {
    "SET TRANSACTION ISOLATION LEVEL " + LevelText(level)
  }

  /** How a transaction ends. */
  datatype Finish = Commit | Rollback

  function FinishSql(kind: Finish): string {
    match kind
    case Commit => "COMMIT"
    case Rollback => "ROLLBACK"
  }

  function NoTransaction(kind: Finish): Error {
    match kind
    case Commit => NoTransactionToCommit
    case Rollback => NoTransactionToRollback
  }

  /** The text of the error raised when there is no transaction to finish. */
  lemma NoTransactionText(kind: Finish)
    ensures Message(NoTransaction(kind)) == "No transaction to " + (if kind == Commit then "commit" else "rollback")
  {
  }

  /** The state one adapter and its database share. */
  datatype TxState = TxState(transactionConn: Option<ConnId>, issued: nat, log: seq<Request>)

  /** The target `executeQuery` picks: the transaction connection if one is
      held; otherwise, in shared mode, the registry's connection for this
      configuration, or the client when there is none; otherwise the client. */
  function Route(transactionConn: Option<ConnId>, shared: bool, entry: Option<ConnId>): (t: Target)
    ensures transactionConn.Some? ==> t == ViaConnection(transactionConn.value)
    ensures transactionConn.None? && shared && entry.Some? ==> t == ViaConnection(entry.value)
    ensures transactionConn.None? && (!shared || entry.None?) ==> t == ViaClient
  {
    if transactionConn.Some? then ViaConnection(transactionConn.value)
    else if shared && entry.Some? then ViaConnection(entry.value)
    else ViaClient
  }

  /** `execute` settling on the client's reply: a thrown error is passed on,
      a returned result is normalised. */
  function Settle(reply: Reply): (r: Result<QueryResult>)
    ensures reply.Threw? ==> r == Err(ClientError(reply.message))
    ensures reply.Returned? ==> r == Normalize(reply.raw)
  {
    match reply
    case Threw(m) => Err(ClientError(m))
    case Returned(raw) => Normalize(raw)
  }

  /** A statement whose result is awaited and dropped: only a thrown error
      fails. An error embedded in the result goes unnoticed. */
  function Acknowledge(reply: Reply): (r: Outcome)
    ensures r.Fail? <==> reply.Threw?
    ensures r.Fail? ==> r.error == ClientError(reply.message)
  {
    match reply
    case Threw(m) => Fail(ClientError(m))
    case Returned(_) => Pass
  }

  /** `execute(compiledQuery, conn)` on target `via`: the new statement log
      and the call's result. */
  function ExecuteOn(server: Server, log: seq<Request>, hasFormat: bool, via: Target, query: CompiledQuery)
    : (r: (seq<Request>, Result<QueryResult>))
    // at most one statement is sent, to `via`, with the SQL unchanged
    ensures r.0 == log || (|r.0| == |log| + 1 && r.0[..|log|] == log && r.0[|log|].via == via && r.0[|log|].sql == query.sql)
    // nothing is sent exactly when a parameter cannot be formatted
    ensures r.0 == log <==> RewriteParams(hasFormat, query.parameters).Err?
    ensures r.0 == log ==> r.1 == Err(InvalidTimeValue)
    // the statement carries the rewritten parameters and the result is the settled reply
    ensures r.0 != log ==>
      r.0[|log|].parameters == RewriteParams(hasFormat, query.parameters).value && r.1 == Settle(server(log, r.0[|log|]))
  {
    match RewriteParams(hasFormat, query.parameters)
    case Err(e) => (log, Err(e))
    case Ok(parameters) =>
      var request := Request(via, query.sql, parameters);
      (log + [request], Settle(server(log, request)))
  }

  /** `beginTransaction(settings)`. */
  function Begin(s: TxState, server: Server, level: Option<IsolationLevel>): (r: (TxState, Outcome))
    // a transaction connection is held afterwards, whatever happened
    ensures r.0.transactionConn.Some?
    // a held one is reused; otherwise exactly one fresh one is acquired
    ensures s.transactionConn.Some? ==> r.0.transactionConn == s.transactionConn && r.0.issued == s.issued
    ensures s.transactionConn.None? ==> r.0.transactionConn == Some(s.issued) && r.0.issued == s.issued + 1
    // one or two statements are sent, all on that connection, without parameters
    ensures var n := |s.log|; var t := r.0.log;
      && n < |t| <= n + 2 && t[..n] == s.log
      && (forall i :: n <= i < |t| ==> t[i].via == ViaConnection(r.0.transactionConn.value) && t[i].parameters == [])
    // SET TRANSACTION comes first, and only when a level is given
    ensures var n := |s.log|; var t := r.0.log;
      && (level.Some? ==> t[n].sql == SetIsolationSql(level.value))
      && (level.None? ==> |t| == n + 1 && t[n].sql == "BEGIN")
    // BEGIN follows a SET TRANSACTION that did not throw, and only such a one
    ensures var n := |s.log|; var t := r.0.log;
      level.Some? ==> (|t| == n + 2 <==> server(s.log, t[n]).Returned?) && (|t| == n + 2 ==> t[n + 1].sql == "BEGIN")
    // the call succeeds exactly when BEGIN was sent and did not throw
    ensures var t := r.0.log;
      r.1.Pass? <==> t[|t| - 1].sql == "BEGIN" && server(t[..|t| - 1], t[|t| - 1]).Returned?
  {
    var conn := if s.transactionConn.Some? then s.transactionConn.value else s.issued;
    var issued := if s.transactionConn.Some? then s.issued else s.issued + 1;
    var begin := Request(ViaConnection(conn), "BEGIN", []);
    match level
    case None =>
      (TxState(Some(conn), issued, s.log + [begin]), Acknowledge(server(s.log, begin)))
    case Some(l) =>
      var setLevel := Request(ViaConnection(conn), SetIsolationSql(l), []);
      var afterSet := s.log + [setLevel];
      match server(s.log, setLevel)
      case Threw(m) => (TxState(Some(conn), issued, afterSet), Fail(ClientError(m)))
      case Returned(_) =>
        assert (afterSet + [begin])[..|afterSet|] == afterSet;
        (TxState(Some(conn), issued, afterSet + [begin]), Acknowledge(server(afterSet, begin)))
  }

  /** A failed `beginTransaction` rejects with the error that the last
      statement sent, `SET TRANSACTION` or `BEGIN`, threw. */
  lemma BeginFailurePassesOn(s: TxState, server: Server, level: Option<IsolationLevel>)
    ensures var (next, outcome) := Begin(s, server, level); var t := next.log;
      outcome.Fail? ==> outcome.error == ClientError(server(t[..|t| - 1], t[|t| - 1]).message)
  {
  }

  /** `commitTransaction()` or `rollbackTransaction()`. */
  function End(s: TxState, server: Server, kind: Finish): (r: (TxState, Outcome))
    // the transaction connection is gone afterwards, whatever happened
    ensures r.0.transactionConn.None? && r.0.issued == s.issued
    // with none held the call fails before anything is sent
    ensures s.transactionConn.None? ==> r.0.log == s.log && r.1 == Fail(NoTransaction(kind))
    // with one held exactly COMMIT or ROLLBACK is sent on it, and its failure is passed on
    ensures s.transactionConn.Some? ==>
      var request := Request(ViaConnection(s.transactionConn.value), FinishSql(kind), []);
      r.0.log == s.log + [request] && (r.1.Fail? <==> server(s.log, request).Threw?)
    // and a failure is the error COMMIT or ROLLBACK threw: `finally` does not swallow it
    ensures s.transactionConn.Some? && r.1.Fail? ==>
      var request := Request(ViaConnection(s.transactionConn.value), FinishSql(kind), []);
      r.1.error == ClientError(server(s.log, request).message)
  {
    match s.transactionConn
    case None => (s, Fail(NoTransaction(kind)))
    case Some(conn) =>
      var request := Request(ViaConnection(conn), FinishSql(kind), []);
      (TxState(None, s.issued, s.log + [request]), Acknowledge(server(s.log, request)))
  }

  /** A state whose transaction connection, if any, has been handed out. */
  predicate Issued(s: TxState) {
    s.transactionConn.Some? ==> s.transactionConn.value < s.issued
  }

  /** Beginning, committing and rolling back keep the held connection one
      that the client has handed out. */
  lemma StepsKeepIssued(s: TxState, server: Server, level: Option<IsolationLevel>, kind: Finish)
    requires Issued(s)
    ensures Issued(Begin(s, server, level).0) && Issued(End(s, server, kind).0)
  {
  }

  /** Once a commit or rollback has been attempted, whether or not it
      succeeded, the next transaction runs on a connection never used
      before: a failed COMMIT cannot leave a poisoned connection behind. */
  lemma NextTransactionIsFresh(s: TxState, server: Server, kind: Finish, level: Option<IsolationLevel>)
    requires Issued(s)
    ensures var next := Begin(End(s, server, kind).0, server, level).0;
      next.transactionConn == Some(s.issued) && next.transactionConn != s.transactionConn
  {
  }

  /** A second `beginTransaction` while one is open sends its statements on
      the same connection and acquires none. */
  lemma BeginTwiceKeepsConnection(s: TxState, server: Server, first: Option<IsolationLevel>, second: Option<IsolationLevel>)
    ensures var once := Begin(s, server, first).0; var twice := Begin(once, server, second).0;
      twice.transactionConn == once.transactionConn && twice.issued == once.issued
  {
  }
}
