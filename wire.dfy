/** What the adapter sees of `@planetscale/database`: a configuration object,
    a client, connections named by opaque ids, and statements that are sent
    and answered. The transport itself is not modelled: the database is an
    arbitrary but fixed answering function of everything sent so far. */
module Wire {
  import opened Queries
  import opened Results

  /** A connection handed out by `client.connection()`, named by its id. */
  type ConnId = nat

  /** What a statement is executed on: the client itself (which opens a
      connection of its own per call) or one connection. */
  datatype Target = ViaClient | ViaConnection(id: ConnId)

  /** One statement as sent to the database. */
  datatype Request = Request(via: Target, sql: string, parameters: seq<Param>)

  /** How the client's `execute` settles: it throws, or it resolves to a raw result. */
  datatype Reply = Threw(message: string) | Returned(raw: RawResult)

  /** The database's answer to a request, given every request sent before it. */
  type Server = (seq<Request>, Request) -> Reply

  /** A configuration object. Its identity keys the shared-connection
      registry; of its fields the adapter reads only whether a custom
      `format` function is set. */
  class Config {
    const hasFormat: bool

    constructor (hasFormat: bool)
      ensures this.hasFormat == hasFormat
    {
      this.hasFormat := hasFormat;
    }
  }

  /** The database as seen over the wire: how many connections have been
      handed out (ids are issued in order, so every new one is fresh) and
      every statement sent, in order. */
  class Backend {
    var issued: nat
    var log: seq<Request>
    const server: Server

    constructor (server: Server)
      ensures issued == 0 && log == [] && this.server == server
    {
      issued, log := 0, [];
      this.server := server;
    }

    /** A connection id never handed out before. No statement is sent. */
    method NewConnection() returns (id: ConnId)
      modifies this
      ensures id == old(issued) && issued == old(issued) + 1
      ensures log == old(log)
    {
      id := issued;
      issued := issued + 1;
    }

    /** Sends one statement and returns the database's answer to it. */
    method Send(request: Request) returns (reply: Reply)
      modifies this
      ensures log == old(log) + [request] && reply == server(old(log), request)
      ensures issued == old(issued)
    {
      reply := server(log, request);
      log := log + [request];
    }
  }

  /** The wrapped client: a configuration and the backend it talks to. */
  class Client {
    const config: Config
    const backend: Backend

    constructor (config: Config, backend: Backend)
      ensures this.config == config && this.backend == backend
    {
      this.config := config;
      this.backend := backend;
    }

    /** `client.connection()`: a fresh connection, without any I/O. */
    method Connection() returns (id: ConnId)
      modifies backend
      ensures id == old(backend.issued) && backend.issued == old(backend.issued) + 1
      ensures backend.log == old(backend.log)
    {
      id := backend.NewConnection();
    }

    /** `conn.execute(sql, parameters)` on the client or on one connection. */
    method Execute(via: Target, sql: string, parameters: seq<Param>) returns (reply: Reply)
      modifies backend
      ensures var request := Request(via, sql, parameters);
        backend.log == old(backend.log) + [request] && reply == backend.server(old(backend.log), request)
      ensures backend.issued == old(backend.issued)
    {
      reply := backend.Send(Request(via, sql, parameters));
    }
  }
}
