/** The storage-backend contract as the factories use it: a client hands out connections, each
    scoped to one factory operation, on which inserts, selects and graph calls are issued before a
    commit or an abort. The engines' query semantics are not modelled: what an engine answers, and
    whether a call fails, is given by a `Backend` oracle. */
module Db {
  import opened Errors
  import opened Models

  datatype Engine = Postgres | Cassandra | Gremlin

  /** One typed column value of an insertion, or one equality predicate (`DbDataContainer`). */
  datatype DbDataContainer = DbDataContainer(field: string, valueType: ValueType, value: string)

  /** The column list of a select; the factories only ever use `DBClient.SELECT_STAR`. */
  datatype Projection = SelectStar | Columns(names: seq<string>)

  /** A select's answer, seen through `QueryResults.getString(column)`, which may throw. */
  datatype QueryResults = QueryResults(column: int -> Result<string>) {
    function GetString(index: int): Result<string> { column(index) }
  }

  /** A graph vertex, seen through the value of its `id` property. */
  datatype Vertex = Vertex(id: string)

  /** Everything issued on a connection: the connection's own primitives, and the calls of the
      collaborating factories that are handed the connection. */
  datatype Op =
    | Insert(table: string, insertions: seq<DbDataContainer>)
    | EqualitySelect(table: string, projection: Projection, predicates: seq<DbDataContainer>)
    | AddVertex(vertexLabel: string, properties: seq<DbDataContainer>)
    | GetVertex(predicates: seq<DbDataContainer>)
    | TransitiveClosure(nodeVersionId: string)
    | ItemInsert(itemId: string)
    | ItemUpdate(itemId: string, childId: string, parent: Option<string>)
    | NodeUpdate(nodeId: string, childId: string, parent: Option<string>)
    | RichVersionInsert(id: string, tags: Option<map<string, Tag>>, structureVersionId: Option<string>,
                        reference: Option<string>, parameters: Option<map<string, string>>)
    | RichVersionRetrieve(id: string)
    | Commit
    | Abort

  /** A call as the engine sees it: which connection, what was issued on it before, and the call. */
  datatype Request = Request(serial: nat, before: seq<Op>, op: Op)

  /** The engine behind a client: whether each call fails and, when it does not, what it answers. */
  datatype Backend = Backend(
    fault: Request -> Outcome,
    rows: Request -> QueryResults,
    vertex: Request -> Vertex,
    closure: Request -> seq<string>,
    richVersion: Request -> RichVersion)

  datatype Status = Open | Committed | Aborted

  /** A backend client (`PostgresClient`, `CassandraClient`, `GremlinClient`). */
  class DbClient {
    const engine: Engine
    const backend: Backend
    /** How many connections this client has handed out. */
    var handedOut: nat

    constructor (engine: Engine, backend: Backend)
      ensures this.engine == engine && this.backend == backend && handedOut == 0
    {
      this.engine := engine;
      this.backend := backend;
      handedOut := 0;
    }

    /** `getConnection()`: a fresh connection on which nothing has been issued yet. */
    method GetConnection() returns (c: Connection)
      modifies this
      ensures handedOut == old(handedOut) + 1
      ensures fresh(c) && c.client == this && c.serial == old(handedOut)
      ensures c.log == [] && c.status == Open
    {
      c := new Connection(this, handedOut);
      handedOut := handedOut + 1;
    }
  }

  /** A connection scoped to one factory operation. */
  class Connection {
    const client: DbClient
    const serial: nat
    /** Every call issued on this connection, in order. */
    var log: seq<Op>
    var status: Status

    constructor (client: DbClient, serial: nat)
      ensures this.client == client && this.serial == serial
      ensures log == [] && status == Open
    {
      this.client := client;
      this.serial := serial;
      log := [];
      status := Open;
    }

    /** Issues `op` on the open connection; the engine decides whether it fails. */
    method Issue(op: Op) returns (o: Outcome)
      requires status == Open
      modifies this
      ensures log == old(log) + [op] && status == Open
      ensures o == client.backend.fault(Request(serial, old(log), op))
    {
      o := client.backend.fault(Request(serial, log, op));
      log := log + [op];
    }

    method Insert(table: string, insertions: seq<DbDataContainer>) returns (o: Outcome)
      requires status == Open && client.engine != Gremlin
      modifies this
      ensures log == old(log) + [Op.Insert(table, insertions)] && status == Open
      ensures o == client.backend.fault(Request(serial, old(log), Op.Insert(table, insertions)))
    {
      o := Issue(Op.Insert(table, insertions));
    }

    method EqualitySelect(table: string, projection: Projection, predicates: seq<DbDataContainer>)
      returns (r: Result<QueryResults>)
      requires status == Open && client.engine != Gremlin
      modifies this
      ensures log == old(log) + [Op.EqualitySelect(table, projection, predicates)] && status == Open
      ensures var req := Request(serial, old(log), Op.EqualitySelect(table, projection, predicates));
              r == if client.backend.fault(req).Fail? then Err(client.backend.fault(req).error)
                   else Ok(client.backend.rows(req))
    {
      var req := Request(serial, log, Op.EqualitySelect(table, projection, predicates));
      var o := Issue(req.op);
      r := if o.Fail? then Err(o.error) else Ok(client.backend.rows(req));
    }

    method AddVertex(vertexLabel: string, properties: seq<DbDataContainer>) returns (o: Outcome)
      requires status == Open && client.engine == Gremlin
      modifies this
      ensures log == old(log) + [Op.AddVertex(vertexLabel, properties)] && status == Open
      ensures o == client.backend.fault(Request(serial, old(log), Op.AddVertex(vertexLabel, properties)))
    {
      o := Issue(Op.AddVertex(vertexLabel, properties));
    }

    method GetVertex(predicates: seq<DbDataContainer>) returns (r: Result<Vertex>)
      requires status == Open && client.engine == Gremlin
      modifies this
      ensures log == old(log) + [Op.GetVertex(predicates)] && status == Open
      ensures var req := Request(serial, old(log), Op.GetVertex(predicates));
              r == if client.backend.fault(req).Fail? then Err(client.backend.fault(req).error)
                   else Ok(client.backend.vertex(req))
    {
      var req := Request(serial, log, Op.GetVertex(predicates));
      var o := Issue(req.op);
      r := if o.Fail? then Err(o.error) else Ok(client.backend.vertex(req));
    }

    method TransitiveClosure(nodeVersionId: string) returns (r: Result<seq<string>>)
      requires status == Open && client.engine == Postgres
      modifies this
      ensures log == old(log) + [Op.TransitiveClosure(nodeVersionId)] && status == Open
      ensures var req := Request(serial, old(log), Op.TransitiveClosure(nodeVersionId));
              r == if client.backend.fault(req).Fail? then Err(client.backend.fault(req).error)
                   else Ok(client.backend.closure(req))
    {
      var req := Request(serial, log, Op.TransitiveClosure(nodeVersionId));
      var o := Issue(req.op);
      r := if o.Fail? then Err(o.error) else Ok(client.backend.closure(req));
    }

    /** `commit()`: may fail, in which case the connection stays open. */
    method Commit() returns (o: Outcome)
      requires status == Open
      modifies this
      ensures log == old(log) + [Op.Commit]
      ensures o == client.backend.fault(Request(serial, old(log), Op.Commit))
      ensures status == if o.Pass? then Committed else Open
    {
      o := Issue(Op.Commit);
      if o.Pass? {
        status := Committed;
      }
    }

    /** `abort()` on a connection that has not been committed. */
    method Abort()
      requires status == Open
      modifies this
      ensures log == old(log) + [Op.Abort] && status == Aborted
    {
      log := log + [Op.Abort];
      status := Aborted;
    }
  }
}
