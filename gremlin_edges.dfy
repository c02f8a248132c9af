/** `GremlinEdgeFactory`: edge items on the property-graph backend. */
module GremlinEdges {
  import opened Errors
  import opened Models
  import opened ItemIds
  import opened Db
  import opened Transactions
  import opened Collaborators

  /** The steps of `create(name)`: register the item, add one `GroundEdge` vertex holding the name
      and the item id, commit. */
  function CreateScript(name: string): (r: seq<Step>)
    ensures CommitsLast(r)
  {
    var uniqueId := ItemId(Edges, name);
    [ Issue(ItemInsert(uniqueId)),
      Issue(AddVertex("GroundEdge", [DbDataContainer("name", STRING, name), DbDataContainer("id", STRING, uniqueId)])),
      Issue(Commit) ]
  }

  /** The lookup `retrieveFromDatabase(name)` issues: by name only, with no label. */
  function VertexByName(name: string): Op
  {
    GetVertex([DbDataContainer("name", STRING, name)])
  }

  /** The steps of `retrieveFromDatabase(name)`: fetch the vertex, commit. */
  function RetrieveScript(name: string): (r: seq<Step>)
    ensures CommitsLast(r)
  {
    [Issue(VertexByName(name)), Issue(Commit)]
  }

  /** What `create(name)` does on connection `serial`: it registers the item `"Edges." + name`,
      then adds the `GroundEdge` vertex (`name`, `id`), then commits, each call seeing the ones
      before it, and it stops at the first of them that throws, surfacing that exception. */
  lemma {:induction false} CreateRun(b: Backend, serial: nat, name: string)
    ensures var uniqueId := ItemId(Edges, name);
            var register := ItemInsert(uniqueId);
            var vertex := AddVertex("GroundEdge", [DbDataContainer("name", STRING, name), DbDataContainer("id", STRING, uniqueId)]);
            var registered := b.fault(Request(serial, [], register));
            var added := b.fault(Request(serial, [register], vertex));
            Perform(b, serial, [], CreateScript(name)) ==
              if registered.Fail? then Run([register], registered)
              else if added.Fail? then Run([register, vertex], added)
              else Run([register, vertex, Commit], b.fault(Request(serial, [register, vertex], Commit)))
  {
    var uniqueId := ItemId(Edges, name);
    var register := ItemInsert(uniqueId);
    var vertex := AddVertex("GroundEdge", [DbDataContainer("name", STRING, name), DbDataContainer("id", STRING, uniqueId)]);
    var script := CreateScript(name);
    assert [] + [register] == [register] && [register] + [vertex] == [register, vertex];
    assert script[1..][1..][1..] == [];
    assert Perform(b, serial, [register, vertex], script[2..]) == Run([Commit], b.fault(Request(serial, [register, vertex], Commit)));
    assert script[1..][1..] == script[2..];
  }

  /** What `retrieveFromDatabase(name)` does on connection `serial`: it fetches the vertex by name,
      then commits, and it stops at the first of these that throws, surfacing that exception. */
  lemma {:induction false} RetrieveRun(b: Backend, serial: nat, name: string)
    ensures var fetch := GetVertex([DbDataContainer("name", STRING, name)]);
            var fetched := b.fault(Request(serial, [], fetch));
            Perform(b, serial, [], RetrieveScript(name)) ==
              if fetched.Fail? then Run([fetch], fetched)
              else Run([fetch, Commit], b.fault(Request(serial, [fetch], Commit)))
  {
    var fetch := VertexByName(name);
    var script := RetrieveScript(name);
    assert [] + [fetch] == [fetch];
    assert script[1..][1..] == [];
    assert Perform(b, serial, [fetch], script[1..]) == Run([Commit], b.fault(Request(serial, [fetch], Commit)));
  }

  class GremlinEdgeFactory {
    const dbClient: DbClient
    const itemFactory: ItemFactory

    ghost predicate Valid()
    {
      dbClient.engine == Gremlin
    }

    constructor (itemFactory: ItemFactory, dbClient: DbClient)
      requires dbClient.engine == Gremlin
      ensures Valid() && this.itemFactory == itemFactory && this.dbClient == dbClient
    {
      this.dbClient := dbClient;
      this.itemFactory := itemFactory;
    }

    /** `create(name)`: on a fresh connection, performs `CreateScript(name)`; commits and returns the
        edge `("Edges." + name, name)` when every step goes through, and otherwise aborts and
        rethrows the exception of the first step that threw. */
    method Create(name: string) returns (r: Result<Edge>, ghost connection: Connection)
      requires Valid()
      modifies dbClient
      ensures dbClient.handedOut == old(dbClient.handedOut) + 1
      ensures fresh(connection) && connection.client == dbClient && connection.serial == old(dbClient.handedOut)
      ensures var run := Perform(dbClient.backend, connection.serial, [], CreateScript(name));
              FaultOf(r) == run.outcome && Concluded(connection.log, connection.status, run)
      ensures r.Ok? ==> r.value == Edge(ItemId(Edges, name), name)
    {
      var c := dbClient.GetConnection();
      connection := c;
      r := CreateOn(c, name);
      if r.Err? {
        c.Abort();
      }
    }

    /** The try block of `create`. */
    method CreateOn(connection: Connection, name: string) returns (r: Result<Edge>)
      requires Valid() && connection.client == dbClient
      requires connection.log == [] && connection.status == Open
      modifies connection
      ensures var run := Perform(dbClient.backend, connection.serial, [], CreateScript(name));
              FaultOf(r) == run.outcome && Attempted(connection.log, connection.status, run)
      ensures r.Ok? ==> r.value == Edge(ItemId(Edges, name), name)
    {
      ghost var b, script := dbClient.backend, CreateScript(name);
      Begin(b, connection.serial, script);
      ghost var issued := connection.log;
      var uniqueId := ItemId(Edges, name);
      :- itemFactory.InsertIntoDatabase(connection, uniqueId);
      Advance(b, connection.serial, script, 0, issued, connection.log);
      issued := connection.log;
      var insertions: seq<DbDataContainer> := [];
      insertions := insertions + [DbDataContainer("name", STRING, name)];
      insertions := insertions + [DbDataContainer("id", STRING, uniqueId)];
      assert insertions == [DbDataContainer("name", STRING, name), DbDataContainer("id", STRING, uniqueId)];
      :- connection.AddVertex("GroundEdge", insertions);
      Advance(b, connection.serial, script, 1, issued, connection.log);
      issued := connection.log;
      :- connection.Commit();
      Advance(b, connection.serial, script, 2, issued, connection.log);
      r := Ok(Edge(uniqueId, name));
    }

    /** `retrieveFromDatabase(name)`: fetches the vertex by name and returns its `id` property with
        the given name after committing; aborts and rethrows on any exception. */
    method RetrieveFromDatabase(name: string) returns (r: Result<Edge>, ghost connection: Connection)
      requires Valid()
      modifies dbClient
      ensures dbClient.handedOut == old(dbClient.handedOut) + 1
      ensures fresh(connection) && connection.client == dbClient && connection.serial == old(dbClient.handedOut)
      ensures var b := dbClient.backend;
              var run := Perform(b, connection.serial, [], RetrieveScript(name));
              && FaultOf(r) == run.outcome && Concluded(connection.log, connection.status, run)
              && (r.Ok? ==> r.value == Edge(b.vertex(Request(connection.serial, [], VertexByName(name))).id, name))
    {
      var c := dbClient.GetConnection();
      connection := c;
      r := RetrieveOn(c, name);
      if r.Err? {
        c.Abort();
      }
    }

    /** The try block of `retrieveFromDatabase`. */
    method RetrieveOn(connection: Connection, name: string) returns (r: Result<Edge>)
      requires Valid() && connection.client == dbClient
      requires connection.log == [] && connection.status == Open
      modifies connection
      ensures var b := dbClient.backend;
              var run := Perform(b, connection.serial, [], RetrieveScript(name));
              && FaultOf(r) == run.outcome && Attempted(connection.log, connection.status, run)
              && (r.Ok? ==> r.value == Edge(b.vertex(Request(connection.serial, [], VertexByName(name))).id, name))
    {
      ghost var b, script := dbClient.backend, RetrieveScript(name);
      Begin(b, connection.serial, script);
      ghost var issued := connection.log;
      var predicates: seq<DbDataContainer> := [];
      predicates := predicates + [DbDataContainer("name", STRING, name)];
      assert predicates == [DbDataContainer("name", STRING, name)];
      var vertex :- connection.GetVertex(predicates);
      Advance(b, connection.serial, script, 0, issued, connection.log);
      issued := connection.log;
      var id := vertex.id;
      :- connection.Commit();
      Advance(b, connection.serial, script, 1, issued, connection.log);
      r := Ok(Edge(id, name));
    }

    /** `update(connection, itemId, childId, parent)`: forwards `"Edges." + itemId` to the item
        factory, and `childId` and `parent` unchanged. */
    method Update(connection: Connection, itemId: string, childId: string, parent: Option<string>) returns (o: Outcome)
      requires connection.status == Open
      modifies connection
      ensures connection.log == old(connection.log) + [ItemUpdate("Edges." + itemId, childId, parent)]
      ensures connection.status == Open
      ensures o == connection.client.backend.fault(
                     Request(connection.serial, old(connection.log), ItemUpdate("Edges." + itemId, childId, parent)))
    {
      o := itemFactory.Update(connection, ItemId(Edges, itemId), childId, parent);
    }
  }

  /** The id `update(itemId, ...)` forwards equals the id `create(name)` registered exactly when
      `itemId == name`; and passing the registered id `"Edges." + name` as `itemId` forwards a
      different id, `"Edges.Edges." + name`. */
  lemma UpdateAddressesByName(itemId: string, name: string)
    ensures ItemId(Edges, itemId) == ItemId(Edges, name) <==> itemId == name
    ensures ItemId(Edges, ItemId(Edges, name)) != ItemId(Edges, name)
  {
    if ItemId(Edges, itemId) == ItemId(Edges, name) {
      ItemIdInjective(Edges, Edges, itemId, name);
    }
  }
}
