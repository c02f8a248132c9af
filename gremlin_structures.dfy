/** `GremlinStructureFactory`: structure (schema) items on the property-graph backend. */
module GremlinStructures {
  import opened Errors
  import opened Models
  import opened ItemIds
  import opened Db
  import opened Transactions
  import opened Collaborators

  /** The steps of `create(name)`: add one `Structure` vertex holding the name and the item id,
      commit. No item is registered with the item factory. */
  function CreateScript(name: string): (r: seq<Step>)
    ensures CommitsLast(r)
  {
    var uniqueId := ItemId(Structures, name);
    [ Issue(AddVertex("Structure", [DbDataContainer("name", STRING, name), DbDataContainer("id", STRING, uniqueId)])),
      Issue(Commit) ]
  }

  /** The lookup `retrieveFromDatabase(name)` issues: by name, and by the label `Nodes` (not the
      label `Structure` that `create` gives the vertex). */
  function VertexByName(name: string): Op
  {
    GetVertex([DbDataContainer("name", STRING, name), DbDataContainer("label", STRING, "Nodes")])
  }

  /** The steps of `retrieveFromDatabase(name)`: fetch the vertex, commit. */
  function RetrieveScript(name: string): (r: seq<Step>)
    ensures CommitsLast(r)
  {
    [Issue(VertexByName(name)), Issue(Commit)]
  }

  /** What `create(name)` does on connection `serial`: it adds the `Structure` vertex (`name`, `id`)
      with the item id `"Structures." + name`, then commits, and it stops at the first of these that
      throws, surfacing that exception; no other call is issued. */
  lemma {:induction false} CreateRun(b: Backend, serial: nat, name: string)
    ensures var vertex := AddVertex("Structure", [DbDataContainer("name", STRING, name),
                                                  DbDataContainer("id", STRING, ItemId(Structures, name))]);
            var added := b.fault(Request(serial, [], vertex));
            Perform(b, serial, [], CreateScript(name)) ==
              if added.Fail? then Run([vertex], added)
              else Run([vertex, Commit], b.fault(Request(serial, [vertex], Commit)))
  {
    var vertex := AddVertex("Structure", [DbDataContainer("name", STRING, name),
                                          DbDataContainer("id", STRING, ItemId(Structures, name))]);
    var script := CreateScript(name);
    assert [] + [vertex] == [vertex];
    assert script[1..][1..] == [];
    assert Perform(b, serial, [vertex], script[1..]) == Run([Commit], b.fault(Request(serial, [vertex], Commit)));
  }

  /** What `retrieveFromDatabase(name)` does on connection `serial`: it fetches the vertex by name and
      label `Nodes`, then commits, and it stops at the first of these that throws, surfacing that
      exception. */
  lemma {:induction false} RetrieveRun(b: Backend, serial: nat, name: string)
    ensures var fetch := GetVertex([DbDataContainer("name", STRING, name), DbDataContainer("label", STRING, "Nodes")]);
            var fetched := b.fault(Request(serial, [], fetch));
            Perform(b, serial, [], RetrieveScript(name)) ==
              if fetched.Fail? then Run([fetch], fetched)
              else Run([fetch, Commit], b.fault(Request(serial, [fetch], Commit)))
  {
    var fetch := VertexByName(name);
    var script := RetrieveScript(name);
    assert [] + [fetch] == [fetch];
    assert script[1..][1..] == [];
    assert Perform(b, serial, [fetch], script[1..]) == Run([Commit], b.fault(Request(serial, [fetch], Commit)));
  }

  class GremlinStructureFactory {
    const dbClient: DbClient
    const itemFactory: ItemFactory

    ghost predicate Valid()
    {
      dbClient.engine == Gremlin
    }

    constructor (itemFactory: ItemFactory, dbClient: DbClient)
      requires dbClient.engine == Gremlin
      ensures Valid() && this.itemFactory == itemFactory && this.dbClient == dbClient
    {
      this.itemFactory := itemFactory;
      this.dbClient := dbClient;
    }

    /** `create(name)`: on a fresh connection, performs `CreateScript(name)`; commits and returns the
        structure `("Structures." + name, name)` when every step goes through, and otherwise aborts
        and rethrows the exception of the first step that threw. */
    method Create(name: string) returns (r: Result<Structure>, ghost connection: Connection)
      requires Valid()
      modifies dbClient
      ensures dbClient.handedOut == old(dbClient.handedOut) + 1
      ensures fresh(connection) && connection.client == dbClient && connection.serial == old(dbClient.handedOut)
      ensures var run := Perform(dbClient.backend, connection.serial, [], CreateScript(name));
              FaultOf(r) == run.outcome && Concluded(connection.log, connection.status, run)
      ensures r.Ok? ==> r.value == Structure(ItemId(Structures, name), name)
    {
      var c := dbClient.GetConnection();
      connection := c;
      r := CreateOn(c, name);
      if r.Err? {
        c.Abort();
      }
    }

    /** The try block of `create`. */
    method CreateOn(connection: Connection, name: string) returns (r: Result<Structure>)
      requires Valid() && connection.client == dbClient
      requires connection.log == [] && connection.status == Open
      modifies connection
      ensures var run := Perform(dbClient.backend, connection.serial, [], CreateScript(name));
              FaultOf(r) == run.outcome && Attempted(connection.log, connection.status, run)
      ensures r.Ok? ==> r.value == Structure(ItemId(Structures, name), name)
    {
      ghost var b, script := dbClient.backend, CreateScript(name);
      Begin(b, connection.serial, script);
      ghost var issued := connection.log;
      var uniqueId := ItemId(Structures, name);
      var insertions: seq<DbDataContainer> := [];
      insertions := insertions + [DbDataContainer("name", STRING, name)];
      insertions := insertions + [DbDataContainer("id", STRING, uniqueId)];
      assert insertions == [DbDataContainer("name", STRING, name), DbDataContainer("id", STRING, uniqueId)];
      :- connection.AddVertex("Structure", insertions);
      Advance(b, connection.serial, script, 0, issued, connection.log);
      issued := connection.log;
      :- connection.Commit();
      Advance(b, connection.serial, script, 1, issued, connection.log);
      r := Ok(Structure(uniqueId, name));
    }

    /** `retrieveFromDatabase(name)`: fetches the vertex by name and label `Nodes` and returns its
        `id` property with the given name after committing; aborts and rethrows on any exception. */
    method RetrieveFromDatabase(name: string) returns (r: Result<Structure>, ghost connection: Connection)
      requires Valid()
      modifies dbClient
      ensures dbClient.handedOut == old(dbClient.handedOut) + 1
      ensures fresh(connection) && connection.client == dbClient && connection.serial == old(dbClient.handedOut)
      ensures var b := dbClient.backend;
              var run := Perform(b, connection.serial, [], RetrieveScript(name));
              && FaultOf(r) == run.outcome && Concluded(connection.log, connection.status, run)
              && (r.Ok? ==> r.value == Structure(b.vertex(Request(connection.serial, [], VertexByName(name))).id, name))
    {
      var c := dbClient.GetConnection();
      connection := c;
      r := RetrieveOn(c, name);
      if r.Err? {
        c.Abort();
      }
    }

    /** The try block of `retrieveFromDatabase`. */
    method RetrieveOn(connection: Connection, name: string) returns (r: Result<Structure>)
      requires Valid() && connection.client == dbClient
      requires connection.log == [] && connection.status == Open
      modifies connection
      ensures var b := dbClient.backend;
              var run := Perform(b, connection.serial, [], RetrieveScript(name));
              && FaultOf(r) == run.outcome && Attempted(connection.log, connection.status, run)
              && (r.Ok? ==> r.value == Structure(b.vertex(Request(connection.serial, [], VertexByName(name))).id, name))
    {
      ghost var b, script := dbClient.backend, RetrieveScript(name);
      Begin(b, connection.serial, script);
      ghost var issued := connection.log;
      var predicates: seq<DbDataContainer> := [];
      predicates := predicates + [DbDataContainer("name", STRING, name)];
      predicates := predicates + [DbDataContainer("label", STRING, "Nodes")];
      assert predicates == [DbDataContainer("name", STRING, name), DbDataContainer("label", STRING, "Nodes")];
      var vertex :- connection.GetVertex(predicates);
      Advance(b, connection.serial, script, 0, issued, connection.log);
      issued := connection.log;
      var id := vertex.id;
      :- connection.Commit();
      Advance(b, connection.serial, script, 1, issued, connection.log);
      r := Ok(Structure(id, name));
    }

    /** `update(connection, itemId, childId, parent)`: forwards `"Structures." + itemId` to the item
        factory, and `childId` and `parent` unchanged. */
    method Update(connection: Connection, itemId: string, childId: string, parent: Option<string>) returns (o: Outcome)
      requires connection.status == Open
      modifies connection
      ensures connection.log == old(connection.log) + [ItemUpdate("Structures." + itemId, childId, parent)]
      ensures connection.status == Open
      ensures o == connection.client.backend.fault(
                     Request(connection.serial, old(connection.log), ItemUpdate("Structures." + itemId, childId, parent)))
    {
      o := itemFactory.Update(connection, ItemId(Structures, itemId), childId, parent);
    }
  }
}
