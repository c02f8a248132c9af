/** `PostgresLineageEdgeFactory`: lineage-edge items on the relational backend. */
module PostgresLineageEdges {
  import opened Errors
  import opened Models
  import opened ItemIds
  import opened Db
  import opened Transactions
  import opened Collaborators

  /** The steps of `create(name)`: register the item, insert its `LineageEdges` row, commit. */
  function CreateScript(name: string): (r: seq<Step>)
    ensures CommitsLast(r)
  {
    var uniqueId := ItemId(LineageEdges, name);
    [ Issue(ItemInsert(uniqueId)),
      Issue(Insert("LineageEdges", [DbDataContainer("name", STRING, name), DbDataContainer("item_id", STRING, uniqueId)])),
      Issue(Commit) ]
  }

  /** The lookup `retrieveFromDatabase(name)` issues. */
  function SelectByName(name: string): Op
  {
    EqualitySelect("LineageEdges", SelectStar, [DbDataContainer("name", STRING, name)])
  }

  /** The steps of `retrieveFromDatabase(name)`, given what reading the id column yields:
      select by name, read column 1, commit. */
  function RetrieveScript(name: string, idColumn: Result<string>): (r: seq<Step>)
    ensures CommitsLast(r)
  {
    [Issue(SelectByName(name)), Check(FaultOf(idColumn)), Issue(Commit)]
  }

  /** What `create(name)` does on connection `serial`: it registers the item `"LineageEdges." + name`,
      then inserts the row (`name`, `item_id`), then commits, each call seeing the ones before it,
      and it stops at the first of them that throws, surfacing that exception. */
  lemma {:induction false} CreateRun(b: Backend, serial: nat, name: string)
    ensures var uniqueId := ItemId(LineageEdges, name);
            var register := ItemInsert(uniqueId);
            var row := Insert("LineageEdges", [DbDataContainer("name", STRING, name), DbDataContainer("item_id", STRING, uniqueId)]);
            var registered := b.fault(Request(serial, [], register));
            var inserted := b.fault(Request(serial, [register], row));
            Perform(b, serial, [], CreateScript(name)) ==
              if registered.Fail? then Run([register], registered)
              else if inserted.Fail? then Run([register, row], inserted)
              else Run([register, row, Commit], b.fault(Request(serial, [register, row], Commit)))
  {
    var uniqueId := ItemId(LineageEdges, name);
    var register := ItemInsert(uniqueId);
    var row := Insert("LineageEdges", [DbDataContainer("name", STRING, name), DbDataContainer("item_id", STRING, uniqueId)]);
    var script := CreateScript(name);
    assert [] + [register] == [register] && [register] + [row] == [register, row];
    assert script[1..][1..][1..] == [];
    assert Perform(b, serial, [register, row], script[2..]) == Run([Commit], b.fault(Request(serial, [register, row], Commit)));
    assert script[1..][1..] == script[2..];
  }

  /** What `retrieveFromDatabase(name)` does on connection `serial`: it selects by name, reads the id from
      column 1, then commits, and it stops at the first of these that throws, surfacing that exception. */
  lemma {:induction false} RetrieveRun(b: Backend, serial: nat, name: string)
    ensures var select := EqualitySelect("LineageEdges", SelectStar, [DbDataContainer("name", STRING, name)]);
            var selected := b.fault(Request(serial, [], select));
            var idColumn := b.rows(Request(serial, [], select)).GetString(1);
            Perform(b, serial, [], RetrieveScript(name, idColumn)) ==
              if selected.Fail? then Run([select], selected)
              else if idColumn.Err? then Run([select], Fail(idColumn.error))
              else Run([select, Commit], b.fault(Request(serial, [select], Commit)))
  {
    var select := SelectByName(name);
    var script := RetrieveScript(name, b.rows(Request(serial, [], select)).GetString(1));
    assert [] + [select] == [select] && [select] + [] == [select];
    assert script[1..][1..][1..] == [];
    assert Perform(b, serial, [select], script[2..]) == Run([Commit], b.fault(Request(serial, [select], Commit)));
    assert script[1..][1..] == script[2..];
  }


  class PostgresLineageEdgeFactory {
    const dbClient: DbClient
    const itemFactory: ItemFactory

    ghost predicate Valid()
    {
      dbClient.engine == Postgres
    }

    constructor (itemFactory: ItemFactory, dbClient: DbClient)
      requires dbClient.engine == Postgres
      ensures Valid() && this.itemFactory == itemFactory && this.dbClient == dbClient
    {
      this.dbClient := dbClient;
      this.itemFactory := itemFactory;
    }

    /** `create(name)`: on a fresh connection, performs `CreateScript(name)`; commits and returns the
        lineage edge `("LineageEdges." + name, name)` when every step goes through, and otherwise
        aborts and rethrows the exception of the first step that threw. */
    method Create(name: string) returns (r: Result<LineageEdge>, ghost connection: Connection)
      requires Valid()
      modifies dbClient
      ensures dbClient.handedOut == old(dbClient.handedOut) + 1
      ensures fresh(connection) && connection.client == dbClient && connection.serial == old(dbClient.handedOut)
      ensures var run := Perform(dbClient.backend, connection.serial, [], CreateScript(name));
              FaultOf(r) == run.outcome && Concluded(connection.log, connection.status, run)
      ensures r.Ok? ==> r.value == LineageEdge(ItemId(LineageEdges, name), name)
    {
      var c := dbClient.GetConnection();
      connection := c;
      r := CreateOn(c, name);
      if r.Err? {
        c.Abort();
      }
    }

    /** The try block of `create`. */
    method CreateOn(connection: Connection, name: string) returns (r: Result<LineageEdge>)
      requires Valid() && connection.client == dbClient
      requires connection.log == [] && connection.status == Open
      modifies connection
      ensures var run := Perform(dbClient.backend, connection.serial, [], CreateScript(name));
              FaultOf(r) == run.outcome && Attempted(connection.log, connection.status, run)
      ensures r.Ok? ==> r.value == LineageEdge(ItemId(LineageEdges, name), name)
    {
      ghost var b, script := dbClient.backend, CreateScript(name);
      Begin(b, connection.serial, script);
      ghost var issued := connection.log;
      var uniqueId := ItemId(LineageEdges, name);
      :- itemFactory.InsertIntoDatabase(connection, uniqueId);
      Advance(b, connection.serial, script, 0, issued, connection.log);
      issued := connection.log;
      var insertions: seq<DbDataContainer> := [];
      insertions := insertions + [DbDataContainer("name", STRING, name)];
      insertions := insertions + [DbDataContainer("item_id", STRING, uniqueId)];
      assert insertions == [DbDataContainer("name", STRING, name), DbDataContainer("item_id", STRING, uniqueId)];
      :- connection.Insert("LineageEdges", insertions);
      Advance(b, connection.serial, script, 1, issued, connection.log);
      issued := connection.log;
      :- connection.Commit();
      Advance(b, connection.serial, script, 2, issued, connection.log);
      r := Ok(LineageEdge(uniqueId, name));
    }

    /** `retrieveFromDatabase(name)`: selects the `LineageEdges` row by name, reads the id from
        column 1 and returns `(id, name)` after committing; aborts and rethrows on any exception. */
    method RetrieveFromDatabase(name: string) returns (r: Result<LineageEdge>, ghost connection: Connection)
      requires Valid()
      modifies dbClient
      ensures dbClient.handedOut == old(dbClient.handedOut) + 1
      ensures fresh(connection) && connection.client == dbClient && connection.serial == old(dbClient.handedOut)
      ensures var b := dbClient.backend;
              var idColumn := b.rows(Request(connection.serial, [], SelectByName(name))).GetString(1);
              var run := Perform(b, connection.serial, [], RetrieveScript(name, idColumn));
              && FaultOf(r) == run.outcome && Concluded(connection.log, connection.status, run)
              && (r.Ok? ==> idColumn == Ok(r.value.id) && r.value.name == name)
    {
      var c := dbClient.GetConnection();
      connection := c;
      r := RetrieveOn(c, name);
      if r.Err? {
        c.Abort();
      }
    }

    /** The try block of `retrieveFromDatabase`. */
    method RetrieveOn(connection: Connection, name: string) returns (r: Result<LineageEdge>)
      requires Valid() && connection.client == dbClient
      requires connection.log == [] && connection.status == Open
      modifies connection
      ensures var b := dbClient.backend;
              var idColumn := b.rows(Request(connection.serial, [], SelectByName(name))).GetString(1);
              var run := Perform(b, connection.serial, [], RetrieveScript(name, idColumn));
              && FaultOf(r) == run.outcome && Attempted(connection.log, connection.status, run)
              && (r.Ok? ==> idColumn == Ok(r.value.id) && r.value.name == name)
    {
      ghost var b := dbClient.backend;
      ghost var script := RetrieveScript(name, b.rows(Request(connection.serial, [], SelectByName(name))).GetString(1));
      Begin(b, connection.serial, script);
      ghost var issued := connection.log;
      var predicates: seq<DbDataContainer> := [];
      predicates := predicates + [DbDataContainer("name", STRING, name)];
      assert predicates == [DbDataContainer("name", STRING, name)];
      var resultSet :- connection.EqualitySelect("LineageEdges", SelectStar, predicates);
      Advance(b, connection.serial, script, 0, issued, connection.log);
      issued := connection.log;
      var id :- resultSet.GetString(1);
      Advance(b, connection.serial, script, 1, issued, connection.log);
      :- connection.Commit();
      Advance(b, connection.serial, script, 2, issued, connection.log);
      r := Ok(LineageEdge(id, name));
    }

    /** `update(connection, itemId, childId, parent)`: forwards all three to the item factory unchanged. */
    method Update(connection: Connection, itemId: string, childId: string, parent: Option<string>) returns (o: Outcome)
      requires connection.status == Open
      modifies connection
      ensures connection.log == old(connection.log) + [ItemUpdate(itemId, childId, parent)]
      ensures connection.status == Open
      ensures o == connection.client.backend.fault(
                     Request(connection.serial, old(connection.log), ItemUpdate(itemId, childId, parent)))
    {
      o := itemFactory.Update(connection, itemId, childId, parent);
    }
  }
}
