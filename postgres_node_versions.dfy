/** `PostgresNodeVersionFactory`: node versions on the relational backend. */
module PostgresNodeVersions {
  import opened Errors
  import opened Models
  import opened Db
  import opened Transactions
  import opened Collaborators
  import opened Tags

  /** The steps of `create`, given what generating the version id yielded: the generation, then
      `StoreScript` under the new id. */
  function CreateScript(generated: Result<string>, tags: Option<map<string, Tag>>,
                        structureVersionId: Option<string>, reference: Option<string>,
                        parameters: Option<map<string, string>>, nodeId: string,
                        parentId: Option<string>): (r: seq<Step>)
    requires tags.Some? ==> DistinctKeys(tags.value)
    ensures generated.Ok? ==> CommitsLast(r)
    ensures generated.Err? ==> Ops(r) == []
  {
    match generated
    case Err(e) => [Check(Fail(e))]
    case Ok(id) => [Check(Pass)] + StoreScript(id, tags, structureVersionId, reference, parameters, nodeId, parentId)
  }

  /** The calls of `create` once version id `id` is known: store the rich version under `id` with
      its tags re-keyed to `id`, insert the `NodeVersions` row, link the version into the node's
      history, commit. */
  function StoreScript(id: string, tags: Option<map<string, Tag>>, structureVersionId: Option<string>,
                       reference: Option<string>, parameters: Option<map<string, string>>, nodeId: string,
                       parentId: Option<string>): (r: seq<Step>)
    requires tags.Some? ==> DistinctKeys(tags.value)
    ensures CommitsLast(r)
  {
    [ Issue(RichVersionInsert(id, RekeyTags(tags, id), structureVersionId, reference, parameters)),
      Issue(Insert("NodeVersions", [DbDataContainer("id", STRING, id), DbDataContainer("node_id", STRING, nodeId)])),
      Issue(NodeUpdate(nodeId, id, parentId)),
      Issue(Commit) ]
  }

  /** The lookup of the `NodeVersions` row of version `id`. */
  function SelectById(id: string): Op
  {
    EqualitySelect("NodeVersions", SelectStar, [DbDataContainer("id", STRING, id)])
  }

  /** The steps of `retrieveFromDatabase(id)`, given what reading the node-id column yields:
      read the rich version, select the `NodeVersions` row, read column 2, commit. */
  function RetrieveScript(id: string, nodeIdColumn: Result<string>): (r: seq<Step>)
    ensures CommitsLast(r)
  {
    [Issue(RichVersionRetrieve(id)), Issue(SelectById(id)), Check(FaultOf(nodeIdColumn)), Issue(Commit)]
  }

  /** The steps of `getTransitiveClosure(nodeVersionId)`. */
  function ClosureScript(nodeVersionId: string): (r: seq<Step>)
    ensures CommitsLast(r)
  {
    [Issue(TransitiveClosure(nodeVersionId)), Issue(Commit)]
  }

  /** What `create` does on connection `serial` once the id generator has answered `generated`: if
      it threw, nothing is issued and its exception surfaces; otherwise, under the one generated id,
      it stores the rich version with the re-keyed tags, inserts the `NodeVersions` row (`id`,
      `node_id`), links the version into the node's history as the child of `parentId`, then
      commits, each call seeing the ones before it, and it stops at the first that throws. */
  lemma {:induction false} CreateRun(b: Backend, serial: nat, generated: Result<string>,
                                     tags: Option<map<string, Tag>>, structureVersionId: Option<string>,
                                     reference: Option<string>, parameters: Option<map<string, string>>,
                                     nodeId: string, parentId: Option<string>)
    requires tags.Some? ==> DistinctKeys(tags.value)
    ensures var run := Perform(b, serial, [], CreateScript(generated, tags, structureVersionId, reference,
                                                           parameters, nodeId, parentId));
            if generated.Err? then run == Run([], Fail(generated.error))
            else
              var id := generated.value;
              var rich := RichVersionInsert(id, RekeyTags(tags, id), structureVersionId, reference, parameters);
              var row := Insert("NodeVersions", [DbDataContainer("id", STRING, id), DbDataContainer("node_id", STRING, nodeId)]);
              var link := NodeUpdate(nodeId, id, parentId);
              var stored := b.fault(Request(serial, [], rich));
              var inserted := b.fault(Request(serial, [rich], row));
              var linked := b.fault(Request(serial, [rich, row], link));
              run ==
                if stored.Fail? then Run([rich], stored)
                else if inserted.Fail? then Run([rich, row], inserted)
                else if linked.Fail? then Run([rich, row, link], linked)
                else Run([rich, row, link, Commit], b.fault(Request(serial, [rich, row, link], Commit)))
  {
    if generated.Ok? {
      var id := generated.value;
      var rich := RichVersionInsert(id, RekeyTags(tags, id), structureVersionId, reference, parameters);
      var row := Insert("NodeVersions", [DbDataContainer("id", STRING, id), DbDataContainer("node_id", STRING, nodeId)]);
      var link := NodeUpdate(nodeId, id, parentId);
      PerformPastCheck(b, serial, [], StoreScript(id, tags, structureVersionId, reference, parameters, nodeId, parentId));
      StoreRun(b, serial, rich, row, link);
    }
  }

  /** Four calls issued in order, each seeing the ones before it, stopping at the first that throws. */
  lemma StoreRun(b: Backend, serial: nat, rich: Op, row: Op, link: Op)
    ensures var stored := b.fault(Request(serial, [], rich));
            var inserted := b.fault(Request(serial, [rich], row));
            var linked := b.fault(Request(serial, [rich, row], link));
            Perform(b, serial, [], [Issue(rich), Issue(row), Issue(link), Issue(Commit)]) ==
              if stored.Fail? then Run([rich], stored)
              else if inserted.Fail? then Run([rich, row], inserted)
              else if linked.Fail? then Run([rich, row, link], linked)
              else Run([rich, row, link, Commit], b.fault(Request(serial, [rich, row, link], Commit)))
  {
    var script := [Issue(rich), Issue(row), Issue(link), Issue(Commit)];
    var committed := b.fault(Request(serial, [rich, row, link], Commit));
    var linked := b.fault(Request(serial, [rich, row], link));
    var inserted := b.fault(Request(serial, [rich], row));
    assert [] + [rich] == [rich];
    assert [rich] + [row] == [rich, row] && [rich, row] + [link] == [rich, row, link];
    assert script[3..][1..] == [];
    assert Perform(b, serial, [rich, row, link], script[3..]) == Run([Commit], committed);
    assert script[2..][1..] == script[3..];
    assert Perform(b, serial, [rich, row], script[2..]) ==
           if linked.Fail? then Run([link], linked) else Run([link, Commit], committed);
    assert script[1..][1..] == script[2..];
    assert Perform(b, serial, [rich], script[1..]) ==
           if inserted.Fail? then Run([row], inserted)
           else if linked.Fail? then Run([row, link], linked)
           else Run([row, link, Commit], committed);
  }

  /** What `retrieveFromDatabase(id)` does on connection `serial`: it reads the rich version, selects
      the `NodeVersions` row, reads the node id from column 2, then commits, and it stops at the first of
      these that throws, surfacing that exception. */
  lemma {:induction false} RetrieveRun(b: Backend, serial: nat, id: string)
    ensures var read := RichVersionRetrieve(id);
            var select := EqualitySelect("NodeVersions", SelectStar, [DbDataContainer("id", STRING, id)]);
            var fetched := b.fault(Request(serial, [], read));
            var selected := b.fault(Request(serial, [read], select));
            var nodeIdColumn := b.rows(Request(serial, [read], select)).GetString(2);
            Perform(b, serial, [], RetrieveScript(id, nodeIdColumn)) ==
              if fetched.Fail? then Run([read], fetched)
              else if selected.Fail? then Run([read, select], selected)
              else if nodeIdColumn.Err? then Run([read, select], Fail(nodeIdColumn.error))
              else Run([read, select, Commit], b.fault(Request(serial, [read, select], Commit)))
  {
    var read := RichVersionRetrieve(id);
    var select := SelectById(id);
    var nodeIdColumn := b.rows(Request(serial, [read], select)).GetString(2);
    var script := RetrieveScript(id, nodeIdColumn);
    assert [] + [read] == [read] && [read] + [select] == [read, select] && [read, select] + [] == [read, select];
    assert script[3..][1..] == [];
    var committed := b.fault(Request(serial, [read, select], Commit));
    assert Perform(b, serial, [read, select], script[3..]) == Run([Commit], committed);
    assert script[2..][1..] == script[3..];
    assert Perform(b, serial, [read, select], script[2..]) ==
           if nodeIdColumn.Err? then Run([], Fail(nodeIdColumn.error)) else Run([Commit], committed);
    assert script[1..][1..] == script[2..];
  }


  /** What `getTransitiveClosure(nodeVersionId)` does on connection `serial`: it asks for the
      closure, then commits, and it stops at the first of these that throws. */
  lemma {:induction false} ClosureRun(b: Backend, serial: nat, nodeVersionId: string)
    ensures var ask := TransitiveClosure(nodeVersionId);
            var asked := b.fault(Request(serial, [], ask));
            Perform(b, serial, [], ClosureScript(nodeVersionId)) ==
              if asked.Fail? then Run([ask], asked)
              else Run([ask, Commit], b.fault(Request(serial, [ask], Commit)))
  {
    var ask := TransitiveClosure(nodeVersionId);
    var script := ClosureScript(nodeVersionId);
    assert [] + [ask] == [ask];
    assert script[1..][1..] == [];
    assert Perform(b, serial, [ask], script[1..]) == Run([Commit], b.fault(Request(serial, [ask], Commit)));
  }

  class PostgresNodeVersionFactory {
    const dbClient: DbClient
    const nodeFactory: PostgresNodeFactory
    const richVersionFactory: RichVersionFactory
    const idGenerator: IdGenerator

    ghost predicate Valid()
    {
      dbClient.engine == Postgres
    }

    constructor (nodeFactory: PostgresNodeFactory, richVersionFactory: RichVersionFactory,
                 dbClient: DbClient, idGenerator: IdGenerator)
      requires dbClient.engine == Postgres
      ensures Valid() && this.nodeFactory == nodeFactory && this.richVersionFactory == richVersionFactory
      ensures this.dbClient == dbClient && this.idGenerator == idGenerator
    {
      this.dbClient := dbClient;
      this.nodeFactory := nodeFactory;
      this.richVersionFactory := richVersionFactory;
      this.idGenerator := idGenerator;
    }

    /** `create(tags, structureVersionId, reference, parameters, nodeId, parentId)`: asks for one
        new id in scope `nodeId` and, on a fresh connection, performs `CreateScript`; when every step
        goes through it commits and returns the node version under the new id with the re-keyed
        tags and every other input unchanged, and otherwise aborts and rethrows the exception of
        the first step that threw. */
    method Create(tags: Option<map<string, Tag>>, structureVersionId: Option<string>, reference: Option<string>,
                  parameters: Option<map<string, string>>, nodeId: string, parentId: Option<string>)
      returns (r: Result<NodeVersion>, ghost connection: Connection)
      requires Valid()
      requires tags.Some? ==> DistinctKeys(tags.value)
      modifies dbClient, idGenerator
      ensures dbClient.handedOut == old(dbClient.handedOut) + 1
      ensures fresh(connection) && connection.client == dbClient && connection.serial == old(dbClient.handedOut)
      ensures idGenerator.calls == old(idGenerator.calls) + 1
      ensures var generated := idGenerator.answer(old(idGenerator.calls), nodeId);
              var script := CreateScript(generated, tags, structureVersionId, reference, parameters, nodeId, parentId);
              var run := Perform(dbClient.backend, connection.serial, [], script);
              && FaultOf(r) == run.outcome && Concluded(connection.log, connection.status, run)
              && (r.Ok? ==> generated == Ok(r.value.id))
      ensures r.Ok? ==>
                r.value == NodeVersion(r.value.id, RekeyTags(tags, r.value.id), structureVersionId, reference, parameters, nodeId)
    {
      var c := dbClient.GetConnection();
      connection := c;
      r := CreateOn(c, tags, structureVersionId, reference, parameters, nodeId, parentId);
      if r.Err? {
        c.Abort();
      }
    }

    /** The try block of `create`. */
    method CreateOn(connection: Connection, tags: Option<map<string, Tag>>, structureVersionId: Option<string>,
                    reference: Option<string>, parameters: Option<map<string, string>>, nodeId: string,
                    parentId: Option<string>)
      returns (r: Result<NodeVersion>)
      requires Valid() && connection.client == dbClient
      requires connection.log == [] && connection.status == Open
      requires tags.Some? ==> DistinctKeys(tags.value)
      modifies connection, idGenerator
      ensures idGenerator.calls == old(idGenerator.calls) + 1
      ensures var generated := idGenerator.answer(old(idGenerator.calls), nodeId);
              var script := CreateScript(generated, tags, structureVersionId, reference, parameters, nodeId, parentId);
              var run := Perform(dbClient.backend, connection.serial, [], script);
              && FaultOf(r) == run.outcome && Attempted(connection.log, connection.status, run)
              && (r.Ok? ==> generated == Ok(r.value.id))
      ensures r.Ok? ==>
                r.value == NodeVersion(r.value.id, RekeyTags(tags, r.value.id), structureVersionId, reference, parameters, nodeId)
    {
      var generated := idGenerator.GenerateId(nodeId);
      if generated.Err? {
        r := Err(generated.error);
        return;
      }
      var id := generated.value;
      r := StoreOn(connection, id, tags, structureVersionId, reference, parameters, nodeId, parentId);
      PerformPastCheck(dbClient.backend, connection.serial, [],
                       StoreScript(id, tags, structureVersionId, reference, parameters, nodeId, parentId));
    }

    /** The rest of the try block of `create`, once version id `id` is known. */
    method StoreOn(connection: Connection, id: string, tags: Option<map<string, Tag>>,
                   structureVersionId: Option<string>, reference: Option<string>,
                   parameters: Option<map<string, string>>, nodeId: string, parentId: Option<string>)
      returns (r: Result<NodeVersion>)
      requires Valid() && connection.client == dbClient
      requires connection.log == [] && connection.status == Open
      requires tags.Some? ==> DistinctKeys(tags.value)
      modifies connection
      ensures var script := StoreScript(id, tags, structureVersionId, reference, parameters, nodeId, parentId);
              var run := Perform(dbClient.backend, connection.serial, [], script);
              FaultOf(r) == run.outcome && Attempted(connection.log, connection.status, run)
      ensures r.Ok? ==> r.value == NodeVersion(id, RekeyTags(tags, id), structureVersionId, reference, parameters, nodeId)
    {
      ghost var b := dbClient.backend;
      ghost var script := StoreScript(id, tags, structureVersionId, reference, parameters, nodeId, parentId);
      Begin(b, connection.serial, script);
      ghost var issued := connection.log;

      // add the id of the version to the tags
      var versionTags := RekeyTags(tags, id);

      :- richVersionFactory.InsertIntoDatabase(connection, id, versionTags, structureVersionId, reference, parameters);
      Advance(b, connection.serial, script, 0, issued, connection.log);
      issued := connection.log;

      var insertions: seq<DbDataContainer> := [];
      insertions := insertions + [DbDataContainer("id", STRING, id)];
      insertions := insertions + [DbDataContainer("node_id", STRING, nodeId)];
      assert insertions == [DbDataContainer("id", STRING, id), DbDataContainer("node_id", STRING, nodeId)];
      :- connection.Insert("NodeVersions", insertions);
      Advance(b, connection.serial, script, 1, issued, connection.log);
      issued := connection.log;

      :- nodeFactory.Update(connection, nodeId, id, parentId);
      Advance(b, connection.serial, script, 2, issued, connection.log);
      issued := connection.log;

      :- connection.Commit();
      Advance(b, connection.serial, script, 3, issued, connection.log);

      r := Ok(NodeVersion(id, versionTags, structureVersionId, reference, parameters, nodeId));
    }

    /** `retrieveFromDatabase(id)`: reads the rich version of `id`, selects its `NodeVersions` row,
        takes the node id from column 2 and, after committing, returns the node version `id` with
        the rich version's tags, schema binding, reference and parameters unchanged; aborts and
        rethrows on any exception. */
    method RetrieveFromDatabase(id: string) returns (r: Result<NodeVersion>, ghost connection: Connection)
      requires Valid()
      modifies dbClient
      ensures dbClient.handedOut == old(dbClient.handedOut) + 1
      ensures fresh(connection) && connection.client == dbClient && connection.serial == old(dbClient.handedOut)
      ensures var b, serial := dbClient.backend, connection.serial;
              var version := b.richVersion(Request(serial, [], RichVersionRetrieve(id)));
              var nodeIdColumn := b.rows(Request(serial, [RichVersionRetrieve(id)], SelectById(id))).GetString(2);
              var run := Perform(b, serial, [], RetrieveScript(id, nodeIdColumn));
              && FaultOf(r) == run.outcome && Concluded(connection.log, connection.status, run)
              && (r.Ok? ==> nodeIdColumn == Ok(r.value.nodeId)
                            && r.value == NodeVersion(id, version.tags, version.structureVersionId, version.reference,
                                                      version.parameters, r.value.nodeId))
    {
      var c := dbClient.GetConnection();
      connection := c;
      r := RetrieveOn(c, id);
      if r.Err? {
        c.Abort();
      }
    }

    /** The try block of `retrieveFromDatabase`. */
    method RetrieveOn(connection: Connection, id: string) returns (r: Result<NodeVersion>)
      requires Valid() && connection.client == dbClient
      requires connection.log == [] && connection.status == Open
      modifies connection
      ensures var b, serial := dbClient.backend, connection.serial;
              var version := b.richVersion(Request(serial, [], RichVersionRetrieve(id)));
              var nodeIdColumn := b.rows(Request(serial, [RichVersionRetrieve(id)], SelectById(id))).GetString(2);
              var run := Perform(b, serial, [], RetrieveScript(id, nodeIdColumn));
              && FaultOf(r) == run.outcome && Attempted(connection.log, connection.status, run)
              && (r.Ok? ==> nodeIdColumn == Ok(r.value.nodeId)
                            && r.value == NodeVersion(id, version.tags, version.structureVersionId, version.reference,
                                                      version.parameters, r.value.nodeId))
    {
      ghost var b, serial := dbClient.backend, connection.serial;
      ghost var nodeIdColumn := b.rows(Request(serial, [RichVersionRetrieve(id)], SelectById(id))).GetString(2);
      ghost var script := RetrieveScript(id, nodeIdColumn);
      Begin(b, serial, script);
      ghost var issued := connection.log;

      var version :- richVersionFactory.RetrieveFromDatabase(connection, id);
      Advance(b, serial, script, 0, issued, connection.log);
      issued := connection.log;

      var predicates: seq<DbDataContainer> := [];
      predicates := predicates + [DbDataContainer("id", STRING, id)];
      assert predicates == [DbDataContainer("id", STRING, id)];
      assert issued == [RichVersionRetrieve(id)];
      var resultSet :- connection.EqualitySelect("NodeVersions", SelectStar, predicates);
      assert resultSet == b.rows(Request(serial, issued, SelectById(id)));
      Advance(b, serial, script, 1, issued, connection.log);
      issued := connection.log;

      var nodeId :- resultSet.GetString(2);
      Advance(b, serial, script, 2, issued, connection.log);

      :- connection.Commit();
      Advance(b, serial, script, 3, issued, connection.log);

      r := Ok(NodeVersion(id, version.tags, version.structureVersionId, version.reference, version.parameters, nodeId));
    }

    /** `getTransitiveClosure(nodeVersionId)`: returns the list the connection answers, unchanged,
        after committing. There is no abort: an exception leaves the connection open. */
    method GetTransitiveClosure(nodeVersionId: string) returns (r: Result<seq<string>>, ghost connection: Connection)
      requires Valid()
      modifies dbClient
      ensures dbClient.handedOut == old(dbClient.handedOut) + 1
      ensures fresh(connection) && connection.client == dbClient && connection.serial == old(dbClient.handedOut)
      ensures var run := Perform(dbClient.backend, connection.serial, [], ClosureScript(nodeVersionId));
              FaultOf(r) == run.outcome && Attempted(connection.log, connection.status, run)
      ensures r.Ok? ==> r.value == dbClient.backend.closure(Request(connection.serial, [], TransitiveClosure(nodeVersionId)))
    {
      var c := dbClient.GetConnection();
      connection := c;
      ghost var b, script := dbClient.backend, ClosureScript(nodeVersionId);
      Begin(b, c.serial, script);
      ghost var issued := c.log;
      var result :- c.TransitiveClosure(nodeVersionId);
      Advance(b, c.serial, script, 0, issued, c.log);
      issued := c.log;
      :- c.Commit();
      Advance(b, c.serial, script, 1, issued, c.log);
      r := Ok(result);
    }
  }
}
