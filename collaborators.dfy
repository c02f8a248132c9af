/** The collaborators the factories call but whose code is not part of this model: the id
    generator, the item factory, the rich-version factory and the Postgres node factory. Each is
    given only what the call sites rely on: it returns something, or it throws. The three that are
    handed the connection act through it, so each of their calls is one opaque entry of the
    connection's log whose failure the engine decides. */
module Collaborators {
  import opened Errors
  import opened Models
  import opened Db

  /** `IdGenerator.generateId(scopeId)`; its answers are a parameter of the model. */
  class IdGenerator {
    const answer: (nat, string) -> Result<string>
    /** How many ids have been asked for. */
    var calls: nat

    constructor (answer: (nat, string) -> Result<string>)
      ensures this.answer == answer && calls == 0
    {
      this.answer := answer;
      calls := 0;
    }

    method GenerateId(scopeId: string) returns (r: Result<string>)
      modifies this
      ensures calls == old(calls) + 1
      ensures r == answer(old(calls), scopeId)
    {
      r := answer(calls, scopeId);
      calls := calls + 1;
    }
  }

  /** `ItemFactory` of any backend: registers items and links versions into their DAG. */
  class ItemFactory {
    constructor () {}

    method InsertIntoDatabase(connection: Connection, itemId: string) returns (o: Outcome)
      requires connection.status == Open
      modifies connection
      ensures connection.log == old(connection.log) + [ItemInsert(itemId)] && connection.status == Open
      ensures o == connection.client.backend.fault(Request(connection.serial, old(connection.log), ItemInsert(itemId)))
    {
      o := connection.Issue(ItemInsert(itemId));
    }

    method Update(connection: Connection, itemId: string, childId: string, parent: Option<string>) returns (o: Outcome)
      requires connection.status == Open
      modifies connection
      ensures connection.log == old(connection.log) + [ItemUpdate(itemId, childId, parent)]
      ensures connection.status == Open
      ensures o == connection.client.backend.fault(
                     Request(connection.serial, old(connection.log), ItemUpdate(itemId, childId, parent)))
    {
      o := connection.Issue(ItemUpdate(itemId, childId, parent));
    }
  }

  /** `PostgresRichVersionFactory`: stores and reads the tags, schema binding and reference of a version. */
  class RichVersionFactory {
    constructor () {}

    method InsertIntoDatabase(connection: Connection, id: string, tags: Option<map<string, Tag>>,
                              structureVersionId: Option<string>, reference: Option<string>,
                              parameters: Option<map<string, string>>) returns (o: Outcome)
      requires connection.status == Open
      modifies connection
      ensures var op := RichVersionInsert(id, tags, structureVersionId, reference, parameters);
              connection.log == old(connection.log) + [op] && connection.status == Open &&
              o == connection.client.backend.fault(Request(connection.serial, old(connection.log), op))
    {
      o := connection.Issue(RichVersionInsert(id, tags, structureVersionId, reference, parameters));
    }

    method RetrieveFromDatabase(connection: Connection, id: string) returns (r: Result<RichVersion>)
      requires connection.status == Open
      modifies connection
      ensures connection.log == old(connection.log) + [RichVersionRetrieve(id)] && connection.status == Open
      ensures var req := Request(connection.serial, old(connection.log), RichVersionRetrieve(id));
              var b := connection.client.backend;
              r == if b.fault(req).Fail? then Err(b.fault(req).error) else Ok(b.richVersion(req))
    {
      var req := Request(connection.serial, connection.log, RichVersionRetrieve(id));
      var o := connection.Issue(req.op);
      r := if o.Fail? then Err(o.error) else Ok(connection.client.backend.richVersion(req));
    }
  }

  /** `PostgresNodeFactory`, of which only `update` is called here. */
  class PostgresNodeFactory {
    constructor () {}

    method Update(connection: Connection, nodeId: string, childId: string, parent: Option<string>) returns (o: Outcome)
      requires connection.status == Open
      modifies connection
      ensures connection.log == old(connection.log) + [NodeUpdate(nodeId, childId, parent)]
      ensures connection.status == Open
      ensures o == connection.client.backend.fault(
                     Request(connection.serial, old(connection.log), NodeUpdate(nodeId, childId, parent)))
    {
      o := connection.Issue(NodeUpdate(nodeId, childId, parent));
    }
  }
}
