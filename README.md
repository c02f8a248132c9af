# Ground entity factories — a Dafny model

Ground is a data-context service. It stores items (nodes, edges, structures, lineage edges), their
versions, and the version history between them, on one of several storage backends: a relational
one (PostgreSQL), a wide-column one (Cassandra) and a graph one (Gremlin/TinkerPop). For each
backend, a typed factory per entity opens a connection and derives the item id
`"<Kind>." + name`. It then issues a fixed sequence of inserts or lookups. Finally it either commits
and returns a value object, or aborts the connection and rethrows the `GroundException`. Two kinds
of operation differ from this. `getTransitiveClosure` has no catch block, so an exception leaves its
connection open. `update` runs on a connection it is handed, and only forwards one call.

This project models five of those factories, and proves what each operation issues, in what order,
with which values, and how it ends:

- `PostgresNodeVersionFactory`: `create`, `retrieveFromDatabase`, `getTransitiveClosure`, and the
  re-keying of a new version's tags under its generated id;
- `PostgresLineageEdgeFactory`, `CassandraNodeFactory`, `GremlinStructureFactory` and
  `GremlinEdgeFactory`: `create`, `retrieveFromDatabase` and `update`.

The per-backend differences are kept exactly as the code has them:

- the Gremlin structure factory registers no item;
- the Gremlin structure factory looks its vertex up under the label `Nodes`, but creates it under
  the label `Structure`;
- the Gremlin factories prefix the item id in `update`, while the Postgres and Cassandra ones
  forward it unchanged;
- the id comes from column 1 for lineage edges, column 0 for Cassandra nodes, and column 2 for a
  node version's node id.

How it is modelled:

- **Connections** (`Db.Connection`) are a class. Each holds the log of calls issued on it and a
  status: open, committed or aborted.
- **The backend** (`Db.Backend`) is an oracle: a value of total functions. Given the connection's
  serial, the calls already issued and the new call, it decides whether that call throws and what
  a read answers. No table contents are invented.
- **Collaborating factories** that the code hands the connection are logged as single calls on it,
  and may throw. These are the item factory, the rich-version factory and the node factory.
- **The id generator** is a class with its own oracle.
- **A factory operation's script** is the ordered list of its calls and of its local failure points
  (generating an id, reading a column). `Transactions.Perform` runs a script against the oracle and
  stops at the first step that throws.
- **What each method promises.** Each `create` and `retrieveFromDatabase` promises that, afterwards,
  the connection is `Concluded` for the run of its script. Either the connection is committed with
  exactly the script's calls logged, or it is aborted right after the step that threw. That step
  may be a connection call, or a local failure point such as id generation or a column read, which
  issues no call. The method also surfaces that run's exception, and builds its result from the
  inputs and the oracle's answers as the code builds it.
  - `getTransitiveClosure` promises only `Attempted`: committed if the run went through, and
    otherwise left open with no abort.
  - Each `update` promises the one forwarded call on the connection it is handed, and nothing else.
- **Script lemmas.** Each script has a lemma (`CreateRun`, `RetrieveRun`, `ClosureRun`) that spells
  out its run call by call.

## Model

| member | source | states |
|---|---|---|
| `Tags.Rekey` | ground-core/src/main/java/edu/berkeley/ground/api/models/postgres/PostgresNodeVersionFactory.java:48-50 | the re-keyed map is indexed by each tag's own key; every tag carries the new version id; every input tag is there under its key with its value and value type; no other key appears |
| `Tags.RekeyTags` | ground-core/src/main/java/edu/berkeley/ground/api/models/postgres/PostgresNodeVersionFactory.java:48-50 | absent tags stay absent (they do not become an empty map); present tags are re-keyed |
| `Tags.RekeySize` | ground-core/src/main/java/edu/berkeley/ground/api/models/postgres/PostgresNodeVersionFactory.java:49 | under distinct keys, re-keying loses no tag: the result has as many entries as the input |
| `Tags.RekeyTwice` | ground-core/src/main/java/edu/berkeley/ground/api/models/postgres/PostgresNodeVersionFactory.java:48-50 | re-keyed tags still have distinct keys, and re-keying again leaves only the last version id |
| `Tags.RekeyIndexed` | ground-core/src/main/java/edu/berkeley/ground/api/models/postgres/PostgresNodeVersionFactory.java:48-50 | a map already indexed by its tags' keys keeps its keys, and each tag changes only its version id |
| `ItemIds.ItemId` | ground-core/src/main/java/edu/berkeley/ground/api/usage/postgres/PostgresLineageEdgeFactory.java:35 | the item id starts with the kind's prefix and continues with the name unchanged |
| `ItemIds.ItemIdInjective` | ground-core/src/main/java/edu/berkeley/ground/api/models/gremlin/GremlinEdgeFactory.java:34 | two items of different kinds or names never get the same id |
| `Transactions.PerformGoesThrough` | ground-core/src/main/java/edu/berkeley/ground/api/usage/postgres/PostgresLineageEdgeFactory.java:34-48 | a try block goes through exactly when none of its steps throws, and then it has issued every call of the script, in order |
| `Transactions.PerformStopsAtFirstFault` | ground-core/src/main/java/edu/berkeley/ground/api/usage/postgres/PostgresLineageEdgeFactory.java:34-53 | a try block that throws has issued the calls up to and including the first step that throws, and it surfaces exactly that step's exception |
| `Transactions.PerformIssuesPrefix` | ground-core/src/main/java/edu/berkeley/ground/api/usage/postgres/PostgresLineageEdgeFactory.java:34-53 | the calls issued are always a prefix of the script's calls, in the script's order |
| `Transactions.CommitOrAbort` | ground-core/src/main/java/edu/berkeley/ground/api/usage/postgres/PostgresLineageEdgeFactory.java:45-53 | a concluded operation is never left open; it is committed exactly when no abort was issued, and aborted exactly when it surfaced an exception |
| `Transactions.Perform` | ground-core/src/main/java/edu/berkeley/ground/api/usage/postgres/PostgresLineageEdgeFactory.java:34-53 | a try block's steps run in order against the backend; the first step that throws ends the block and its exception is the outcome |
| `Transactions.Attempted` | ground-core/src/main/java/edu/berkeley/ground/api/usage/postgres/PostgresLineageEdgeFactory.java:34-48 | the state a try block leaves: the run's calls logged, and the connection committed if the run went through and open if it threw |
| `Transactions.Concluded` | ground-core/src/main/java/edu/berkeley/ground/api/usage/postgres/PostgresLineageEdgeFactory.java:32-54 | the state a whole operation leaves: committed with the run's calls logged, or aborted right after the step that threw |
| `Transactions.CommitsLast` | ground-core/src/main/java/edu/berkeley/ground/api/usage/postgres/PostgresLineageEdgeFactory.java:34-48 | a try block commits exactly once, as its last step, and never aborts by itself |
| `Transactions.CommitOnlyAfterEverything` | ground-core/src/main/java/edu/berkeley/ground/api/usage/postgres/PostgresLineageEdgeFactory.java:37-45 | in such a block, the commit is issued only after every other step went through, and a run that goes through has committed as its last call |
| `Transactions.PerformPastCheck` | ground-core/src/main/java/edu/berkeley/ground/api/models/postgres/PostgresNodeVersionFactory.java:45-52 | a local step that goes through issues nothing and leaves the rest of the run unchanged |
| `Db.DbClient.constructor` | ground-core/src/main/java/edu/berkeley/ground/api/usage/postgres/PostgresLineageEdgeFactory.java:23 | a client of the given engine over the given backend, which has handed out no connections yet |
| `Db.DbClient.GetConnection` | ground-core/src/main/java/edu/berkeley/ground/api/usage/postgres/PostgresLineageEdgeFactory.java:33 | each operation gets a fresh open connection with an empty log and its own serial |
| `Db.Connection.constructor` | ground-core/src/main/java/edu/berkeley/ground/api/usage/postgres/PostgresLineageEdgeFactory.java:33 | a new connection is open and has issued nothing |
| `Db.Connection.Issue` | ground-core/src/main/java/edu/berkeley/ground/api/usage/postgres/PostgresLineageEdgeFactory.java:43 | a call is appended to the log; whether it throws is the backend's answer for the calls issued before it |
| `Db.Connection.Insert` | ground-core/src/main/java/edu/berkeley/ground/api/usage/postgres/PostgresLineageEdgeFactory.java:43 | the insert is logged with its table and its insertions in order, and may throw |
| `Db.Connection.EqualitySelect` | ground-core/src/main/java/edu/berkeley/ground/api/usage/postgres/PostgresLineageEdgeFactory.java:63 | the select is logged; it throws, or returns the backend's result set for it |
| `Db.Connection.AddVertex` | ground-core/src/main/java/edu/berkeley/ground/api/models/gremlin/GremlinStructureFactory.java:40 | the vertex is logged with its label and properties, and may throw |
| `Db.Connection.GetVertex` | ground-core/src/main/java/edu/berkeley/ground/api/models/gremlin/GremlinStructureFactory.java:61 | the lookup is logged; it throws, or returns the backend's vertex for it |
| `Db.Connection.TransitiveClosure` | ground-core/src/main/java/edu/berkeley/ground/api/models/postgres/PostgresNodeVersionFactory.java:98 | the closure query is logged; it throws, or returns the backend's list for it |
| `Db.Connection.Commit` | ground-core/src/main/java/edu/berkeley/ground/api/usage/postgres/PostgresLineageEdgeFactory.java:45 | the commit is logged; the connection is committed when it goes through, and stays open when it throws |
| `Db.Connection.Abort` | ground-core/src/main/java/edu/berkeley/ground/api/usage/postgres/PostgresLineageEdgeFactory.java:50 | the abort is logged and the connection is aborted |
| `Collaborators.IdGenerator.constructor` | ground-core/src/main/java/edu/berkeley/ground/api/models/postgres/PostgresNodeVersionFactory.java:45 | the generator answers from its oracle, having been asked nothing yet |
| `Collaborators.IdGenerator.GenerateId` | ground-core/src/main/java/edu/berkeley/ground/api/models/postgres/PostgresNodeVersionFactory.java:45 | each request yields some id, or throws, as the generator's oracle says for that request |
| `Collaborators.ItemFactory.constructor` | ground-core/src/main/java/edu/berkeley/ground/api/usage/postgres/PostgresLineageEdgeFactory.java:25 | an item factory, which holds no state of its own |
| `Collaborators.ItemFactory.InsertIntoDatabase` | ground-core/src/main/java/edu/berkeley/ground/api/usage/postgres/PostgresLineageEdgeFactory.java:37 | registering an item is one logged call on the connection, which may throw |
| `Collaborators.ItemFactory.Update` | ground-core/src/main/java/edu/berkeley/ground/api/usage/postgres/PostgresLineageEdgeFactory.java:78 | an item update is one logged call with the item id, child id and parent as given, which may throw |
| `Collaborators.RichVersionFactory.constructor` | ground-core/src/main/java/edu/berkeley/ground/api/models/postgres/PostgresNodeVersionFactory.java:26 | a rich-version factory, which holds no state of its own |
| `Collaborators.RichVersionFactory.InsertIntoDatabase` | ground-core/src/main/java/edu/berkeley/ground/api/models/postgres/PostgresNodeVersionFactory.java:52 | storing a rich version is one logged call with all its fields as given, which may throw |
| `Collaborators.RichVersionFactory.RetrieveFromDatabase` | ground-core/src/main/java/edu/berkeley/ground/api/models/postgres/PostgresNodeVersionFactory.java:77 | reading a rich version is one logged call; it throws, or returns the backend's rich version for it |
| `Collaborators.PostgresNodeFactory.constructor` | ground-core/src/main/java/edu/berkeley/ground/api/models/postgres/PostgresNodeVersionFactory.java:25 | a node factory, which holds no state of its own |
| `Collaborators.PostgresNodeFactory.Update` | ground-core/src/main/java/edu/berkeley/ground/api/models/postgres/PostgresNodeVersionFactory.java:60 | linking a version into a node's history is one logged call with node id, child id and parent as given, which may throw |
| `PostgresNodeVersions.CreateScript` | ground-core/src/main/java/edu/berkeley/ground/api/models/postgres/PostgresNodeVersionFactory.java:45-62 | if id generation throws, the script issues nothing. Otherwise it is the generation followed by `StoreScript` under the new id |
| `PostgresNodeVersions.StoreScript` | ground-core/src/main/java/edu/berkeley/ground/api/models/postgres/PostgresNodeVersionFactory.java:47-62 | store the rich version with the tags re-keyed to the id, insert the `NodeVersions` row (`id`, `node_id`), link it into the node, then commit last with no abort of its own |
| `PostgresNodeVersions.SelectById` | ground-core/src/main/java/edu/berkeley/ground/api/models/postgres/PostgresNodeVersionFactory.java:79-82 | the lookup of a version: an equality select on `NodeVersions`, all columns, by `id` |
| `PostgresNodeVersions.RetrieveScript` | ground-core/src/main/java/edu/berkeley/ground/api/models/postgres/PostgresNodeVersionFactory.java:77-85 | read the rich version, select by id, read the node id, then commit last with no abort of its own |
| `PostgresNodeVersions.ClosureScript` | ground-core/src/main/java/edu/berkeley/ground/api/models/postgres/PostgresNodeVersionFactory.java:98-100 | ask for the closure, then commit last with no abort of its own |
| `PostgresNodeVersions.CreateRun` | ground-core/src/main/java/edu/berkeley/ground/api/models/postgres/PostgresNodeVersionFactory.java:44-65 | if id generation throws, nothing is issued; otherwise one generated id is used throughout. The calls are, in order: store the rich version with the re-keyed tags, insert the `NodeVersions` row (`id`, `node_id`), update the node with that id as child of `parentId`, commit. The run stops at the first call that throws |
| `PostgresNodeVersions.StoreRun` | ground-core/src/main/java/edu/berkeley/ground/api/models/postgres/PostgresNodeVersionFactory.java:52-62 | four calls issued in order, each seeing the ones before it, stopping at the first that throws |
| `PostgresNodeVersions.RetrieveRun` | ground-core/src/main/java/edu/berkeley/ground/api/models/postgres/PostgresNodeVersionFactory.java:76-88 | read the rich version, select the `NodeVersions` row by id, read the node id from column 2 of its result, commit, stopping at the first step that throws |
| `PostgresNodeVersions.ClosureRun` | ground-core/src/main/java/edu/berkeley/ground/api/models/postgres/PostgresNodeVersionFactory.java:96-102 | ask for the closure, then commit, stopping at the first that throws |
| `PostgresNodeVersions.PostgresNodeVersionFactory.constructor` | ground-core/src/main/java/edu/berkeley/ground/api/models/postgres/PostgresNodeVersionFactory.java:28-32 | the factory keeps the node factory, rich-version factory and relational client it is given. It also takes an id generator, which stands in for the static `IdGenerator.generateId` of line 45 |
| `PostgresNodeVersions.PostgresNodeVersionFactory.Create` | ground-core/src/main/java/edu/berkeley/ground/api/models/postgres/PostgresNodeVersionFactory.java:35-71 | asks for exactly one id, in the node's scope, and uses one fresh connection. It commits and returns the version under the generated id, with the re-keyed tags and every other input unchanged; or it aborts and surfaces the first exception |
| `PostgresNodeVersions.PostgresNodeVersionFactory.CreateOn` | ground-core/src/main/java/edu/berkeley/ground/api/models/postgres/PostgresNodeVersionFactory.java:44-65 | the try block of `create` asks for exactly one id; if that throws it issues nothing and fails with that error, otherwise it leaves the connection as `StoreOn` does under that id |
| `PostgresNodeVersions.PostgresNodeVersionFactory.StoreOn` | ground-core/src/main/java/edu/berkeley/ground/api/models/postgres/PostgresNodeVersionFactory.java:47-65 | once the id is known, the rest of the try block leaves the connection committed after the whole of `StoreScript`, or open after the step that threw, and returns the version with the re-keyed tags |
| `PostgresNodeVersions.PostgresNodeVersionFactory.RetrieveFromDatabase` | ground-core/src/main/java/edu/berkeley/ground/api/models/postgres/PostgresNodeVersionFactory.java:73-94 | commits and returns version `id` with the rich version's tags, schema id, reference and parameters unchanged, and the node id read from column 2; or aborts and surfaces the first exception |
| `PostgresNodeVersions.PostgresNodeVersionFactory.RetrieveOn` | ground-core/src/main/java/edu/berkeley/ground/api/models/postgres/PostgresNodeVersionFactory.java:76-88 | the try block of `retrieveFromDatabase`, which leaves the connection committed or open |
| `PostgresNodeVersions.PostgresNodeVersionFactory.GetTransitiveClosure` | ground-core/src/main/java/edu/berkeley/ground/api/models/postgres/PostgresNodeVersionFactory.java:96-102 | returns the connection's list unchanged and commits; on an exception the connection is left open, never aborted |
| `PostgresLineageEdges.CreateScript` | ground-core/src/main/java/edu/berkeley/ground/api/usage/postgres/PostgresLineageEdgeFactory.java:35-45 | register the item, insert the `LineageEdges` row, then commit last with no abort of its own |
| `PostgresLineageEdges.SelectByName` | ground-core/src/main/java/edu/berkeley/ground/api/usage/postgres/PostgresLineageEdgeFactory.java:60-63 | the lookup of a lineage edge: an equality select on `LineageEdges`, all columns, by `name` |
| `PostgresLineageEdges.RetrieveScript` | ground-core/src/main/java/edu/berkeley/ground/api/usage/postgres/PostgresLineageEdgeFactory.java:60-66 | select by name, read the id column, then commit last with no abort of its own |
| `PostgresLineageEdges.CreateRun` | ground-core/src/main/java/edu/berkeley/ground/api/usage/postgres/PostgresLineageEdgeFactory.java:33-48 | register item `"LineageEdges." + name`, then insert the row with exactly `name` and `item_id`, then commit, stopping at the first that throws |
| `PostgresLineageEdges.RetrieveRun` | ground-core/src/main/java/edu/berkeley/ground/api/usage/postgres/PostgresLineageEdgeFactory.java:59-69 | select `LineageEdges` by `name`, read the id from column 1 of its result, commit, stopping at the first step that throws |
| `PostgresLineageEdges.PostgresLineageEdgeFactory.constructor` | ground-core/src/main/java/edu/berkeley/ground/api/usage/postgres/PostgresLineageEdgeFactory.java:27-30 | the factory keeps the item factory and relational client it is given |
| `PostgresLineageEdges.PostgresLineageEdgeFactory.Create` | ground-core/src/main/java/edu/berkeley/ground/api/usage/postgres/PostgresLineageEdgeFactory.java:32-54 | commits and returns `("LineageEdges." + name, name)`, or aborts and surfaces the first exception |
| `PostgresLineageEdges.PostgresLineageEdgeFactory.CreateOn` | ground-core/src/main/java/edu/berkeley/ground/api/usage/postgres/PostgresLineageEdgeFactory.java:34-48 | the try block of `create`, which leaves the connection committed or open |
| `PostgresLineageEdges.PostgresLineageEdgeFactory.RetrieveFromDatabase` | ground-core/src/main/java/edu/berkeley/ground/api/usage/postgres/PostgresLineageEdgeFactory.java:56-75 | commits and returns (column 1 of the select by name, the name unchanged), or aborts and surfaces the first exception |
| `PostgresLineageEdges.PostgresLineageEdgeFactory.RetrieveOn` | ground-core/src/main/java/edu/berkeley/ground/api/usage/postgres/PostgresLineageEdgeFactory.java:59-69 | the try block of `retrieveFromDatabase`, which leaves the connection committed or open |
| `PostgresLineageEdges.PostgresLineageEdgeFactory.Update` | ground-core/src/main/java/edu/berkeley/ground/api/usage/postgres/PostgresLineageEdgeFactory.java:77-79 | forwards item id, child id and parent to the item factory unchanged |
| `CassandraNodes.CreateScript` | ground-core/src/main/java/edu/berkeley/ground/api/models/cassandra/CassandraNodeFactory.java:36-46 | register the item, insert the `Nodes` row, then commit last with no abort of its own |
| `CassandraNodes.SelectByName` | ground-core/src/main/java/edu/berkeley/ground/api/models/cassandra/CassandraNodeFactory.java:61-64 | the lookup of a node: an equality select on `Nodes`, all columns, by `name` |
| `CassandraNodes.RetrieveScript` | ground-core/src/main/java/edu/berkeley/ground/api/models/cassandra/CassandraNodeFactory.java:61-67 | select by name, read the id column, then commit last with no abort of its own |
| `CassandraNodes.CreateRun` | ground-core/src/main/java/edu/berkeley/ground/api/models/cassandra/CassandraNodeFactory.java:35-49 | register item `"Nodes." + name`, then insert the `Nodes` row with exactly `name` and `item_id`, then commit, stopping at the first that throws |
| `CassandraNodes.RetrieveRun` | ground-core/src/main/java/edu/berkeley/ground/api/models/cassandra/CassandraNodeFactory.java:60-70 | select `Nodes` by `name`, read the id from column 0 of its result, commit, stopping at the first step that throws |
| `CassandraNodes.CassandraNodeFactory.constructor` | ground-core/src/main/java/edu/berkeley/ground/api/models/cassandra/CassandraNodeFactory.java:27-30 | the factory keeps the item factory and wide-column client it is given |
| `CassandraNodes.CassandraNodeFactory.Create` | ground-core/src/main/java/edu/berkeley/ground/api/models/cassandra/CassandraNodeFactory.java:32-55 | commits and returns `("Nodes." + name, name)`, or aborts and surfaces the first exception |
| `CassandraNodes.CassandraNodeFactory.CreateOn` | ground-core/src/main/java/edu/berkeley/ground/api/models/cassandra/CassandraNodeFactory.java:35-49 | the try block of `create`, which leaves the connection committed or open |
| `CassandraNodes.CassandraNodeFactory.RetrieveFromDatabase` | ground-core/src/main/java/edu/berkeley/ground/api/models/cassandra/CassandraNodeFactory.java:57-76 | commits and returns (column 0 of the select by name, the name unchanged), or aborts and surfaces the first exception |
| `CassandraNodes.CassandraNodeFactory.RetrieveOn` | ground-core/src/main/java/edu/berkeley/ground/api/models/cassandra/CassandraNodeFactory.java:60-70 | the try block of `retrieveFromDatabase`, which leaves the connection committed or open |
| `CassandraNodes.CassandraNodeFactory.Update` | ground-core/src/main/java/edu/berkeley/ground/api/models/cassandra/CassandraNodeFactory.java:78-80 | forwards item id (with no prefix), child id and parent to the item factory unchanged |
| `GremlinStructures.CreateScript` | ground-core/src/main/java/edu/berkeley/ground/api/models/gremlin/GremlinStructureFactory.java:34-42 | add the `Structure` vertex, then commit last with no abort of its own; no item is registered |
| `GremlinStructures.VertexByName` | ground-core/src/main/java/edu/berkeley/ground/api/models/gremlin/GremlinStructureFactory.java:57-61 | the lookup of a structure: a vertex by `name` and by the label `Nodes`, as written |
| `GremlinStructures.RetrieveScript` | ground-core/src/main/java/edu/berkeley/ground/api/models/gremlin/GremlinStructureFactory.java:57-65 | fetch the vertex, then commit last with no abort of its own |
| `GremlinStructures.CreateRun` | ground-core/src/main/java/edu/berkeley/ground/api/models/gremlin/GremlinStructureFactory.java:33-45 | add one `Structure` vertex with `name` and `id = "Structures." + name`, then commit, stopping at the first that throws; no item is registered |
| `GremlinStructures.RetrieveRun` | ground-core/src/main/java/edu/berkeley/ground/api/models/gremlin/GremlinStructureFactory.java:56-68 | fetch the vertex by `name` and label `Nodes`, then commit, stopping at the first that throws |
| `GremlinStructures.GremlinStructureFactory.constructor` | ground-core/src/main/java/edu/berkeley/ground/api/models/gremlin/GremlinStructureFactory.java:25-28 | the factory keeps the item factory and graph client it is given |
| `GremlinStructures.GremlinStructureFactory.Create` | ground-core/src/main/java/edu/berkeley/ground/api/models/gremlin/GremlinStructureFactory.java:30-51 | commits and returns `("Structures." + name, name)`, or aborts and surfaces the first exception |
| `GremlinStructures.GremlinStructureFactory.CreateOn` | ground-core/src/main/java/edu/berkeley/ground/api/models/gremlin/GremlinStructureFactory.java:33-45 | the try block of `create`, which leaves the connection committed or open |
| `GremlinStructures.GremlinStructureFactory.RetrieveFromDatabase` | ground-core/src/main/java/edu/berkeley/ground/api/models/gremlin/GremlinStructureFactory.java:53-74 | commits and returns (the fetched vertex's `id`, the name unchanged), or aborts and surfaces the first exception |
| `GremlinStructures.GremlinStructureFactory.RetrieveOn` | ground-core/src/main/java/edu/berkeley/ground/api/models/gremlin/GremlinStructureFactory.java:56-68 | the try block of `retrieveFromDatabase`, which leaves the connection committed or open |
| `GremlinStructures.GremlinStructureFactory.Update` | ground-core/src/main/java/edu/berkeley/ground/api/models/gremlin/GremlinStructureFactory.java:76-78 | forwards `"Structures." + itemId`, child id and parent to the item factory |
| `GremlinEdges.CreateScript` | ground-core/src/main/java/edu/berkeley/ground/api/models/gremlin/GremlinEdgeFactory.java:34-44 | register the item, add the `GroundEdge` vertex, then commit last with no abort of its own |
| `GremlinEdges.VertexByName` | ground-core/src/main/java/edu/berkeley/ground/api/models/gremlin/GremlinEdgeFactory.java:58-61 | the lookup of an edge: a vertex by `name` only, with no label |
| `GremlinEdges.RetrieveScript` | ground-core/src/main/java/edu/berkeley/ground/api/models/gremlin/GremlinEdgeFactory.java:58-64 | fetch the vertex, then commit last with no abort of its own |
| `GremlinEdges.CreateRun` | ground-core/src/main/java/edu/berkeley/ground/api/models/gremlin/GremlinEdgeFactory.java:33-46 | register item `"Edges." + name`, then add one `GroundEdge` vertex with `name` and `id`, then commit, stopping at the first that throws |
| `GremlinEdges.RetrieveRun` | ground-core/src/main/java/edu/berkeley/ground/api/models/gremlin/GremlinEdgeFactory.java:57-67 | fetch the vertex by `name` only, with no label, then commit, stopping at the first that throws |
| `GremlinEdges.GremlinEdgeFactory.constructor` | ground-core/src/main/java/edu/berkeley/ground/api/models/gremlin/GremlinEdgeFactory.java:25-28 | the factory keeps the item factory and graph client it is given |
| `GremlinEdges.GremlinEdgeFactory.Create` | ground-core/src/main/java/edu/berkeley/ground/api/models/gremlin/GremlinEdgeFactory.java:30-52 | commits and returns `("Edges." + name, name)`, or aborts and surfaces the first exception |
| `GremlinEdges.GremlinEdgeFactory.CreateOn` | ground-core/src/main/java/edu/berkeley/ground/api/models/gremlin/GremlinEdgeFactory.java:33-46 | the try block of `create`, which leaves the connection committed or open |
| `GremlinEdges.GremlinEdgeFactory.RetrieveFromDatabase` | ground-core/src/main/java/edu/berkeley/ground/api/models/gremlin/GremlinEdgeFactory.java:54-73 | commits and returns (the fetched vertex's `id`, the name unchanged), or aborts and surfaces the first exception |
| `GremlinEdges.GremlinEdgeFactory.RetrieveOn` | ground-core/src/main/java/edu/berkeley/ground/api/models/gremlin/GremlinEdgeFactory.java:57-67 | the try block of `retrieveFromDatabase`, which leaves the connection committed or open |
| `GremlinEdges.GremlinEdgeFactory.Update` | ground-core/src/main/java/edu/berkeley/ground/api/models/gremlin/GremlinEdgeFactory.java:75-77 | forwards `"Edges." + itemId`, child id and parent to the item factory |
| `GremlinEdges.UpdateAddressesByName` | ground-core/src/main/java/edu/berkeley/ground/api/models/gremlin/GremlinEdgeFactory.java:75-77 | the prefixed id `update` forwards is the id `create` registered exactly when it is given the item's name; given the item's own id, it addresses a different item |

## Left out

- Storage engines: how inserts, selects, graph lookups, commits and the transitive closure behave is
  not modelled. An oracle decides whether each call throws and what each read answers. So no
  create-then-retrieve round trip is claimed, because it depends on column layouts and query
  semantics that are not part of this model.
- `QueryResults.getString`: which column holds what is the oracle's answer; only the column index
  each factory reads (1, 0 or 2) is modelled.
- Gremlin vertices are seen only through the value of their `id` property. The structure factory
  casts that value to a string and the edge factory calls `toString()` on it; both read as the same
  string here. A missing property, or a failing cast, throws an unchecked exception that the model
  leaves out.
- The item factories, `PostgresRichVersionFactory` and `PostgresNodeFactory` are not part of this
  model beyond their call sites. Each call is logged once on the connection, and may throw.
- `IdGenerator` is not part of this model beyond its call site. Its call is not on the connection's
  log: it is a local failure point of the script, answered by the generator's own oracle and counted
  in `calls`.
- `PostgresNodeVersions.PostgresNodeVersionFactory.constructor`: takes the id generator as a fourth
  argument. The source calls a static method instead, and its constructor has three parameters.
- Opening a connection is modelled as never throwing; the client classes are not part of this model.
- `abort` is modelled as never throwing, for the same reason.
- Duplicate tag keys: collecting the tags by key throws an unchecked `IllegalStateException` that
  the catch block does not handle. `PostgresNodeVersions.PostgresNodeVersionFactory.Create` requires
  distinct tag keys instead.
- Logging calls, which have no effect on the results.
- Concurrency and the backends' atomicity guarantees; the code has no in-process synchronisation.
- `GroundServer` (process start-up, choosing a backend from configuration) and
  `LineageEdgesResource` (HTTP routing that forwards to the factories).
