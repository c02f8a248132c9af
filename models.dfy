/** The immutable value objects the typed factories construct and return. */
module Models {
  import opened Errors

  /** The primitive column and tag types (`api.versions.Type`). */
  datatype ValueType = STRING | INTEGER | BOOLEAN

  /** A tag's payload; the factories carry it through without inspecting it. */
  datatype TagValue = StringValue(s: string) | IntegerValue(i: int) | BooleanValue(b: bool)

  /** A tag attached to one version: the version's id, the tag key, its value and declared type. */
  datatype Tag = Tag(versionId: string, key: string, value: TagValue, valueType: ValueType)

  /** The rich-version portion of a version, as the rich-version factory returns it. */
  datatype RichVersion = RichVersion(
    id: string,
    tags: Option<map<string, Tag>>,
    structureVersionId: Option<string>,
    reference: Option<string>,
    parameters: Option<map<string, string>>)

  /** `NodeVersionFactory.construct(id, tags, structureVersionId, reference, parameters, nodeId)`. */
  datatype NodeVersion = NodeVersion(
    id: string,
    tags: Option<map<string, Tag>>,
    structureVersionId: Option<string>,
    reference: Option<string>,
    parameters: Option<map<string, string>>,
    nodeId: string)

  /** Items: `construct(id, name)` of the respective factories. */
  datatype Node = Node(id: string, name: string)
  datatype Edge = Edge(id: string, name: string)
  datatype Structure = Structure(id: string, name: string)
  datatype LineageEdge = LineageEdge(id: string, name: string)
}
