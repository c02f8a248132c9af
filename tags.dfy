/** Re-keying the tags of a new node version (`PostgresNodeVersionFactory.create`): every tag is
    rebuilt to carry the freshly generated version id, and the map is re-indexed by each tag's own key. */
module Tags {
  import opened Errors
  import opened Models

  /** No two entries hold tags with the same key; collecting the tags by key would otherwise
      throw an unchecked `IllegalStateException`, which the model does not cover. */
  ghost predicate DistinctKeys(tags: map<string, Tag>)
  {
    forall a, b :: a in tags && b in tags && tags[a].key == tags[b].key ==> a == b
  }

  /** Every tag is stored under its own key. */
  ghost predicate IndexedByKey(tags: map<string, Tag>)
  {
    forall k :: k in tags ==> tags[k].key == k
  }

  /** The tags of `tags`, each rebuilt with version id `id` and indexed by its own key. */
  function Rekey(tags: map<string, Tag>, id: string): (r: map<string, Tag>)
    requires DistinctKeys(tags)
    ensures IndexedByKey(r)
    ensures forall k :: k in r ==> r[k].versionId == id
    ensures forall j :: j in tags ==>
              && tags[j].key in r
              && r[tags[j].key].value == tags[j].value
              && r[tags[j].key].valueType == tags[j].valueType
    ensures forall k :: k in r ==> exists j :: j in tags && tags[j].key == k
  {
    map t | t in tags.Values :: t.key := Tag(id, t.key, t.value, t.valueType)
  }

  /** `tags.map(...)`: absent tags stay absent, present ones are re-keyed. */
  function RekeyTags(tags: Option<map<string, Tag>>, id: string): (r: Option<map<string, Tag>>)
    requires tags.Some? ==> DistinctKeys(tags.value)
    ensures r.Some? <==> tags.Some?
    ensures r.Some? ==> r.value == Rekey(tags.value, id)
  {
    match tags
    case None => None
    case Some(m) => Some(Rekey(m, id))
  }

  /** Re-keying loses no tag: the result has as many entries as the input. */
  lemma RekeySize(tags: map<string, Tag>, id: string)
    requires DistinctKeys(tags)
    ensures |Rekey(tags, id)| == |tags|
  {
    var r := Rekey(tags, id);
    assert r.Keys == KeysOf(tags, tags.Keys);
    KeysOfSize(tags, tags.Keys);
  }

  /** The keys the tags stored under `s` carry. */
  ghost function KeysOf(tags: map<string, Tag>, s: set<string>): set<string>
    requires s <= tags.Keys
  {
    set j | j in s :: tags[j].key
  }

  lemma {:induction false} KeysOfSize(tags: map<string, Tag>, s: set<string>)
    requires s <= tags.Keys && DistinctKeys(tags)
    ensures |KeysOf(tags, s)| == |s|
    decreases s
  {
    if s != {} {
      var x :| x in s;
      var s' := s - {x};
      KeysOfSize(tags, s');
      assert KeysOf(tags, s) == KeysOf(tags, s') + {tags[x].key};
      assert tags[x].key !in KeysOf(tags, s');
    }
  }

  /** Only the most recent version id survives re-keying twice. */
  lemma RekeyTwice(tags: map<string, Tag>, first: string, second: string)
    requires DistinctKeys(tags)
    ensures DistinctKeys(Rekey(tags, first))
    ensures Rekey(Rekey(tags, first), second) == Rekey(tags, second)
  {
  }

  /** A map already indexed by its tags' keys keeps its keys, and each tag changes only its version id. */
  lemma RekeyIndexed(tags: map<string, Tag>, id: string)
    requires IndexedByKey(tags)
    ensures DistinctKeys(tags)
    ensures Rekey(tags, id).Keys == tags.Keys
    ensures forall k :: k in tags ==> Rekey(tags, id)[k] == tags[k].(versionId := id)
  {
  }
}
