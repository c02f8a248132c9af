/** Item ids are derived deterministically from the item's kind and name: `"<Kind>s." + name`. */
module ItemIds {

  /** The kinds of item whose factories are modelled. */
  datatype Kind = Nodes | Edges | Structures | LineageEdges

  function Prefix(k: Kind): string
  {
    match k
    case Nodes => "Nodes."
    case Edges => "Edges."
    case Structures => "Structures."
    case LineageEdges => "LineageEdges."
  }

  /** The id a factory's `create(name)` gives the item: the kind's prefix, then the name unchanged. */
  function ItemId(k: Kind, name: string): (id: string)
    ensures |id| == |Prefix(k)| + |name|
    ensures id[..|Prefix(k)|] == Prefix(k) && id[|Prefix(k)|..] == name
  {
    Prefix(k) + name
  }

  /** Distinct (kind, name) pairs get distinct ids: no two kinds share an id, and the name is
      recoverable from the id. */
  lemma ItemIdInjective(k1: Kind, k2: Kind, a: string, b: string)
    requires ItemId(k1, a) == ItemId(k2, b)
    ensures k1 == k2 && a == b
  {
    var id := ItemId(k1, a);
    assert id[0] == Prefix(k1)[0] && id[0] == Prefix(k2)[0];
    assert k1 == k2;
    assert a == id[|Prefix(k1)|..];
  }
}
