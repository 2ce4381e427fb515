/** The XML topology encoder (nsim/topology/outputs/xml.py) and decoder
    (nsim/topology/inputs/xml.py). The decoder makes two passes: a scan
    registers one fresh leaf per host or switch element in a table, then
    the parse rebuilds the tree with NEW leaf objects, whose edges lead to
    the table's leaves. The table's leaves keep no edges, so the decoded
    tree's edges lead outside it. */
module TopologyXml {
  import opened Wrappers
  import opened Decimal
  import opened Graph
  import opened Documents
  import opened Views

  // The attribute schema of an edge element.
  const EdgeAttributes: seq<(string, FieldType)> :=
    [("source", StrField), ("destination", StrField), ("bandwidth", IntField)]

  // ---------------------------------------------------------------- encoder

  /** `__make_edge_element`: source, destination and bandwidth text, then
      the edge id. */
  function EdgeElement(sourceId: string, e: EdgeView): Element {
    Element("edge", [("source", sourceId), ("destination", e.destination),
                     ("bandwidth", IntToString(e.bandwidth)),
                     ("id", EdgeId(sourceId, e.destination, e.bandwidth))], [])
  }

  /** `__make_node_element` on a view: a leaf is tagged with its lower-case
      kind and holds its edges in order; a topology is tagged "topology"
      and holds its children in order. */
  function ElementOf(v: TreeView): Element
    decreases v
  {
    match v
    case VLeaf(id, kind, edges) =>
      Element(KindTag(kind), [("id", id)], seq(|edges|, k requires 0 <= k < |edges| => EdgeElement(id, edges[k])))
    case VTopology(id, children) =>
      Element("topology", [("id", id)], seq(|children|, k requires 0 <= k < |children| => ElementOf(children[k])))
  }

  /** The encoder reads the node and builds its element; it changes
      nothing. */
  function EncodeXml(n: Node): Element
    reads if n.TopologyNode? then {n.topology} + n.topology.repr + n.topology.leafSet else {n.leaf}
    requires n.Valid()
  {
    ElementOf(ViewOf(n))
  }

  // ------------------------------------------------------- scan (pass one)

  /** `__scan_leaves` on kinds: a topology element is scanned child by
      child, a host or switch element registers its id with the kind its
      tag names (a later one overwrites an earlier one), and any other
      element is skipped. A host or switch without an id is an error. */
  function ScanXml(e: Element, kinds: map<string, LeafKind>): Result<map<string, LeafKind>>
    decreases e, 1
  {
    if e.tag == "topology" then ScanXmlChildren(e, |e.children|, kinds)
    else if e.tag == "host" || e.tag == "switch" then
      match ParseId(e)
      case Err(err) => Err(err)
      case Ok(id) => Ok(kinds[id := KindFromString(e.tag).value])
    else Ok(kinds)
  }

  /** The scan of the first `n` children, in order. */
  function ScanXmlChildren(e: Element, n: nat, kinds: map<string, LeafKind>): Result<map<string, LeafKind>>
    requires n <= |e.children|
    decreases e, 0, n
  {
    if n == 0 then Ok(kinds)
    else
      match ScanXmlChildren(e, n - 1, kinds)
      case Err(err) => Err(err)
      case Ok(next) => ScanXml(e.children[n - 1], next)
  }

  /** Once the scan of a prefix of the children fails, the scan of every
      longer prefix fails the same way. */
  lemma {:induction false} ScanXmlFailureKept(e: Element, m: nat, n: nat, kinds: map<string, LeafKind>)
    requires m <= n <= |e.children| && ScanXmlChildren(e, m, kinds).Err?
    ensures ScanXmlChildren(e, n, kinds) == ScanXmlChildren(e, m, kinds)
    decreases n
  {
    if m < n {
      ScanXmlFailureKept(e, m, n - 1, kinds);
    }
  }

  /** `__scan_leaves`: the same walk, creating a fresh leaf without edges
      for each registered id. */
  method ScanXmlLeaves(e: Element, leaves: map<string, Leaf>) returns (r: Result<map<string, Leaf>>)
    requires Keyed(leaves)
    ensures r.Ok? <==> ScanXml(e, KindsOf(leaves)).Ok?
    ensures r.Err? ==> r.error == ScanXml(e, KindsOf(leaves)).error
    ensures r.Ok? ==> Keyed(r.value) && KindsOf(r.value) == ScanXml(e, KindsOf(leaves)).value
    ensures r.Ok? ==> forall id | id in r.value ::
                        r.value[id] in leaves.Values || (fresh(r.value[id]) && r.value[id].edges == [])
    decreases e, 1
  {
    if e.tag == "topology" {
      var table := leaves;
      for i := 0 to |e.children|
        invariant Keyed(table)
        invariant ScanXmlChildren(e, i, KindsOf(leaves)) == Ok(KindsOf(table))
        invariant forall id | id in table :: table[id] in leaves.Values || (fresh(table[id]) && table[id].edges == [])
      {
        var s := ScanXmlLeaves(e.children[i], table);
        if s.Err? {
          ScanXmlFailureKept(e, i + 1, |e.children|, KindsOf(leaves));
          return Err(s.error);
        }
        table := s.value;
      }
      return Ok(table);
    }
    if e.tag == "host" || e.tag == "switch" {
      var id := ParseId(e);
      if id.Err? {
        return Err(id.error);
      }
      var leaf := new Leaf(id.value, KindFromString(e.tag).value);
      r := Ok(leaves[id.value := leaf]);
      assert KindsOf(r.value) == KindsOf(leaves)[id.value := leaf.kind];
      return;
    }
    r := Ok(leaves);
  }

  // ------------------------------------------------------ parse (pass two)

  /** One edge element of the leaf `sourceId`: its attributes must convert,
      its source must be the leaf and its destination a table id. */
  function ParseEdgeElement(x: Element, sourceId: string, ids: set<string>): Result<EdgeView> {
    match ParseAttributes(x, EdgeAttributes, NoFloat)
    case Err(err) => Err(err)
    case Ok(values) =>
      if values[0].s != sourceId then Err(ValidationError)
      else if values[1].s !in ids then Err(ReferenceError)
      else Ok(EdgeView(values[1].s, values[2].i))
  }

  /** The edge elements parsed in order; the first failure wins. */
  function ParseEdgeElements(items: seq<Element>, sourceId: string, ids: set<string>): Result<seq<EdgeView>>
    decreases |items|
  {
    if items == [] then Ok([])
    else
      match ParseEdgeElements(items[..|items| - 1], sourceId, ids)
      case Err(err) => Err(err)
      case Ok(edges) =>
        match ParseEdgeElement(items[|items| - 1], sourceId, ids)
        case Err(err) => Err(err)
        case Ok(edge) => Ok(edges + [edge])
  }

  /** One more edge element: the prefix parse extends by its edge, or
      fails with its error. */
  lemma EdgeStep(items: seq<Element>, i: nat, sourceId: string, ids: set<string>)
    requires i < |items|
    ensures ParseEdgeElements(items[..i + 1], sourceId, ids) ==
              match ParseEdgeElements(items[..i], sourceId, ids)
              case Err(err) => Err(err)
              case Ok(edges) =>
                match ParseEdgeElement(items[i], sourceId, ids)
                case Err(err) => Err(err)
                case Ok(edge) => Ok(edges + [edge])
  {
    assert items[..i + 1][..i] == items[..i];
  }

  lemma {:induction false} EdgeFailureKept(items: seq<Element>, n: nat, sourceId: string, ids: set<string>)
    requires n <= |items| && ParseEdgeElements(items[..n], sourceId, ids).Err?
    ensures ParseEdgeElements(items, sourceId, ids) == ParseEdgeElements(items[..n], sourceId, ids)
    decreases |items|
  {
    if n < |items| {
      var shorter := items[..|items| - 1];
      assert shorter[..n] == items[..n];
      EdgeFailureKept(shorter, n, sourceId, ids);
    } else {
      assert items[..n] == items;
    }
  }

  /** `__parse_node`: a topology element becomes a topology with its
      children parsed in order, a host or switch element a leaf with its
      edge elements parsed in order, and any other tag is rejected. Edges
      are given by destination id; `ids` are the table's ids. */
  function ParseXml(e: Element, ids: set<string>): Result<TreeView>
    decreases e, 2
  {
    if e.tag == "topology" then ParseXmlTopology(e, ids)
    else if e.tag == "host" || e.tag == "switch" then ParseXmlLeaf(e, ids)
    else Err(UnsupportedTypeError)
  }

  /** `__parse_topology`: the id, then every child element in order. */
  function ParseXmlTopology(e: Element, ids: set<string>): Result<TreeView>
    decreases e, 1
  {
    match ParseId(e)
    case Err(err) => Err(err)
    case Ok(id) =>
      match ParseXmlChildren(e, |e.children|, ids)
      case Err(err) => Err(err)
      case Ok(children) => Ok(VTopology(id, children))
  }

  /** `__parse_leaf`: the id, the kind the tag names, then the `edge`
      children in order. */
  function ParseXmlLeaf(e: Element, ids: set<string>): Result<TreeView>
    requires e.tag == "host" || e.tag == "switch"
  {
    match ParseId(e)
    case Err(err) => Err(err)
    case Ok(id) =>
      match ParseEdgeElements(FindAll(e.children, "edge"), id, ids)
      case Err(err) => Err(err)
      case Ok(edges) => Ok(VLeaf(id, KindFromString(e.tag).value, edges))
  }

  /** The first `n` children parsed in order; the first failure wins. */
  function ParseXmlChildren(e: Element, n: nat, ids: set<string>): Result<seq<TreeView>>
    requires n <= |e.children|
    decreases e, 0, n
  {
    if n == 0 then Ok([])
    else
      match ParseXmlChildren(e, n - 1, ids)
      case Err(err) => Err(err)
      case Ok(children) =>
        match ParseXml(e.children[n - 1], ids)
        case Err(err) => Err(err)
        case Ok(child) => Ok(children + [child])
  }

  lemma {:induction false} ChildFailureKept(e: Element, m: nat, n: nat, ids: set<string>)
    requires m <= n <= |e.children| && ParseXmlChildren(e, m, ids).Err?
    ensures ParseXmlChildren(e, n, ids) == ParseXmlChildren(e, m, ids)
    decreases n
  {
    if m < n {
      ChildFailureKept(e, m, n - 1, ids);
    }
  }

  /** `__parse_node`. It changes nothing that exists when it is called:
      the nodes it returns are all new, and their edges lead to the
      table's leaves. */
  method ParseXmlNode(e: Element, leaves: map<string, Leaf>) returns (r: Result<Node>)
    requires Keyed(leaves)
    ensures r.Ok? <==> ParseXml(e, leaves.Keys).Ok?
    ensures r.Err? ==> r.error == ParseXml(e, leaves.Keys).error
    ensures r.Ok? ==> r.value.Valid() && fresh(r.value.Repr())
    ensures r.Ok? ==> ViewOf(r.value) == ParseXml(e, leaves.Keys).value
    ensures r.Ok? ==> forall l | l in r.value.Leaves() :: fresh(l) && EdgesInto(l, leaves.Values)
    decreases e, 2
  {
    if e.tag == "topology" {
      r := ParseTopologyElement(e, leaves);
    } else if e.tag == "host" || e.tag == "switch" {
      r := ParseLeafElement(e, leaves);
    } else {
      r := Err(UnsupportedTypeError);
    }
  }

  /** `__parse_topology`. */
  method ParseTopologyElement(e: Element, leaves: map<string, Leaf>) returns (r: Result<Node>)
    requires Keyed(leaves) && e.tag == "topology"
    ensures r.Ok? <==> ParseXmlTopology(e, leaves.Keys).Ok?
    ensures r.Err? ==> r.error == ParseXmlTopology(e, leaves.Keys).error
    ensures r.Ok? ==> r.value.Valid() && fresh(r.value.Repr())
    ensures r.Ok? ==> ViewOf(r.value) == ParseXmlTopology(e, leaves.Keys).value
    ensures r.Ok? ==> forall l | l in r.value.Leaves() :: fresh(l) && EdgesInto(l, leaves.Values)
    decreases e, 1
  {
    var id := ParseId(e);
    if id.Err? {
      return Err(id.error);
    }
    var t := new Topology(id.value);
    var err := ParseChildElements(t, e, leaves);
    if err.Some? {
      return Err(err.value);
    }
    r := Ok(TopologyNode(t));
  }

  /** The loop of `__parse_topology`: each child element parsed and added
      to `t` in order; `t` starts empty. */
  method ParseChildElements(t: Topology, e: Element, leaves: map<string, Leaf>) returns (err: Option<Error>)
    requires Keyed(leaves)
    requires t.Valid() && t.nodes == [] && t.repr == {t} && t.leafSet == {}
    modifies t
    ensures err.Some? <==> ParseXmlChildren(e, |e.children|, leaves.Keys).Err?
    ensures err.Some? ==> err.value == ParseXmlChildren(e, |e.children|, leaves.Keys).error
    ensures err.None? ==> t.Valid() && fresh(t.repr - {t})
    ensures err.None? ==> ViewsFrom(t, 0) == ParseXmlChildren(e, |e.children|, leaves.Keys).value
    ensures err.None? ==> forall l | l in t.leafSet :: fresh(l) && EdgesInto(l, leaves.Values)
    decreases e, 0
  {
    ghost var views: seq<TreeView> := [];
    for i := 0 to |e.children|
      invariant t.Valid()
      invariant fresh(t.repr - {t})
      invariant forall l | l in t.leafSet :: fresh(l)
      invariant forall l | l in t.leafSet :: EdgesInto(l, leaves.Values)
      invariant ViewsFrom(t, 0) == views
      invariant ParseXmlChildren(e, i, leaves.Keys) == Ok(views)
    {
      err := ParseChildElement(t, e.children[i], leaves, views);
      if err.Some? {
        ChildFailureKept(e, i + 1, |e.children|, leaves.Keys);
        return;
      }
      views := views + [ParseXml(e.children[i], leaves.Keys).value];
    }
    err := None;
  }

  /** One round of that loop: the child element parsed and added. */
  method ParseChildElement(t: Topology, x: Element, leaves: map<string, Leaf>, ghost views: seq<TreeView>)
    returns (err: Option<Error>)
    requires Keyed(leaves) && t.Valid() && ViewsFrom(t, 0) == views
    modifies t
    ensures err.Some? <==> ParseXml(x, leaves.Keys).Err?
    ensures err.Some? ==> err.value == ParseXml(x, leaves.Keys).error
    ensures err.None? ==> t.Valid()
    ensures err.None? ==> fresh(t.repr - old(t.repr))
    ensures err.None? ==> forall l | l in t.leafSet :: l in old(t.leafSet) || fresh(l)
    ensures err.None? ==> forall l | l in t.leafSet :: l in old(t.leafSet) || EdgesInto(l, leaves.Values)
    ensures err.None? ==> ViewsFrom(t, 0) == views + [ParseXml(x, leaves.Keys).value]
    decreases x, 3
  {
    var child := ParseXmlNode(x, leaves);
    if child.Err? {
      return Some(child.error);
    }
    AddXmlChild(t, child.value, views);
    err := None;
  }

  /** `add_node` on a topology being decoded: the views of the children
      already added are kept and the new child's view comes last. */
  method AddXmlChild(t: Topology, n: Node, ghost views: seq<TreeView>)
    requires t.Valid() && n.Valid() && t !in n.Repr() && ViewsFrom(t, 0) == views
    modifies t
    ensures t.Valid()
    ensures t.repr == old(t.repr) + n.Repr() && t.leafSet == old(t.leafSet) + n.Leaves()
    ensures ViewsFrom(t, 0) == views + [old(ViewOf(n))]
  {
    ghost var view := ViewOf(n);
    t.AddNode(n);
    forall i | 0 <= i < |views|
      ensures views[i] == ViewOf(t.nodes[i])
    {
      assert t.nodes[i] == old(t.nodes[i]);
    }
    assert ViewOf(t.nodes[|views|]) == view;
  }

  /** `__parse_leaf`: a new leaf with the id and kind, and one edge per
      edge element, to the table's leaf for its destination. */
  method ParseLeafElement(e: Element, leaves: map<string, Leaf>) returns (r: Result<Node>)
    requires Keyed(leaves) && (e.tag == "host" || e.tag == "switch")
    ensures r.Ok? <==> ParseXmlLeaf(e, leaves.Keys).Ok?
    ensures r.Err? ==> r.error == ParseXmlLeaf(e, leaves.Keys).error
    ensures r.Ok? ==> r.value.LeafNode? && fresh(r.value.leaf) && EdgesInto(r.value.leaf, leaves.Values)
    ensures r.Ok? ==> ViewOf(r.value) == ParseXmlLeaf(e, leaves.Keys).value
  {
    var id := ParseId(e);
    if id.Err? {
      return Err(id.error);
    }
    var leaf := new Leaf(id.value, KindFromString(e.tag).value);
    var items := FindAll(e.children, "edge");
    for i := 0 to |items|
      invariant ParseEdgeElements(items[..i], id.value, leaves.Keys) == Ok(EdgeViews(leaf.edges))
      invariant EdgesInto(leaf, leaves.Values)
    {
      EdgeStep(items, i, id.value, leaves.Keys);
      var err := AppendEdgeElement(leaf, items[i], id.value, leaves);
      if err.Some? {
        EdgeFailureKept(items, i + 1, id.value, leaves.Keys);
        return Err(err.value);
      }
    }
    assert items[..|items|] == items;
    r := Ok(LeafNode(leaf));
  }

  /** One round of that loop: the edge element's attributes are parsed and
      checked, and an edge to the table's leaf for its destination is
      appended. */
  method AppendEdgeElement(leaf: Leaf, x: Element, sourceId: string, leaves: map<string, Leaf>)
    returns (err: Option<Error>)
    requires Keyed(leaves)
    modifies leaf
    ensures err.Some? <==> ParseEdgeElement(x, sourceId, leaves.Keys).Err?
    ensures err.Some? ==> err.value == ParseEdgeElement(x, sourceId, leaves.Keys).error
    ensures err.None? ==> EdgeViews(leaf.edges) == EdgeViews(old(leaf.edges)) + [ParseEdgeElement(x, sourceId, leaves.Keys).value]
    ensures err.None? && old(EdgesInto(leaf, leaves.Values)) ==> EdgesInto(leaf, leaves.Values)
  {
    var attributes := ParseAttributes(x, EdgeAttributes, NoFloat);
    if attributes.Err? {
      return Some(attributes.error);
    }
    var source, destination, bandwidth := attributes.value[0].s, attributes.value[1].s, attributes.value[2].i;
    if source != sourceId {
      return Some(ValidationError);
    }
    if destination !in leaves {
      return Some(ReferenceError);
    }
    EdgeViewsAppend(leaf.edges, Edge(leaves[destination], bandwidth));
    leaf.AddEdge(leaves[destination], bandwidth);
    err := None;
  }

  // ------------------------------------------------------------------ run

  /** `run`: scan into a fresh table, then parse with it. The table's
      leaves keep no edges. */
  method XmlDecode(e: Element) returns (r: Result<Node>, ghost table: map<string, Leaf>)
    ensures ScanXml(e, map[]).Err? ==> r == Err(ScanXml(e, map[]).error)
    ensures ScanXml(e, map[]).Ok? ==>
              && Keyed(table) && KindsOf(table) == ScanXml(e, map[]).value
              && (r.Ok? <==> ParseXml(e, table.Keys).Ok?)
              && (r.Err? ==> r.error == ParseXml(e, table.Keys).error)
    ensures r.Ok? ==> r.value.Valid() && fresh(r.value.Repr())
    ensures r.Ok? ==> ViewOf(r.value) == ParseXml(e, table.Keys).value
    ensures r.Ok? ==> forall l | l in r.value.Leaves() :: fresh(l) && l !in table.Values && EdgesInto(l, table.Values)
    ensures r.Ok? ==> forall l | l in table.Values :: fresh(l) && l.edges == []
  {
    var scanned := ScanXmlLeaves(e, map[]);
    if scanned.Err? {
      return Err(scanned.error), map[];
    }
    var leaves := scanned.value;
    table := leaves;
    label Scanned:
    r := ParseXmlNode(e, leaves);
    if r.Ok? {
      forall l | l in r.value.Leaves()
        ensures l !in table.Values
      {
        assert !old@Scanned(allocated(l));
      }
    }
  }

  // ------------------------------------------------------------ encodings

  /** Every edge of the view leads to one of `ids`. */
  predicate DestinationsIn(v: TreeView, ids: set<string>)
    decreases v
  {
    match v
    case VLeaf(_, _, edges) => forall k | 0 <= k < |edges| :: edges[k].destination in ids
    case VTopology(_, children) => forall i | 0 <= i < |children| :: DestinationsIn(children[i], ids)
  }

  /** Scanning an encoded element never fails and registers every leaf id
      with its kind, in document order. */
  lemma {:induction false} ScanXmlEncoded(v: TreeView, kinds: map<string, LeafKind>)
    ensures ScanXml(ElementOf(v), kinds) == Ok(Registered(v, kinds))
    decreases v, 1
  {
    var e := ElementOf(v);
    if v.VTopology? {
      ScanXmlEncodedChildren(v, |v.children|, kinds);
      RegisteredPrefixAll(v, |v.children|, kinds);
    } else {
      assert ParseId(e) == Ok(v.id);
    }
  }

  lemma {:induction false} ScanXmlEncodedChildren(v: TreeView, n: nat, kinds: map<string, LeafKind>)
    requires v.VTopology? && n <= |v.children|
    ensures |ElementOf(v).children| == |v.children|
    ensures ScanXmlChildren(ElementOf(v), n, kinds) == Ok(RegisteredPrefix(v, n, kinds))
    decreases v, 0, n
  {
    if n > 0 {
      ScanXmlEncodedChildren(v, n - 1, kinds);
      var child := v.children[n - 1];
      assert ElementOf(v).children[n - 1] == ElementOf(child);
      ScanXmlEncoded(child, RegisteredPrefix(v, n - 1, kinds));
    }
  }

  /** The registration of the first `n` children, in order. */
  function RegisteredPrefix(v: TreeView, n: nat, kinds: map<string, LeafKind>): map<string, LeafKind>
    requires v.VTopology? && n <= |v.children|
    decreases n
  {
    if n == 0 then kinds else Registered(v.children[n - 1], RegisteredPrefix(v, n - 1, kinds))
  }

  /** `RegisteredPrefix` over all children is the registration of the
      topology. */
  lemma {:induction false} RegisteredPrefixAll(v: TreeView, n: nat, kinds: map<string, LeafKind>)
    requires v.VTopology? && n <= |v.children|
    ensures RegisteredList(v, n, RegisteredPrefix(v, n, kinds)) == Registered(v, kinds)
    decreases n
  {
    if n > 0 {
      RegisteredPrefixAll(v, n - 1, kinds);
    }
  }

  /** Parsing an encoded element gives the view back, provided every edge
      leads to a table id: ids, kinds, edge destinations and bandwidths
      all survive. */
  lemma {:induction false} ParseXmlEncoded(v: TreeView, ids: set<string>)
    requires DestinationsIn(v, ids)
    ensures ParseXml(ElementOf(v), ids) == Ok(v)
    decreases v, 2
  {
    match v
    case VTopology(id, children) =>
      ParseXmlEncodedTopology(v, ids);
    case VLeaf(id, kind, edges) =>
      ParseXmlEncodedLeaf(id, kind, edges, ids);
  }

  lemma {:induction false} ParseXmlEncodedTopology(v: TreeView, ids: set<string>)
    requires v.VTopology? && DestinationsIn(v, ids)
    ensures ParseXmlTopology(ElementOf(v), ids) == Ok(v)
    decreases v, 1
  {
    assert ParseId(ElementOf(v)) == Ok(v.id);
    ParseXmlEncodedChildren(v, |v.children|, ids);
    assert v.children[..|v.children|] == v.children;
  }

  lemma ParseXmlEncodedLeaf(id: string, kind: LeafKind, edges: seq<EdgeView>, ids: set<string>)
    requires forall k | 0 <= k < |edges| :: edges[k].destination in ids
    ensures ParseXmlLeaf(ElementOf(VLeaf(id, kind, edges)), ids) == Ok(VLeaf(id, kind, edges))
  {
    var items := seq(|edges|, k requires 0 <= k < |edges| => EdgeElement(id, edges[k]));
    var e := ElementOf(VLeaf(id, kind, edges));
    assert e == Element(KindTag(kind), [("id", id)], items);
    assert ParseId(e) == Ok(id);
    FindAllEvery(items, "edge");
    ParseEdgesEncoded(id, edges, |edges|, ids);
    assert items[..|edges|] == items && edges[..|edges|] == edges;
    assert ParseEdgeElements(FindAll(e.children, "edge"), id, ids) == Ok(edges);
  }

  lemma {:induction false} ParseXmlEncodedChildren(v: TreeView, n: nat, ids: set<string>)
    requires v.VTopology? && n <= |v.children| && DestinationsIn(v, ids)
    ensures |ElementOf(v).children| == |v.children|
    ensures ParseXmlChildren(ElementOf(v), n, ids) == Ok(v.children[..n])
    decreases v, 0, n
  {
    var e := ElementOf(v);
    if n > 0 {
      ParseXmlEncodedChildren(v, n - 1, ids);
      var child := v.children[n - 1];
      assert e.children[n - 1] == ElementOf(child);
      ParseXmlEncoded(child, ids);
      assert ParseXmlChildren(e, n, ids) == Ok(v.children[..n - 1] + [child]);
      PrefixSnoc(v.children, n);
    }
  }

  /** An encoded edge element parses back to its edge when its destination
      is a table id, and is rejected as an unknown destination otherwise. */
  lemma EdgeEncoded(sourceId: string, edge: EdgeView, ids: set<string>)
    ensures ParseEdgeElement(EdgeElement(sourceId, edge), sourceId, ids) ==
              if edge.destination in ids then Ok(edge) else Err(ReferenceError)
  {
    var x := EdgeElement(sourceId, edge);
    IntToStringRoundTrip(edge.bandwidth);
    FindFirst(x.attributes, 0, "source");
    FindFirst(x.attributes, 1, "destination");
    FindFirst(x.attributes, 2, "bandwidth");
    EdgeAttributesConvert(x, EdgeAttributes, sourceId, edge.destination, IntToString(edge.bandwidth), edge.bandwidth);
  }

  /** An element whose source, destination and bandwidth attributes are
      present and convert parses to their values, in schema order. The
      schema is any schema laid out as `EdgeAttributes` is, so that its
      steps stay symbolic. */
  lemma EdgeAttributesConvert(x: Element, schema: seq<(string, FieldType)>, source: string, destination: string,
                              bandwidthText: string, bandwidth: int)
    requires |schema| == 3
    requires schema[0] == ("source", StrField) && schema[1] == ("destination", StrField)
    requires schema[2] == ("bandwidth", IntField)
    requires Find(x.attributes, "source") == Some(source)
    requires Find(x.attributes, "destination") == Some(destination)
    requires Find(x.attributes, "bandwidth") == Some(bandwidthText) && ParseInt(bandwidthText) == Some(bandwidth)
    ensures ParseAttributes(x, schema, NoFloat) == Ok([JString(source), JString(destination), JInt(bandwidth)])
  {
    assert schema[3..] == [];
    assert schema[2..][1..] == schema[3..];
    ParseAttributesCons(x, schema[2..], NoFloat, JInt(bandwidth), []);
    var values2 := [JInt(bandwidth)] + [];
    assert schema[1..][1..] == schema[2..];
    ParseAttributesCons(x, schema[1..], NoFloat, JString(destination), values2);
    var values1 := [JString(destination)] + values2;
    ParseAttributesCons(x, schema, NoFloat, JString(source), values1);
    assert [JString(source)] + values1 == [JString(source), JString(destination), JInt(bandwidth)];
  }

  lemma {:induction false} ParseEdgesEncoded(sourceId: string, edges: seq<EdgeView>, n: nat, ids: set<string>)
    requires n <= |edges| && forall k | 0 <= k < |edges| :: edges[k].destination in ids
    ensures ParseEdgeElements(seq(|edges|, k requires 0 <= k < |edges| => EdgeElement(sourceId, edges[k]))[..n],
                              sourceId, ids) == Ok(edges[..n])
    decreases n
  {
    var items := seq(|edges|, k requires 0 <= k < |edges| => EdgeElement(sourceId, edges[k]));
    if n > 0 {
      ParseEdgesEncoded(sourceId, edges, n - 1, ids);
      var prefix := items[..n];
      assert prefix[..n - 1] == items[..n - 1] && prefix[n - 1] == EdgeElement(sourceId, edges[n - 1]);
      EdgeEncoded(sourceId, edges[n - 1], ids);
      assert ParseEdgeElements(prefix, sourceId, ids) == Ok(edges[..n - 1] + [edges[n - 1]]);
      PrefixSnoc(edges, n);
    }
  }

  /** The XML round trip on views: an encoded tree whose edges all lead
      to its own leaves scans without error, and parsing it against the
      scanned ids gives the tree back. With `XmlDecode`, decoding the
      encoding of a node yields a node with the same view. */
  lemma XmlRoundTrip(v: TreeView)
    requires DestinationsIn(v, LeafIds(v))
    ensures ScanXml(ElementOf(v), map[]).Ok?
    ensures ScanXml(ElementOf(v), map[]).value.Keys == LeafIds(v)
    ensures ParseXml(ElementOf(v), ScanXml(ElementOf(v), map[]).value.Keys) == Ok(v)
  {
    ScanXmlEncoded(v, map[]);
    RegisteredKeys(v, map[]);
    ParseXmlEncoded(v, LeafIds(v));
  }
}
