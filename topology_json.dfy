/** The JSON topology encoder (nsim/topology/outputs/json.py) and decoder
    (nsim/topology/inputs/json.py). The decoder makes two passes: a scan
    registers one fresh leaf per leaf record id in a table, then the parse
    rebuilds the tree, returning the table's leaves and appending each edge
    to the leaf whose record lists it. A leaf id that occurs twice thus
    yields one shared leaf object. */
module TopologyJson {
  import opened Wrappers
  import opened Decimal
  import opened Graph
  import opened Documents
  import opened Views

  // The record schemas (`NodeSchema` and the TypedDicts that extend it).
  const NodeSchema: seq<(string, FieldType)> := [("type", StrField), ("id", StrField)]
  const TopologySchema: seq<(string, FieldType)> := [("type", StrField), ("id", StrField), ("nodes", ListField)]
  const LeafSchema: seq<(string, FieldType)> := [("type", StrField), ("id", StrField), ("edges", ListField)]
  const EdgeSchema: seq<(string, FieldType)> :=
    [("type", StrField), ("id", StrField), ("source", StrField), ("destination", StrField), ("bandwidth", IntField)]

  // ---------------------------------------------------------------- encoder

  /** `__make_edge_data`: type, id, source id, destination id, bandwidth. */
  function EdgeRecord(sourceId: string, e: EdgeView): Json {
    JObject([("type", JString("Edge")), ("id", JString(EdgeId(sourceId, e.destination, e.bandwidth))),
             ("source", JString(sourceId)), ("destination", JString(e.destination)),
             ("bandwidth", JInt(e.bandwidth))])
  }

  /** `__make_node_data` on a view: a leaf's type is its kind value and its
      edges are listed in order; a topology lists its children in order. */
  function NodeRecord(v: TreeView): Json
    decreases v
  {
    match v
    case VLeaf(id, kind, edges) =>
      JObject([("type", JString(KindValue(kind))), ("id", JString(id)),
               ("edges", JArray(seq(|edges|, k requires 0 <= k < |edges| => EdgeRecord(id, edges[k]))))])
    case VTopology(id, children) =>
      JObject([("type", JString("Topology")), ("id", JString(id)),
               ("nodes", JArray(seq(|children|, k requires 0 <= k < |children| => NodeRecord(children[k]))))])
  }

  /** The encoder reads the node and builds its record; it changes nothing. */
  function Encode(n: Node): Json
    reads if n.TopologyNode? then {n.topology} + n.topology.repr + n.topology.leafSet else {n.leaf}
    requires n.Valid()
  {
    NodeRecord(ViewOf(n))
  }

  // ------------------------------------------------------- scan (pass one)

  /** `__scan_leaves` on kinds: records that fail the node schema are
      skipped; a Topology record with a node list is scanned child by child;
      any other record registers its id with the kind its type names (a
      later record overwrites an earlier one). */
  function ScanKinds(data: Json, kinds: map<string, LeafKind>): Result<map<string, LeafKind>>
    decreases data, 1
  {
    if !ValidateSchema(data, NodeSchema) then Ok(kinds)
    else if StrOf(data, "type", NodeSchema) == "Topology" then
      if ValidateSchema(data, TopologySchema) then ScanKindsList(ListOf(data, "nodes", TopologySchema), kinds, data)
      else Ok(kinds)
    else
      match KindFromString(StrOf(data, "type", NodeSchema))
      case None => Err(UnsupportedTypeError)
      case Some(k) => Ok(kinds[StrOf(data, "id", NodeSchema) := k])
  }

  function ScanKindsList(items: seq<Json>, kinds: map<string, LeafKind>, ghost parent: Json)
    : Result<map<string, LeafKind>>
    requires forall k | 0 <= k < |items| :: items[k] < parent
    decreases parent, 0, |items|
  {
    if items == [] then Ok(kinds)
    else
      match ScanKinds(items[0], kinds)
      case Err(err) => Err(err)
      case Ok(next) => ScanKindsList(items[1..], next, parent)
  }

  /** `__scan_leaves`: the same walk, creating a fresh leaf without edges
      for each registered id. */
  method ScanLeaves(data: Json, leaves: map<string, Leaf>) returns (r: Result<map<string, Leaf>>)
    requires Keyed(leaves)
    ensures r.Ok? <==> ScanKinds(data, KindsOf(leaves)).Ok?
    ensures r.Err? ==> r.error == ScanKinds(data, KindsOf(leaves)).error
    ensures r.Ok? ==> Keyed(r.value) && KindsOf(r.value) == ScanKinds(data, KindsOf(leaves)).value
    ensures r.Ok? ==> forall id | id in r.value ::
                        r.value[id] in leaves.Values || (fresh(r.value[id]) && r.value[id].edges == [])
    decreases data, 1
  {
    if !ValidateSchema(data, NodeSchema) {
      return Ok(leaves);
    }
    var kind := StrOf(data, "type", NodeSchema);
    if kind == "Topology" {
      if !ValidateSchema(data, TopologySchema) {
        return Ok(leaves);
      }
      var items := ListOf(data, "nodes", TopologySchema);
      var table := leaves;
      for i := 0 to |items|
        invariant Keyed(table)
        invariant ScanKindsList(items, KindsOf(leaves), data) == ScanKindsList(items[i..], KindsOf(table), data)
        invariant forall id | id in table :: table[id] in leaves.Values || (fresh(table[id]) && table[id].edges == [])
      {
        assert items[i..][0] == items[i] && items[i..][1..] == items[i + 1..];
        var s := ScanLeaves(items[i], table);
        if s.Err? {
          return Err(s.error);
        }
        table := s.value;
      }
      return Ok(table);
    }
    match KindFromString(kind)
    case None =>
      return Err(UnsupportedTypeError);
    case Some(k) =>
      var id := StrOf(data, "id", NodeSchema);
      var leaf := new Leaf(id, k);
      r := Ok(leaves[id := leaf]);
      assert KindsOf(r.value) == KindsOf(leaves)[id := k];
  }

  // ------------------------------------------------------ parse (pass two)

  /** What parsing a record yields: the shape of the node it returns and
      the edges it appends, each with the leaf it is appended to, in order. */
  datatype Parsed = Parsed(shape: Shape, adds: seq<(Leaf, Edge)>)

  /** The edges appended to `l`, in order. */
  function EdgesFor(l: Leaf, adds: seq<(Leaf, Edge)>): seq<Edge> {
    if adds == [] then []
    else (if adds[0].0 == l then [adds[0].1] else []) + EdgesFor(l, adds[1..])
  }

  lemma {:induction false} EdgesForAppend(l: Leaf, a: seq<(Leaf, Edge)>, b: seq<(Leaf, Edge)>)
    ensures EdgesFor(l, a + b) == EdgesFor(l, a) + EdgesFor(l, b)
    decreases |a|
  {
    if a == [] {
      assert a + b == b;
    } else {
      var head := if a[0].0 == l then [a[0].1] else [];
      assert (a + b)[1..] == a[1..] + b;
      EdgesForAppend(l, a[1..], b);
      calc {
        EdgesFor(l, a + b);
        head + EdgesFor(l, a[1..] + b);
        head + (EdgesFor(l, a[1..]) + EdgesFor(l, b));
        (head + EdgesFor(l, a[1..])) + EdgesFor(l, b);
      }
    }
  }

  /** Edges appended in two rounds are those of the joined adds. */
  lemma EdgesForExtend(l: Leaf, before: seq<Edge>, a: seq<(Leaf, Edge)>, b: seq<(Leaf, Edge)>)
    ensures (before + EdgesFor(l, a)) + EdgesFor(l, b) == before + EdgesFor(l, a + b)
  {
    EdgesForAppend(l, a, b);
    assert (before + EdgesFor(l, a)) + EdgesFor(l, b) == before + (EdgesFor(l, a) + EdgesFor(l, b));
  }

  /** Each table leaf holds its edges from `before` followed by those
      appended to it by `adds`. */
  ghost predicate Grown(leaves: map<string, Leaf>, before: map<Leaf, seq<Edge>>, adds: seq<(Leaf, Edge)>)
    reads leaves.Values
  {
    forall l | l in leaves.Values :: l in before && l.edges == before[l] + EdgesFor(l, adds)
  }

  /** `__validate_edge` and the read after it. A record that passes the
      schema must name a source and a destination in the table. One that
      fails it is still read, because the check answers True regardless:
      it works when its destination is a table id and its bandwidth an
      integer. A bandwidth of another type, which the source would store
      on the edge, is a validation error here, since bandwidths are
      integers in this model. */
  function ParseEdge(e: Json, owner: Leaf, leaves: map<string, Leaf>): Result<(Leaf, Edge)> {
    if ValidateSchema(e, EdgeSchema) then
      if StrOf(e, "source", EdgeSchema) !in leaves || StrOf(e, "destination", EdgeSchema) !in leaves then
        Err(ReferenceError)
      else
        Ok((owner, Edge(leaves[StrOf(e, "destination", EdgeSchema)], IntOf(e, "bandwidth", EdgeSchema))))
    else
      match (Get(e, "destination"), Get(e, "bandwidth"))
      case (Some(JString(d)), Some(JInt(b))) =>
        if d in leaves then Ok((owner, Edge(leaves[d], b))) else Err(ReferenceError)
      case _ => Err(ValidationError)
  }

  function ParseEdges(items: seq<Json>, owner: Leaf, leaves: map<string, Leaf>): Result<seq<(Leaf, Edge)>> {
    if items == [] then Ok([])
    else
      match ParseEdge(items[0], owner, leaves)
      case Err(err) => Err(err)
      case Ok(add) =>
        match ParseEdges(items[1..], owner, leaves)
        case Err(err) => Err(err)
        case Ok(rest) => Ok([add] + rest)
  }

  /** A record that passes the node schema, is typed Topology and passes
      the topology schema. */
  predicate IsTopologyRecord(data: Json) {
    ValidateSchema(data, NodeSchema) && StrOf(data, "type", NodeSchema) == "Topology"
    && ValidateSchema(data, TopologySchema)
  }

  /** A record that passes the node schema, is typed Host or Switch and
      passes the leaf schema. */
  predicate IsLeafRecord(data: Json) {
    ValidateSchema(data, NodeSchema)
    && (StrOf(data, "type", NodeSchema) == "Host" || StrOf(data, "type", NodeSchema) == "Switch")
    && ValidateSchema(data, LeafSchema)
  }

  /** `__parse_node`: a Topology record with a node list becomes a topology
      with its children parsed in order; a Host or Switch record with an
      edge list becomes the table's leaf for its id, with its edges
      appended; anything else is rejected. */
  function Parse(data: Json, leaves: map<string, Leaf>): Result<Parsed>
    decreases data, 2
  {
    if IsTopologyRecord(data) then ParseTopologyRecord(data, leaves)
    else if IsLeafRecord(data) then ParseLeafRecord(data, leaves)
    else Err(UnsupportedTypeError)
  }

  function ParseTopologyRecord(data: Json, leaves: map<string, Leaf>): Result<Parsed>
    requires IsTopologyRecord(data)
    decreases data, 1
  {
    match ParseList(ListOf(data, "nodes", TopologySchema), leaves, data)
    case Err(err) => Err(err)
    case Ok(p) => Ok(Parsed(STopology(StrOf(data, "id", NodeSchema), p.0), p.1))
  }

  function ParseLeafRecord(data: Json, leaves: map<string, Leaf>): Result<Parsed>
    requires IsLeafRecord(data)
  {
    var id := StrOf(data, "id", NodeSchema);
    if id !in leaves then Err(ReferenceError)
    else
      match ParseEdges(ListOf(data, "edges", LeafSchema), leaves[id], leaves)
      case Err(err) => Err(err)
      case Ok(adds) => Ok(Parsed(SLeaf(leaves[id]), adds))
  }

  function ParseList(items: seq<Json>, leaves: map<string, Leaf>, ghost parent: Json)
    : Result<(seq<Shape>, seq<(Leaf, Edge)>)>
    requires forall k | 0 <= k < |items| :: items[k] < parent
    decreases parent, 0, |items|
  {
    if items == [] then Ok(([], []))
    else
      match Parse(items[0], leaves)
      case Err(err) => Err(err)
      case Ok(p) =>
        match ParseList(items[1..], leaves, parent)
        case Err(err) => Err(err)
        case Ok(rest) => Ok(([p.shape] + rest.0, p.adds + rest.1))
  }


  /** Puts a prefix of shapes and adds in front of a parse result. */
  function Prepend(shapes: seq<Shape>, adds: seq<(Leaf, Edge)>, r: Result<(seq<Shape>, seq<(Leaf, Edge)>)>)
    : Result<(seq<Shape>, seq<(Leaf, Edge)>)>
  {
    match r
    case Err(err) => Err(err)
    case Ok(p) => Ok((shapes + p.0, adds + p.1))
  }

  lemma PrependNothing(r: Result<(seq<Shape>, seq<(Leaf, Edge)>)>)
    ensures Prepend([], [], r) == r
  {
    if r.Ok? {
      assert [] + r.value.0 == r.value.0 && [] + r.value.1 == r.value.1;
    }
  }

  /** Parsing the list from position `i` on fails when item `i` fails, and
      otherwise yields item `i`'s shape and adds followed by the rest. */
  lemma ParseListNext(items: seq<Json>, i: nat, leaves: map<string, Leaf>, parent: Json,
                      shapes: seq<Shape>, adds: seq<(Leaf, Edge)>)
    requires i < |items| && forall k | 0 <= k < |items| :: items[k] < parent
    ensures Parse(items[i], leaves).Err? ==>
              Prepend(shapes, adds, ParseList(items[i..], leaves, parent)) == Err(Parse(items[i], leaves).error)
    ensures Parse(items[i], leaves).Ok? ==>
              Prepend(shapes, adds, ParseList(items[i..], leaves, parent))
              == Prepend(shapes + [Parse(items[i], leaves).value.shape], adds + Parse(items[i], leaves).value.adds,
                         ParseList(items[i + 1..], leaves, parent))
  {
    assert items[i..][0] == items[i] && items[i..][1..] == items[i + 1..];
    if Parse(items[i], leaves).Ok? && ParseList(items[i + 1..], leaves, parent).Ok? {
      var p := Parse(items[i], leaves).value;
      var rest := ParseList(items[i + 1..], leaves, parent).value;
      assert shapes + ([p.shape] + rest.0) == (shapes + [p.shape]) + rest.0;
      assert adds + (p.adds + rest.1) == (adds + p.adds) + rest.1;
    }
  }

  /** Puts a prefix of adds in front of an edge-list parse result. */
  function PrependAdds(adds: seq<(Leaf, Edge)>, r: Result<seq<(Leaf, Edge)>>): Result<seq<(Leaf, Edge)>> {
    match r
    case Err(err) => Err(err)
    case Ok(rest) => Ok(adds + rest)
  }

  lemma PrependAddsNothing(r: Result<seq<(Leaf, Edge)>>)
    ensures PrependAdds([], r) == r
  {
    if r.Ok? {
      assert [] + r.value == r.value;
    }
  }

  /** The edge-list analogue of `ParseListNext`. */
  lemma ParseEdgesNext(items: seq<Json>, i: nat, owner: Leaf, leaves: map<string, Leaf>, adds: seq<(Leaf, Edge)>)
    requires i < |items|
    ensures ParseEdge(items[i], owner, leaves).Err? ==>
              PrependAdds(adds, ParseEdges(items[i..], owner, leaves)) == Err(ParseEdge(items[i], owner, leaves).error)
    ensures ParseEdge(items[i], owner, leaves).Ok? ==>
              PrependAdds(adds, ParseEdges(items[i..], owner, leaves))
              == PrependAdds(adds + [ParseEdge(items[i], owner, leaves).value], ParseEdges(items[i + 1..], owner, leaves))
  {
    assert items[i..][0] == items[i] && items[i..][1..] == items[i + 1..];
    if ParseEdge(items[i], owner, leaves).Ok? && ParseEdges(items[i + 1..], owner, leaves).Ok? {
      var a := ParseEdge(items[i], owner, leaves).value;
      var rest := ParseEdges(items[i + 1..], owner, leaves).value;
      assert adds + ([a] + rest) == (adds + [a]) + rest;
    }
  }

  /** `__parse_node`: builds the nodes the parse describes. Only the table's
      leaves change, each gaining the edges appended to it; the topologies
      are new. */
  method ParseNode(data: Json, leaves: map<string, Leaf>) returns (r: Result<Node>)
    modifies leaves.Values
    ensures r.Ok? <==> Parse(data, leaves).Ok?
    ensures r.Err? ==> r.error == Parse(data, leaves).error
    ensures r.Ok? ==> r.value.Valid() && fresh(r.value.Repr()) && r.value.Leaves() <= leaves.Values
    ensures r.Ok? ==> ShapeOf(r.value) == Parse(data, leaves).value.shape
    ensures r.Ok? ==> forall l | l in leaves.Values :: l.edges == old(l.edges) + EdgesFor(l, Parse(data, leaves).value.adds)
    decreases data, 3
  {
    if IsTopologyRecord(data) {
      r := ParseTopology(data, leaves);
    } else if IsLeafRecord(data) {
      r := ParseLeaf(data, leaves);
    } else {
      r := Err(UnsupportedTypeError);
    }
  }

  /** The Topology branch of `__parse_node`: a new topology, and each child
      parsed and added in order. */
  method ParseTopology(data: Json, leaves: map<string, Leaf>) returns (r: Result<Node>)
    requires IsTopologyRecord(data)
    modifies leaves.Values
    ensures r.Ok? <==> ParseTopologyRecord(data, leaves).Ok?
    ensures r.Err? ==> r.error == ParseTopologyRecord(data, leaves).error
    ensures r.Ok? ==> r.value.Valid() && fresh(r.value.Repr()) && r.value.Leaves() <= leaves.Values
    ensures r.Ok? ==> ShapeOf(r.value) == ParseTopologyRecord(data, leaves).value.shape
    ensures r.Ok? ==> forall l | l in leaves.Values ::
                        l.edges == old(l.edges) + EdgesFor(l, ParseTopologyRecord(data, leaves).value.adds)
    decreases data, 2
  {
    var items := ListOf(data, "nodes", TopologySchema);
    var t := new Topology(StrOf(data, "id", NodeSchema));
    var err := ParseChildren(t, items, leaves, data);
    if err.Some? {
      return Err(err.value);
    }
    r := Ok(TopologyNode(t));
  }

  /** The loop of the Topology branch: each child parsed and added to `t`
      in order; `t` starts empty. */
  method ParseChildren(t: Topology, items: seq<Json>, leaves: map<string, Leaf>, ghost parent: Json)
    returns (err: Option<Error>)
    requires forall k | 0 <= k < |items| :: items[k] < parent
    requires t.Valid() && t.nodes == [] && t.repr == {t} && t.leafSet == {}
    modifies t, leaves.Values
    ensures err.Some? <==> ParseList(items, leaves, parent).Err?
    ensures err.Some? ==> err.value == ParseList(items, leaves, parent).error
    ensures err.None? ==> t.Valid() && fresh(t.repr - {t}) && t.leafSet <= leaves.Values
    ensures err.None? ==> ShapesFrom(t, 0) == ParseList(items, leaves, parent).value.0
    ensures err.None? ==> forall l | l in leaves.Values ::
                            l.edges == old(l.edges) + EdgesFor(l, ParseList(items, leaves, parent).value.1)
    decreases parent, 1
  {
    ghost var before := map l | l in leaves.Values :: l.edges;
    ghost var shapes: seq<Shape> := [];
    ghost var adds: seq<(Leaf, Edge)> := [];
    assert items[0..] == items;
    PrependNothing(ParseList(items, leaves, parent));
    for i := 0 to |items|
      invariant t.Valid()
      invariant fresh(t.repr - {t})
      invariant t.leafSet <= leaves.Values
      invariant ShapesFrom(t, 0) == shapes
      invariant Grown(leaves, before, adds)
      invariant forall l | l in leaves.Values :: before[l] == old(l.edges)
      invariant ParseList(items, leaves, parent) == Prepend(shapes, adds, ParseList(items[i..], leaves, parent))
    {
      ParseListNext(items, i, leaves, parent, shapes, adds);
      err := ParseChild(t, items[i], leaves, parent, shapes, adds, before);
      if err.Some? {
        return;
      }
      shapes := shapes + [Parse(items[i], leaves).value.shape];
      adds := adds + Parse(items[i], leaves).value.adds;
    }
    assert items[|items|..] == [];
    assert ParseList(items[|items|..], leaves, parent) == Ok(([], []));
    assert shapes + [] == shapes && adds + [] == adds;
    err := None;
  }

  /** One round of the Topology branch: parse the next child and add it. */
  method ParseChild(t: Topology, item: Json, leaves: map<string, Leaf>, ghost parent: Json,
                    ghost shapes: seq<Shape>, ghost adds: seq<(Leaf, Edge)>, ghost before: map<Leaf, seq<Edge>>)
    returns (err: Option<Error>)
    requires item < parent
    requires t.Valid() && t.leafSet <= leaves.Values && ShapesFrom(t, 0) == shapes
    requires Grown(leaves, before, adds)
    modifies t, leaves.Values
    ensures err.Some? <==> Parse(item, leaves).Err?
    ensures err.Some? ==> err.value == Parse(item, leaves).error
    ensures err.None? ==> t.Valid() && t.leafSet <= leaves.Values
    ensures err.None? ==> fresh(t.repr - old(t.repr))
    ensures err.None? ==> ShapesFrom(t, 0) == shapes + [Parse(item, leaves).value.shape]
    ensures err.None? ==> Grown(leaves, before, adds + Parse(item, leaves).value.adds)
    decreases parent, 0
  {
    var child := ParseNode(item, leaves);
    if child.Err? {
      return Some(child.error);
    }
    ghost var p := Parse(item, leaves).value;
    forall l | l in leaves.Values
      ensures l in before && l.edges == before[l] + EdgesFor(l, adds + p.adds)
    {
      assert l.edges == (before[l] + EdgesFor(l, adds)) + EdgesFor(l, p.adds);
      EdgesForExtend(l, before[l], adds, p.adds);
    }
    AddChild(t, child.value, shapes);
    err := None;
  }

  /** `add_node` seen through shapes: the children keep their shapes and
      the new child's shape comes last. */
  method AddChild(t: Topology, n: Node, ghost shapes: seq<Shape>)
    requires t.Valid() && n.Valid() && t !in n.Repr() && ShapesFrom(t, 0) == shapes
    modifies t
    ensures t.Valid() && t.repr == old(t.repr) + n.Repr() && t.leafSet == old(t.leafSet) + n.Leaves()
    ensures ShapesFrom(t, 0) == shapes + [old(ShapeOf(n))]
  {
    ghost var shape := ShapeOf(n);
    t.AddNode(n);
    t.ShapesKept(shapes);
    assert ShapeOf(n) == shape;
    assert ShapesFrom(t, 0) == shapes + [shape];
  }

  /** The Host/Switch branch of `__parse_node`: the table's leaf for the
      record's id, with each listed edge appended in order. */
  method ParseLeaf(data: Json, leaves: map<string, Leaf>) returns (r: Result<Node>)
    requires IsLeafRecord(data)
    modifies leaves.Values
    ensures r.Ok? <==> ParseLeafRecord(data, leaves).Ok?
    ensures r.Err? ==> r.error == ParseLeafRecord(data, leaves).error
    ensures r.Ok? ==> r.value.Valid() && r.value.Repr() == {} && r.value.Leaves() <= leaves.Values
    ensures r.Ok? ==> ShapeOf(r.value) == ParseLeafRecord(data, leaves).value.shape
    ensures r.Ok? ==> forall l | l in leaves.Values ::
                        l.edges == old(l.edges) + EdgesFor(l, ParseLeafRecord(data, leaves).value.adds)
  {
    var id := StrOf(data, "id", NodeSchema);
    if id !in leaves {
      return Err(ReferenceError);
    }
    var leaf := leaves[id];
    var items := ListOf(data, "edges", LeafSchema);
    ghost var before := map l | l in leaves.Values :: l.edges;
    ghost var adds: seq<(Leaf, Edge)> := [];
    assert items[0..] == items;
    PrependAddsNothing(ParseEdges(items, leaf, leaves));
    for i := 0 to |items|
      invariant Grown(leaves, before, adds)
      invariant forall l | l in leaves.Values :: before[l] == old(l.edges)
      invariant ParseEdges(items, leaf, leaves) == PrependAdds(adds, ParseEdges(items[i..], leaf, leaves))
    {
      ParseEdgesNext(items, i, leaf, leaves, adds);
      var err := AppendEdge(leaf, items[i], leaves, adds, before);
      if err.Some? {
        return Err(err.value);
      }
      adds := adds + [ParseEdge(items[i], leaf, leaves).value];
    }
    assert items[|items|..] == [];
    r := Ok(LeafNode(leaf));
    assert ParseLeafRecord(data, leaves).value.adds == adds;
  }

  /** One round of the Host/Switch branch: read the next edge record and
      append its edge to the leaf. */
  method AppendEdge(leaf: Leaf, item: Json, leaves: map<string, Leaf>,
                    ghost adds: seq<(Leaf, Edge)>, ghost before: map<Leaf, seq<Edge>>)
    returns (err: Option<Error>)
    requires leaf in leaves.Values && Grown(leaves, before, adds)
    modifies leaf
    ensures err.Some? <==> ParseEdge(item, leaf, leaves).Err?
    ensures err.Some? ==> err.value == ParseEdge(item, leaf, leaves).error
    ensures err.None? ==> Grown(leaves, before, adds + [ParseEdge(item, leaf, leaves).value])
  {
    var add := ParseEdge(item, leaf, leaves);
    if add.Err? {
      return Some(add.error);
    }
    leaf.AddEdge(add.value.1.destination, add.value.1.bandwidth);
    forall l | l in leaves.Values
      ensures l in before && l.edges == before[l] + EdgesFor(l, adds + [add.value])
    {
      assert EdgesFor(l, [add.value]) == if l == leaf then [add.value.1] else [];
      assert l.edges == (before[l] + EdgesFor(l, adds)) + EdgesFor(l, [add.value]);
      EdgesForExtend(l, before[l], adds, [add.value]);
    }
    err := None;
  }

  // ------------------------------------------------------------------ run

  /** `run`: scan into a fresh table, then parse with it. The table is
      returned as a ghost so that the result can be stated against it. */
  method Decode(data: Json) returns (r: Result<Node>, ghost table: map<string, Leaf>)
    ensures ScanKinds(data, map[]).Err? ==> r == Err(ScanKinds(data, map[]).error)
    ensures ScanKinds(data, map[]).Ok? ==>
              && Keyed(table) && KindsOf(table) == ScanKinds(data, map[]).value
              && (r.Ok? <==> Parse(data, table).Ok?)
              && (r.Err? ==> r.error == Parse(data, table).error)
    ensures r.Ok? ==> r.value.Valid() && fresh(r.value.Repr()) && r.value.Leaves() <= table.Values
    ensures r.Ok? ==> ShapeOf(r.value) == Parse(data, table).value.shape
    ensures r.Ok? ==> forall l | l in table.Values :: fresh(l) && l.edges == EdgesFor(l, Parse(data, table).value.adds)
  {
    var scanned := ScanLeaves(data, map[]);
    if scanned.Err? {
      return Err(scanned.error), map[];
    }
    var leaves := scanned.value;
    table := leaves;
    assert forall l | l in table.Values :: fresh(l) && l.edges == [];
    label Scanned:
    r := ParseNode(data, leaves);
    if r.Ok? {
      forall l | l in table.Values
        ensures l.edges == EdgesFor(l, Parse(data, table).value.adds)
      {
        assert old@Scanned(l.edges) == [];
      }
    }
  }

  // ------------------------------------------------------------ encodings

  /** An encoded record holds its type, id and list under their keys, and
      passes the node schema (and the topology schema when it is one). */
  lemma RecordFields(v: TreeView)
    ensures Get(NodeRecord(v), "type") == Some(JString(if v.VLeaf? then KindValue(v.kind) else "Topology"))
    ensures Get(NodeRecord(v), "id") == Some(JString(v.id))
    ensures Get(NodeRecord(v), if v.VLeaf? then "edges" else "nodes") == Some(NodeRecord(v).fields[2].1)
    ensures ValidateSchema(NodeRecord(v), NodeSchema)
    ensures v.VTopology? ==> ValidateSchema(NodeRecord(v), TopologySchema)
    ensures v.VLeaf? ==> ValidateSchema(NodeRecord(v), LeafSchema)
  {
    var data := NodeRecord(v);
    var list := if v.VLeaf? then "edges" else "nodes";
    FindFirst(data.fields, 0, "type");
    FindFirst(data.fields, 1, "id");
    FindFirst(data.fields, 2, list);
    RecordValidates(data, list);
    assert (if v.VLeaf? then LeafSchema else TopologySchema) == NodeSchema + [(list, ListField)];
  }

  /** A record with a string type, a string id and a list under `list`
      passes the node schema and the node schema extended by that list. */
  lemma RecordValidates(data: Json, list: string)
    requires Get(data, "type").Some? && Get(data, "type").value.JString?
    requires Get(data, "id").Some? && Get(data, "id").value.JString?
    requires Get(data, list).Some? && Get(data, list).value.JArray?
    ensures ValidateSchema(data, NodeSchema)
    ensures ValidateSchema(data, NodeSchema + [(list, ListField)])
  {
    // The schemas are checked field by field, keeping each check's key known.
    ValidateSchemaOne(data, "type", StrField);
    ValidateSchemaOne(data, "id", StrField);
    ValidateSchemaJoin(data, [("type", StrField)], [("id", StrField)]);
    assert NodeSchema == [("type", StrField)] + [("id", StrField)];
    ValidateSchemaOne(data, list, ListField);
    ValidateSchemaJoin(data, NodeSchema, [(list, ListField)]);
  }

  /** Scanning an encoded node never fails: the encoder's upper-case kind
      values are recognised, and every leaf id is registered with its
      kind. */
  lemma {:induction false} ScanEncoded(v: TreeView, kinds: map<string, LeafKind>)
    ensures ScanKinds(NodeRecord(v), kinds) == Ok(Registered(v, kinds))
    decreases v, 1
  {
    RecordFields(v);
    if v.VLeaf? {
      ScanLeafRecord(NodeRecord(v), v.id, v.kind, kinds);
    } else {
      var items := ListOf(NodeRecord(v), "nodes", TopologySchema);
      ScanEncodedList(v, 0, kinds);
      assert items[0..] == items;
    }
  }

  /** A record typed with a kind's enum value registers its id with that
      kind. */
  lemma ScanLeafRecord(data: Json, id: string, kind: LeafKind, kinds: map<string, LeafKind>)
    requires ValidateSchema(data, NodeSchema)
    requires Get(data, "type") == Some(JString(KindValue(kind))) && Get(data, "id") == Some(JString(id))
    ensures ScanKinds(data, kinds) == Ok(kinds[id := kind])
  {
    assert StrOf(data, "type", NodeSchema) == KindValue(kind);
    assert KindValue(kind)[1] != "Topology"[1];
    assert KindFromString(KindValue(kind)) == Some(kind);
  }

  lemma {:induction false} ScanEncodedList(v: TreeView, i: nat, kinds: map<string, LeafKind>)
    requires v.VTopology? && i <= |v.children|
    ensures NodeRecord(v).fields[2].1.JArray?
    ensures var items := NodeRecord(v).fields[2].1.items;
            && |items| == |v.children|
            && (forall k | 0 <= k < |items| :: items[k] < NodeRecord(v))
            && ScanKindsList(items[i..], kinds, NodeRecord(v)) == Ok(RegisteredList(v, i, kinds))
    decreases v, 0, |v.children| - i
  {
    var items := NodeRecord(v).fields[2].1.items;
    if i < |v.children| {
      assert items[i..][0] == NodeRecord(v.children[i]) && items[i..][1..] == items[i + 1..];
      ScanEncoded(v.children[i], kinds);
      ScanEncodedList(v, i + 1, Registered(v.children[i], kinds));
    }
  }

  /** The parse accepts leaf records typed "Host" or "Switch" only, while
      the encoder types them with the upper-case enum value: the decoder
      rejects every leaf record the encoder writes. */
  lemma EncodedLeafRejected(id: string, kind: LeafKind, edges: seq<EdgeView>, leaves: map<string, Leaf>)
    ensures Parse(NodeRecord(VLeaf(id, kind, edges)), leaves) == Err(UnsupportedTypeError)
  {
    var data := NodeRecord(VLeaf(id, kind, edges));
    RecordFields(VLeaf(id, kind, edges));
    assert StrOf(data, "type", NodeSchema) == KindValue(kind);
    assert KindValue(kind)[1] != "Topology"[1] && KindValue(kind)[1] != "Host"[1] && KindValue(kind)[1] != "Switch"[1];
  }
}
