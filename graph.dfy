/** The topology graph of nsim/topology/models: leaves (hosts and switches)
    that own their outgoing edges, and topologies that contain leaves and
    other topologies. The containment tree and the edge graph are
    independent: edges may point to any leaf. */
module Graph {
  import opened Wrappers
  import opened Decimal

  /** LeafType: a leaf is a host or a switch, fixed at construction. */
  datatype LeafKind = Host | Switch

  /** The enum value of a kind ("HOST" or "SWITCH"). */
  function KindValue(k: LeafKind): (s: string)
    ensures |s| > 0
  {
    match k
    case Host => "HOST"
    case Switch => "SWITCH"
  }

  /** A directed edge. It is owned by its source leaf, which is the leaf whose
      `edges` hold it: `add_edge` is the only place an edge is built, and it
      always passes itself as the source. */
  datatype Edge = Edge(destination: Leaf, bandwidth: int)

  /** The edge id: source id, destination id and decimal bandwidth, joined by
      underscores. */
  function EdgeId(sourceId: string, destinationId: string, bandwidth: int): string {
    sourceId + "_" + destinationId + "_" + IntToString(bandwidth)
  }

  /** Given the two endpoint ids, an edge id determines the bandwidth: the
      text after the second separator reads back as the bandwidth. */
  lemma EdgeIdBandwidth(sourceId: string, destinationId: string, bandwidth: int)
    ensures var n := |sourceId| + |destinationId| + 2;
            n <= |EdgeId(sourceId, destinationId, bandwidth)|
            && ParseInt(EdgeId(sourceId, destinationId, bandwidth)[n..]) == Some(bandwidth)
  {
    var n := |sourceId| + |destinationId| + 2;
    assert EdgeId(sourceId, destinationId, bandwidth)[n..] == IntToString(bandwidth);
    IntToStringRoundTrip(bandwidth);
  }

  /** Edge ids are not unique: parallel edges with equal bandwidth, or
      edges between different leaves that share ids, get the same id. */
  lemma EdgeIdIgnoresIdentity(s1: Leaf, e1: Edge, s2: Leaf, e2: Edge)
    requires s1.id == s2.id && e1.destination.id == e2.destination.id
    requires e1.bandwidth == e2.bandwidth
    ensures EdgeId(s1.id, e1.destination.id, e1.bandwidth) == EdgeId(s2.id, e2.destination.id, e2.bandwidth)
  {
  }

  /** A host or switch with an append-only list of outgoing edges. */
  class Leaf {
    const id: string
    const kind: LeafKind
    var edges: seq<Edge>

    /** A fresh leaf has the given id and kind and no edges. */
    constructor (id: string, kind: LeafKind)
      ensures this.id == id && this.kind == kind && edges == []
    {
      this.id := id;
      this.kind := kind;
      edges := [];
    }

    /** Appends one edge to `destination`; any destination is accepted,
        including this leaf itself and repeats. The destination gains no
        reverse edge. */
    method AddEdge(destination: Leaf, bandwidth: int)
      modifies this
      ensures edges == old(edges) + [Edge(destination, bandwidth)]
      ensures destination != this ==> destination.edges == old(destination.edges)
    {
      edges := edges + [Edge(destination, bandwidth)];
    }
  }

  /** A child of a topology: a leaf or a nested topology. */
  datatype Node = LeafNode(leaf: Leaf) | TopologyNode(topology: Topology)
  {
    function Id(): string {
      match this
      case LeafNode(l) => l.id
      case TopologyNode(t) => t.id
    }

    /** The topologies whose fields the functions below read. */
    ghost function Repr(): set<Topology>
      reads if TopologyNode? then {topology} else {}
    {
      if TopologyNode? then topology.repr else {}
    }

    /** Every leaf the containment tree below this node may hold. */
    ghost function Leaves(): set<Leaf>
      reads if TopologyNode? then {topology} else {}
    {
      if TopologyNode? then topology.leafSet else {leaf}
    }

    ghost predicate Valid()
      reads if TopologyNode? then {topology} + topology.repr else {}
    {
      TopologyNode? ==> topology.Valid()
    }

    /** The leaves of this node, depth-first and left to right. */
    function Flatten(): seq<Leaf>
      reads if TopologyNode? then {topology} + topology.repr else {}
      requires Valid()
    {
      match this
      case LeafNode(l) => [l]
      case TopologyNode(t) => t.Flatten()
    }

    /** Containment without order: the leaf is this node, or some child of
        this topology holds it. */
    ghost predicate Holds(l: Leaf)
      reads if TopologyNode? then {topology} + topology.repr else {}
      requires Valid()
    {
      match this
      case LeafNode(m) => l == m
      case TopologyNode(t) => t.Contains(l)
    }
  }

  /** `flatten` lists exactly the leaves of the containment tree; a leaf
      flattens to itself alone. */
  lemma NodeFlattenMembers(n: Node, l: Leaf)
    requires n.Valid()
    ensures l in n.Flatten() <==> n.Holds(l)
    ensures n.LeafNode? ==> |n.Flatten()| == 1
  {
    if n.TopologyNode? {
      n.topology.FlattenContains(l);
    }
  }

  /** The concatenation of a sequence of leaf lists. */
  function Concat(parts: seq<seq<Leaf>>): seq<Leaf> {
    if parts == [] then [] else parts[0] + Concat(parts[1..])
  }

  lemma {:induction false} ConcatAppend(parts: seq<seq<Leaf>>, last: seq<Leaf>)
    ensures Concat(parts + [last]) == Concat(parts) + last
    decreases |parts|
  {
    if parts != [] {
      ConcatAppend(parts[1..], last);
      assert (parts + [last])[1..] == parts[1..] + [last];
    }
  }

  /** A container of nodes. `repr` holds this topology and every nested one;
      `leafSet` every leaf below it. Only topologies are read by `Valid` and
      `Flatten`, so appending edges to leaves leaves them unchanged. */
  class Topology {
    const id: string
    var nodes: seq<Node>
    ghost var repr: set<Topology>
    ghost var leafSet: set<Leaf>

    /** The containment structure below this topology is acyclic. */
    ghost predicate Valid()
      reads this, repr
      decreases repr
    {
      && this in repr
      && (forall i | 0 <= i < |nodes| && nodes[i].LeafNode? :: nodes[i].leaf in leafSet)
      && (forall i | 0 <= i < |nodes| && nodes[i].TopologyNode? ::
            && nodes[i].topology in repr
            && nodes[i].topology.repr < repr
            && this !in nodes[i].topology.repr
            && nodes[i].topology.leafSet <= leafSet
            && nodes[i].topology.Valid())
    }

    /** A topology starts with no children. */
    constructor (id: string)
      ensures this.id == id && nodes == []
      ensures Valid() && repr == {this} && leafSet == {}
    {
      this.id := id;
      nodes := [];
      repr := {this};
      leafSet := {};
    }

    /** The leaves of all children in order, each child flattened in turn. */
    function Flatten(): (r: seq<Leaf>)
      reads this, repr
      requires Valid()
      ensures forall l | l in r :: l in leafSet
      decreases repr, 1, 0
    {
      FlattenFrom(0)
    }

    /** The flattened leaves of the children from position `i` on. */
    function FlattenFrom(i: nat): (r: seq<Leaf>)
      reads this, repr
      requires Valid() && i <= |nodes|
      ensures forall l | l in r :: l in leafSet
      decreases repr, 0, |nodes| - i
    {
      if i == |nodes| then []
      else
        (match nodes[i]
         case LeafNode(l) => [l]
         case TopologyNode(t) => t.Flatten())
        + FlattenFrom(i + 1)
    }

    /** Some child is the leaf, or a nested topology contains it. */
    ghost predicate Contains(l: Leaf)
      reads this, repr
      requires Valid()
      decreases repr
    {
      exists i | 0 <= i < |nodes| ::
        || nodes[i] == LeafNode(l)
        || (nodes[i].TopologyNode? && nodes[i].topology.Contains(l))
    }

    lemma {:induction false} FlattenFromContains(i: nat, l: Leaf)
      requires Valid() && i <= |nodes|
      ensures l in FlattenFrom(i) <==>
                exists j | i <= j < |nodes| ::
                  || nodes[j] == LeafNode(l)
                  || (nodes[j].TopologyNode? && nodes[j].topology.Contains(l))
      decreases repr, |nodes| - i
    {
      if i < |nodes| {
        FlattenFromContains(i + 1, l);
        if nodes[i].TopologyNode? {
          nodes[i].topology.FlattenContains(l);
        }
      }
    }

    /** `flatten` lists exactly the leaves of the containment tree. */
    lemma {:induction false} FlattenContains(l: Leaf)
      requires Valid()
      ensures l in Flatten() <==> Contains(l)
      decreases repr, |nodes| + 1
    {
      FlattenFromContains(0, l);
    }

    /** The flattened leaves of each child from position `i` on. */
    ghost function PartsFrom(i: nat): (r: seq<seq<Leaf>>)
      reads this, repr
      requires Valid() && i <= |nodes|
      ensures |r| == |nodes| - i
      ensures forall j | 0 <= j < |r| :: r[j] == nodes[i + j].Flatten()
      decreases |nodes| - i
    {
      if i == |nodes| then [] else [nodes[i].Flatten()] + PartsFrom(i + 1)
    }

    /** Flattening from position `k` concatenates the children's leaves. */
    lemma {:induction false} FlattenFromParts(k: nat, parts: seq<seq<Leaf>>)
      requires Valid() && k <= |nodes| && |parts| == |nodes|
      requires forall j | 0 <= j < |parts| :: parts[j] == nodes[j].Flatten()
      ensures FlattenFrom(k) == Concat(parts[k..])
      decreases |nodes| - k
    {
      if k < |nodes| {
        FlattenFromParts(k + 1, parts);
        assert parts[k..] == [parts[k]] + parts[k + 1..];
      }
    }

    /** With the earlier children's leaves given, flattening after an
        append adds the last child's leaves at the end. */
    lemma FlattenAppended(parts: seq<seq<Leaf>>, n: Node)
      requires Valid() && |nodes| == |parts| + 1 && nodes[|parts|] == n
      requires forall i | 0 <= i < |parts| :: parts[i] == nodes[i].Flatten()
      ensures Flatten() == Concat(parts) + n.Flatten()
    {
      FlattenFromParts(0, parts + [n.Flatten()]);
      assert (parts + [n.Flatten()])[0..] == parts + [n.Flatten()];
      ConcatAppend(parts, n.Flatten());
    }

    /** Changing only this topology's own fields leaves every earlier
        child's flattened leaves as they were. */
    twostate lemma ChildrenUnchanged(parts: seq<seq<Leaf>>)
      requires old(Valid()) && |old(nodes)| <= |nodes|
      requires nodes[..|old(nodes)|] == old(nodes)
      requires unchanged(old(repr) - {this})
      requires parts == old(PartsFrom(0))
      ensures forall i | 0 <= i < |parts| :: nodes[i].Valid() && parts[i] == nodes[i].Flatten()
    {
      forall i | 0 <= i < |parts|
        ensures nodes[i].Valid() && parts[i] == nodes[i].Flatten()
      {
        assert nodes[i] == old(nodes[i]);
      }
    }

    /** Changing only this topology's own fields leaves the shape of every
        earlier child as it was. */
    twostate lemma ShapesKept(shapes: seq<Shape>)
      requires old(Valid()) && Valid() && |old(nodes)| <= |nodes|
      requires nodes[..|old(nodes)|] == old(nodes)
      requires unchanged(old(repr) - {this})
      requires shapes == old(ShapesFrom(this, 0))
      ensures forall i | 0 <= i < |shapes| :: shapes[i] == ShapeOf(nodes[i])
    {
      forall i | 0 <= i < |shapes|
        ensures shapes[i] == ShapeOf(nodes[i])
      {
        assert nodes[i] == old(nodes[i]);
      }
    }

    /** Appends one child at the end; the children already present are
        unchanged, and the flattened leaves grow by the child's leaves.
        The child must not contain this topology (the containment tree is
        acyclic). */
    method AddNode(n: Node)
      requires Valid()
      requires n.Valid() && this !in n.Repr()
      modifies this
      ensures Valid()
      ensures nodes == old(nodes) + [n]
      ensures repr == old(repr) + n.Repr() && leafSet == old(leafSet) + n.Leaves()
      ensures Flatten() == old(Flatten()) + n.Flatten()
    {
      ghost var parts := PartsFrom(0);
      FlattenFromParts(0, parts);
      PrefixOfAppend(nodes, n);
      nodes := nodes + [n];
      repr := repr + n.Repr();
      leafSet := leafSet + n.Leaves();
      Appended(parts);
    }

    /** After `AddNode`'s updates the topology is valid again and its
        flattened leaves are the earlier ones followed by the new last
        child's. */
    twostate lemma Appended(parts: seq<seq<Leaf>>)
      requires old(Valid()) && |nodes| == |old(nodes)| + 1 && nodes[..|old(nodes)|] == old(nodes)
      requires nodes[|old(nodes)|].Valid() && this !in nodes[|old(nodes)|].Repr()
      requires repr == old(repr) + nodes[|old(nodes)|].Repr()
      requires leafSet == old(leafSet) + nodes[|old(nodes)|].Leaves()
      requires unchanged(old(repr) - {this})
      requires parts == old(PartsFrom(0)) && old(FlattenFrom(0)) == Concat(parts)
      ensures Valid()
      ensures Flatten() == old(Flatten()) + nodes[|old(nodes)|].Flatten()
    {
      ChildrenUnchanged(parts);
      FlattenAppended(parts, nodes[|old(nodes)|]);
    }
  }

  /** The containment tree as a value, with the leaf objects themselves. */
  datatype Shape = SLeaf(leaf: Leaf) | STopology(id: string, children: seq<Shape>)

  /** The containment tree of `n`: it reads topologies only, so adding
      edges to leaves leaves it unchanged. */
  function ShapeOf(n: Node): Shape
    reads if n.TopologyNode? then {n.topology} + n.topology.repr else {}
    requires n.Valid()
    decreases n.Repr(), 1
  {
    match n
    case LeafNode(l) => SLeaf(l)
    case TopologyNode(t) => STopology(t.id, ShapesFrom(t, 0))
  }

  function ShapesFrom(t: Topology, i: nat): (r: seq<Shape>)
    reads t, t.repr
    requires t.Valid() && i <= |t.nodes|
    ensures |r| == |t.nodes| - i
    ensures forall j | 0 <= j < |r| :: r[j] == ShapeOf(t.nodes[i + j])
    decreases t.repr, 0, |t.nodes| - i
  {
    if i == |t.nodes| then [] else [ShapeOf(t.nodes[i])] + ShapesFrom(t, i + 1)
  }

  /** A decoder's leaf table: each id maps to a leaf with that id. */
  ghost predicate Keyed(leaves: map<string, Leaf>) {
    forall id | id in leaves :: leaves[id].id == id
  }

  /** The kind registered for each id of a leaf table. */
  function KindsOf(leaves: map<string, Leaf>): (kinds: map<string, LeafKind>)
    ensures kinds.Keys == leaves.Keys
  {
    map id | id in leaves :: leaves[id].kind
  }

  /** Every edge of `l` leads to one of `targets`. */
  ghost predicate EdgesInto(l: Leaf, targets: set<Leaf>)
    reads l
  {
    forall k | 0 <= k < |l.edges| :: l.edges[k].destination in targets
  }
}
