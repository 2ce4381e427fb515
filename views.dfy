/** A value picture of a node in the topology graph: a view keeps only
    what the encoders write: ids, kinds, and each leaf's edges as
    (destination id, bandwidth) in order. */
module Views {
  import opened Graph

  datatype EdgeView = EdgeView(destination: string, bandwidth: int)

  datatype TreeView =
    | VLeaf(id: string, kind: LeafKind, edges: seq<EdgeView>)
    | VTopology(id: string, children: seq<TreeView>)

  /** Each edge as its destination id and bandwidth. */
  function EdgeViews(edges: seq<Edge>): (r: seq<EdgeView>)
    ensures |r| == |edges|
    ensures forall k | 0 <= k < |edges| :: r[k] == EdgeView(edges[k].destination.id, edges[k].bandwidth)
  {
    seq(|edges|, k requires 0 <= k < |edges| => EdgeView(edges[k].destination.id, edges[k].bandwidth))
  }

  /** Appending an edge appends its picture. */
  lemma EdgeViewsAppend(edges: seq<Edge>, e: Edge)
    ensures EdgeViews(edges + [e]) == EdgeViews(edges) + [EdgeView(e.destination.id, e.bandwidth)]
  {
  }

  /** What the encoders see of `n`. */
  function ViewOf(n: Node): TreeView
    reads if n.TopologyNode? then {n.topology} + n.topology.repr + n.topology.leafSet else {n.leaf}
    requires n.Valid()
    decreases n.Repr(), 1
  {
    match n
    case LeafNode(l) => VLeaf(l.id, l.kind, EdgeViews(l.edges))
    case TopologyNode(t) => VTopology(t.id, ViewsFrom(t, 0))
  }

  function ViewsFrom(t: Topology, i: nat): (r: seq<TreeView>)
    reads t, t.repr, t.leafSet
    requires t.Valid() && i <= |t.nodes|
    ensures |r| == |t.nodes| - i
    ensures forall j | 0 <= j < |r| :: r[j] == ViewOf(t.nodes[i + j])
    decreases t.repr, 0, |t.nodes| - i
  {
    if i == |t.nodes| then [] else [ViewOf(t.nodes[i])] + ViewsFrom(t, i + 1)
  }

  /** The kinds the scan registers for a view: each leaf's id with its
      kind, in document order, a later one overwriting an earlier. */
  function Registered(v: TreeView, kinds: map<string, LeafKind>): map<string, LeafKind>
    decreases v, 1
  {
    match v
    case VLeaf(id, kind, _) => kinds[id := kind]
    case VTopology(_, children) => RegisteredList(v, 0, kinds)
  }

  function RegisteredList(v: TreeView, i: nat, kinds: map<string, LeafKind>): map<string, LeafKind>
    requires v.VTopology? && i <= |v.children|
    decreases v, 0, |v.children| - i
  {
    if i == |v.children| then kinds
    else RegisteredList(v, i + 1, Registered(v.children[i], kinds))
  }

  /** The ids of the leaves of a view. */
  function LeafIds(v: TreeView): set<string>
    decreases v
  {
    match v
    case VLeaf(id, _, _) => {id}
    case VTopology(_, children) => set i, x | 0 <= i < |children| && x in LeafIds(children[i]) :: x
  }

  /** Registration adds exactly the view's leaf ids to the table. */
  lemma {:induction false} RegisteredKeys(v: TreeView, kinds: map<string, LeafKind>)
    ensures Registered(v, kinds).Keys == kinds.Keys + LeafIds(v)
    decreases v, 1
  {
    if v.VTopology? {
      RegisteredListKeys(v, 0, kinds);
      assert forall x :: x in LeafIds(v) <==> exists i | 0 <= i < |v.children| :: x in LeafIds(v.children[i]);
    }
  }

  lemma {:induction false} RegisteredListKeys(v: TreeView, i: nat, kinds: map<string, LeafKind>)
    requires v.VTopology? && i <= |v.children|
    ensures RegisteredList(v, i, kinds).Keys ==
              kinds.Keys + (set j, x | i <= j < |v.children| && x in LeafIds(v.children[j]) :: x)
    decreases v, 0, |v.children| - i
  {
    if i < |v.children| {
      RegisteredKeys(v.children[i], kinds);
      RegisteredListKeys(v, i + 1, Registered(v.children[i], kinds));
      var later := set j, x | i + 1 <= j < |v.children| && x in LeafIds(v.children[j]) :: x;
      var here := set j, x | i <= j < |v.children| && x in LeafIds(v.children[j]) :: x;
      assert here == LeafIds(v.children[i]) + later;
    }
  }
}
