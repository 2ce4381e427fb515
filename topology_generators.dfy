/** The topology generators of nsim/topology/generators. The topology they
    start from is built by `Topology(name, number_of_nodes, connectivity)`,
    and links are made by `Topology.connect`; neither is part of this model,
    so the generators take the built topology and return the sequence of
    `connect` calls they make, in order. */
module TopologyGenerators {
  import opened Graph

  /** The mesh generator's input checks: a name of 1 to 29 characters, a
      node count in [0, 100000) and a connectivity in [0, 1]. The source asks
      again until each holds. */
  predicate ValidName(name: string) {
    0 < |name| < 30
  }

  predicate ValidNodeCount(n: int) {
    0 <= n < 100000
  }

  predicate ValidConnectivity(c: real) {
    0.0 <= c <= 1.0
  }

  /** `a` paired with each node of `rest`, in order. */
  function PairWith(a: Node, rest: seq<Node>): (r: seq<(Node, Node)>)
    ensures |r| == |rest|
    ensures forall k | 0 <= k < |rest| :: r[k] == (a, rest[k])
  {
    seq(|rest|, k requires 0 <= k < |rest| => (a, rest[k]))
  }

  /** The `connect` calls of the mesh loop on `queue`: pop the last node,
      pair it with every node still queued, in queue order, and repeat. */
  function MeshCalls(queue: seq<Node>): seq<(Node, Node)>
    decreases |queue|
  {
    if queue == [] then []
    else
      var rest := queue[..|queue| - 1];
      PairWith(queue[|queue| - 1], rest) + MeshCalls(rest)
  }

  /** `MeshTopologyGenerator.gen` after its inputs are read: the queue is a
      copy of the children, so popping it leaves the topology as it was. */
  method Mesh(name: string, numberOfNodes: int, connectivity: real, topology: Topology)
    returns (calls: seq<(Node, Node)>)
    requires ValidName(name) && ValidNodeCount(numberOfNodes) && ValidConnectivity(connectivity)
    ensures calls == MeshCalls(topology.nodes)
  {
    var queue := topology.nodes;
    calls := [];
    while |queue| > 0
      invariant calls + MeshCalls(queue) == MeshCalls(topology.nodes)
      decreases |queue|
    {
      var a := queue[|queue| - 1];
      queue := queue[..|queue| - 1];
      ghost var before := calls;
      for k := 0 to |queue|
        invariant calls == before + PairWith(a, queue)[..k]
      {
        calls := calls + [(a, queue[k])];
      }
    }
  }

  /** The loop makes n(n-1)/2 calls for n queued nodes. */
  lemma {:induction false} MeshCallCount(queue: seq<Node>)
    ensures 2 * |MeshCalls(queue)| == |queue| * (|queue| - 1)
    decreases |queue|
  {
    if queue != [] {
      var n := |queue|;
      MeshCallCount(queue[..n - 1]);
      assert n * (n - 1) == 2 * (n - 1) + (n - 1) * (n - 2);
    }
  }

  /** A call pairs a queued node with one queued before it, and every such
      pair of positions is called. */
  lemma {:induction false} MeshCallMembers(queue: seq<Node>, x: Node, y: Node)
    ensures (x, y) in MeshCalls(queue) <==>
              exists i, j | 0 <= j < i < |queue| :: queue[i] == x && queue[j] == y
    decreases |queue|
  {
    if queue != [] {
      var n := |queue|;
      var rest := queue[..n - 1];
      MeshCallMembers(rest, x, y);
      if (x, y) in MeshCalls(queue) {
        if (x, y) in PairWith(queue[n - 1], rest) {
          var k :| 0 <= k < |rest| && PairWith(queue[n - 1], rest)[k] == (x, y);
          assert queue[n - 1] == x && queue[k] == y;
        } else {
          assert (x, y) in MeshCalls(rest);
          var i, j :| 0 <= j < i < |rest| && rest[i] == x && rest[j] == y;
          assert queue[i] == x && queue[j] == y;
        }
      }
      if exists i, j | 0 <= j < i < n :: queue[i] == x && queue[j] == y {
        var i, j :| 0 <= j < i < n && queue[i] == x && queue[j] == y;
        if i == n - 1 {
          assert PairWith(queue[n - 1], rest)[j] == (x, y);
        } else {
          assert rest[i] == x && rest[j] == y;
        }
      }
    }
  }

  predicate Distinct(queue: seq<Node>) {
    forall i, j | 0 <= i < j < |queue| :: queue[i] != queue[j]
  }

  /** How often `(x, y)` occurs among the pairs of `a` with `rest`. */
  lemma {:induction false} PairWithCount(a: Node, rest: seq<Node>, x: Node, y: Node)
    ensures multiset(PairWith(a, rest))[(x, y)] == if x == a then multiset(rest)[y] else 0
    decreases |rest|
  {
    if rest != [] {
      var m := |rest| - 1;
      PairWithCount(a, rest[..m], x, y);
      assert PairWith(a, rest) == PairWith(a, rest[..m]) + [(a, rest[m])];
      assert rest == rest[..m] + [rest[m]];
    }
  }

  /** Over distinct nodes, each unordered pair is connected exactly once,
      with the later-queued node first. */
  lemma {:induction false} MeshCallsOnce(queue: seq<Node>, i: nat, j: nat)
    requires Distinct(queue) && j < i < |queue|
    ensures multiset(MeshCalls(queue))[(queue[i], queue[j])] == 1
    ensures multiset(MeshCalls(queue))[(queue[j], queue[i])] == 0
    decreases |queue|
  {
    var n := |queue|;
    var a, rest := queue[n - 1], queue[..n - 1];
    assert MeshCalls(queue) == PairWith(a, rest) + MeshCalls(rest);
    PairWithCount(a, rest, queue[i], queue[j]);
    PairWithCount(a, rest, queue[j], queue[i]);
    assert a !in rest by {
      forall k | 0 <= k < |rest|
        ensures rest[k] != a
      {
        assert rest[k] == queue[k];
      }
    }
    if i == n - 1 {
      assert multiset(rest)[queue[j]] == 1 by {
        DistinctCount(rest, j);
      }
      MeshCallMembers(rest, queue[i], queue[j]);
      MeshCallMembers(rest, queue[j], queue[i]);
      assert (queue[i], queue[j]) !in MeshCalls(rest);
      assert (queue[j], queue[i]) !in MeshCalls(rest);
    } else {
      assert queue[i] != a && queue[j] != a;
      MeshCallsOnce(rest, i, j);
      assert rest[i] == queue[i] && rest[j] == queue[j];
    }
  }

  /** In a sequence of distinct nodes each one occurs once. */
  lemma {:induction false} DistinctCount(queue: seq<Node>, j: nat)
    requires Distinct(queue) && j < |queue|
    ensures multiset(queue)[queue[j]] == 1
    decreases |queue|
  {
    var m := |queue| - 1;
    assert queue == queue[..m] + [queue[m]];
    if j == m {
      assert queue[m] !in queue[..m];
    } else {
      DistinctCount(queue[..m], j);
      assert queue[..m][j] == queue[j];
    }
  }

  /** Over distinct nodes a node is never connected to itself. */
  lemma MeshNoSelfCalls(queue: seq<Node>, x: Node)
    requires Distinct(queue)
    ensures (x, x) !in MeshCalls(queue)
  {
    MeshCallMembers(queue, x, x);
  }

  /** `StarTopologyGenerator.gen` after its inputs are read: a fresh switch
      `<name>-center` is connected to each child present before it, in
      order, and then added as the last child. */
  method Star(name: string, topology: Topology) returns (center: Leaf, calls: seq<(Leaf, Node)>)
    requires topology.Valid()
    modifies topology
    ensures fresh(center) && center.id == name + "-center" && center.kind == Switch && center.edges == []
    ensures |calls| == |old(topology.nodes)|
    ensures forall k | 0 <= k < |calls| :: calls[k] == (center, old(topology.nodes)[k])
    ensures forall k | 0 <= k < |calls| :: calls[k].1 != LeafNode(center)
    ensures topology.nodes == old(topology.nodes) + [LeafNode(center)]
    ensures topology.Valid() && topology.Flatten() == old(topology.Flatten()) + [center]
  {
    center := new Leaf(name + "-center", Switch);
    var nodes := topology.nodes;
    calls := [];
    for k := 0 to |nodes|
      invariant |calls| == k
      invariant forall m | 0 <= m < k :: calls[m] == (center, nodes[m])
    {
      calls := calls + [(center, nodes[k])];
    }
    topology.AddNode(LeafNode(center));
  }
}
