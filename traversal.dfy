/** Route sampling over a topology (nsim/traffic/models): a breadth-first
    search per leaf fixes which leaves each leaf can reach, and random routes
    are drawn from those sets. Randomness is an oracle: `draw(j)` is the index
    returned by the `j`-th `choice` over the leaves, and the choice of the
    destination is left open. */
module Routing {
  import opened Wrappers
  import opened Graph

  /** An immutable (source, destination) pair of leaf references. */
  datatype Route = Route(source: Leaf, destination: Leaf)

  /** The leaves one outgoing edge away from `x`. */
  ghost function Successors(x: Leaf): set<Leaf>
    reads x
  {
    set i | 0 <= i < |x.edges| :: x.edges[i].destination
  }

  /** A set of leaves that no edge leaves. Every finite heap has one around
      any leaf (all leaves allocated so far); the search needs it only to
      bound its own work. */
  ghost predicate Closed(universe: set<Leaf>)
    reads universe
  {
    forall x | x in universe :: Successors(x) <= universe
  }

  /** A walk along outgoing edges inside `universe`. */
  ghost predicate IsPath(universe: set<Leaf>, older p: seq<Leaf>)
    reads universe
  {
    && |p| >= 1
    && (forall i | 0 <= i < |p| :: p[i] in universe)
    && (forall i | 0 <= i < |p| - 1 :: p[i + 1] in Successors(p[i]))
  }

  /** `b` can be reached from `a` by following zero or more edges. */
  ghost predicate Reaches(universe: set<Leaf>, a: Leaf, b: Leaf)
    reads universe
  {
    exists p: seq<Leaf> :: IsPath(universe, p) && p[0] == a && p[|p| - 1] == b
  }

  /** Every leaf other than `leaf` that a walk from `leaf` can end at. */
  ghost function ReachableFrom(universe: set<Leaf>, leaf: Leaf): set<Leaf>
    reads universe
  {
    set y | y in universe && y != leaf && Reaches(universe, leaf, y)
  }

  /** `leaf` has an edge to a leaf other than itself. */
  ghost predicate HasExit(leaf: Leaf)
    reads leaf
  {
    exists i | 0 <= i < |leaf.edges| :: leaf.edges[i].destination != leaf
  }

  ghost function Elems(q: seq<Leaf>): set<Leaf> {
    set x | x in q
  }

  lemma ReachesSelf(universe: set<Leaf>, a: Leaf)
    requires a in universe
    ensures Reaches(universe, a, a)
  {
    assert IsPath(universe, [a]);
  }

  /** A walk extends by one edge. */
  lemma ReachesStep(universe: set<Leaf>, a: Leaf, x: Leaf, y: Leaf)
    requires Reaches(universe, a, x) && y in Successors(x) && y in universe
    ensures Reaches(universe, a, y)
  {
    var p :| IsPath(universe, p) && p[0] == a && p[|p| - 1] == x;
    var q := p + [y];
    assert q[|q| - 1] == y;
    assert IsPath(universe, q);
  }

  /** A walk that starts in a set closed under successors stays in it. */
  lemma {:induction false} PathStaysIn(universe: set<Leaf>, s: set<Leaf>, p: seq<Leaf>, k: nat)
    requires IsPath(universe, p) && p[0] in s && k < |p|
    requires forall x | x in s :: Successors(x) <= s
    ensures p[k] in s
  {
    if k > 0 {
      PathStaysIn(universe, s, p, k - 1);
      assert p[k] in Successors(p[k - 1]);
    }
  }

  /** The breadth-first search of `Traversal.__init__` for one leaf: a FIFO
      queue, a visited set seeded with the leaf, one enqueue per newly seen
      destination, and the leaf removed at the end. */
  method Reach(leaf: Leaf, ghost universe: set<Leaf>) returns (reachable: set<Leaf>)
    requires leaf in universe && Closed(universe)
    ensures reachable == ReachableFrom(universe, leaf)
    ensures leaf !in reachable
  {
    var queue := [leaf];
    var visited := {leaf};
    ghost var done: set<Leaf> := {};
    ReachesSelf(universe, leaf);
    while queue != []
      invariant visited <= universe && leaf in visited
      invariant visited == done + Elems(queue)
      invariant done !! Elems(queue)
      invariant forall a, b | 0 <= a < b < |queue| :: queue[a] != queue[b]
      invariant forall x | x in done :: Successors(x) <= visited
      invariant forall x | x in visited :: Reaches(universe, leaf, x)
      decreases universe - done
    {
      var x := queue[0];
      ghost var before := queue;
      queue := queue[1..];
      assert forall b | 0 <= b < |queue| :: queue[b] == before[b + 1];
      assert Elems(before) == {x} + Elems(queue);
      var edges := x.edges;
      for j := 0 to |edges|
        invariant visited <= universe && leaf in visited
        invariant visited == done + {x} + Elems(queue)
        invariant x !in done && x !in Elems(queue) && done !! Elems(queue)
        invariant forall a, b | 0 <= a < b < |queue| :: queue[a] != queue[b]
        invariant forall z | z in done :: Successors(z) <= visited
        invariant forall z | z in visited :: Reaches(universe, leaf, z)
        invariant forall k | 0 <= k < j :: edges[k].destination in visited
      {
        var d := edges[j].destination;
        if d !in visited {
          assert d in Successors(x);
          ReachesStep(universe, leaf, x, d);
          visited := visited + {d};
          queue := queue + [d];
        }
      }
      assert Successors(x) <= visited;
      done := done + {x};
    }
    forall y | y in universe && y != leaf && Reaches(universe, leaf, y)
      ensures y in visited
    {
      var p :| IsPath(universe, p) && p[0] == leaf && p[|p| - 1] == y;
      PathStaysIn(universe, visited, p, |p| - 1);
    }
    reachable := visited - {leaf};
  }

  /** A walk from `leaf` to a different leaf leaves `leaf` along one of its
      own edges at some point. */
  lemma {:induction false} WalkHasExit(universe: set<Leaf>, leaf: Leaf, p: seq<Leaf>, k: nat)
    requires IsPath(universe, p) && p[0] == leaf && k < |p| && p[k] != leaf
    ensures HasExit(leaf)
  {
    if p[k - 1] == leaf {
      assert p[k] in Successors(leaf);
    } else {
      WalkHasExit(universe, leaf, p, k - 1);
    }
  }

  /** A leaf reaches some other leaf exactly when one of its own edges leads
      to a different leaf. */
  lemma ReachableNonEmpty(universe: set<Leaf>, leaf: Leaf)
    requires Closed(universe) && leaf in universe
    ensures ReachableFrom(universe, leaf) != {} <==> HasExit(leaf)
  {
    if HasExit(leaf) {
      var i :| 0 <= i < |leaf.edges| && leaf.edges[i].destination != leaf;
      var d := leaf.edges[i].destination;
      assert d in Successors(leaf);
      assert IsPath(universe, [leaf, d]);
      assert d in ReachableFrom(universe, leaf);
    }
    if ReachableFrom(universe, leaf) != {} {
      var y :| y in ReachableFrom(universe, leaf);
      var p :| IsPath(universe, p) && p[0] == leaf && p[|p| - 1] == y;
      WalkHasExit(universe, leaf, p, |p| - 1);
    }
  }

  /** The constructor's first loop: one breadth-first search per leaf,
      each result stored under its leaf. */
  method SearchEach(ls: seq<Leaf>, ghost universe: set<Leaf>) returns (m: map<Leaf, set<Leaf>>)
    requires Closed(universe) && forall l | l in ls :: l in universe
    ensures m.Keys == Elems(ls)
    ensures forall l | l in m :: m[l] == ReachableFrom(universe, l)
  {
    m := map[];
    for i := 0 to |ls|
      invariant m.Keys == Elems(ls[..i])
      invariant forall l | l in m :: m[l] == ReachableFrom(universe, l)
    {
      var r := Reach(ls[i], universe);
      PrefixSnoc(ls, i + 1);
      m := m[ls[i] := r];
    }
    assert ls[..|ls|] == ls;
  }

  /** `any(is_valid_source(leaf) for leaf in leaves)`. */
  method AnyValidSource(ls: seq<Leaf>, m: map<Leaf, set<Leaf>>) returns (any: bool)
    requires forall l | l in ls :: l in m
    ensures any <==> exists l | l in ls :: m[l] != {}
  {
    any := false;
    for i := 0 to |ls|
      invariant any <==> exists k | 0 <= k < i :: m[ls[k]] != {}
    {
      if m[ls[i]] != {} {
        any := true;
      }
    }
  }

  /** The precomputed reachability of one node's leaves. All fields are fixed
      once the constructor returns. */
  class Traversal {
    const leaves: seq<Leaf>
    const reachable: map<Leaf, set<Leaf>>
    const hasRoute: bool
    /** The leaves the searches ran over. */
    ghost const universe: set<Leaf>

    /** Each flattened leaf has an entry that does not contain it, and
        `hasRoute` says whether one of the entries is non-empty. */
    ghost predicate Valid() {
      && reachable.Keys == Elems(leaves)
      && (forall l | l in leaves :: l !in reachable[l])
      && (hasRoute <==> exists l | l in leaves :: reachable[l] != {})
    }

    /** Each entry is the set of leaves its key reaches along edges. This
        reads the leaves, so it describes the edges as they were when the
        searches ran for as long as no edge is added. */
    ghost predicate Searched()
      reads universe
    {
      && Closed(universe)
      && Elems(leaves) <= universe
      && reachable.Keys == Elems(leaves)
      && (forall l | l in leaves :: reachable[l] == ReachableFrom(universe, l))
    }

    /** One search per flattened leaf, then `any` over the results. */
    constructor (node: Node, ghost universe: set<Leaf>)
      requires node.Valid() && Closed(universe)
      requires forall l | l in node.Flatten() :: l in universe
      ensures leaves == node.Flatten() && this.universe == universe
      ensures Valid() && Searched()
    {
      var ls := node.Flatten();
      var m := SearchEach(ls, universe);
      var any := AnyValidSource(ls, m);
      leaves := ls;
      reachable := m;
      hasRoute := any;
      this.universe := universe;
    }

    /** A source is valid when it reaches at least one other leaf. */
    predicate IsValidSource(leaf: Leaf) {
      leaf in reachable && reachable[leaf] != {}
    }

    /** The oracle's draws all index `leaves`, and one of them hits a valid
        source: the rejection loop ends. */
    ghost predicate Fair(draw: nat -> nat) {
      && (forall j :: draw(j) < |leaves|)
      && (exists j :: draw(j) < |leaves| && IsValidSource(leaves[draw(j)]))
    }

    /** Draw `j` is the first one that hits a valid source. */
    ghost predicate FirstValidDraw(draw: nat -> nat, j: nat) {
      && draw(j) < |leaves| && IsValidSource(leaves[draw(j)])
      && (forall i | 0 <= i < j :: draw(i) < |leaves| && !IsValidSource(leaves[draw(i)]))
    }

    /** The route the sampler may return: the source is the first valid draw
        and the destination one of the leaves it reaches. */
    ghost predicate Sampled(draw: nat -> nat, route: Route) {
      && (exists j :: FirstValidDraw(draw, j) && route.source == leaves[draw(j)])
      && route.source in reachable
      && route.destination in reachable[route.source]
    }

    /** `has_route` is true exactly when some flattened leaf has an edge to a
        different leaf. */
    lemma HasRouteIffSomeExit()
      requires Valid() && Searched()
      ensures hasRoute <==> exists l | l in leaves :: HasExit(l)
    {
      forall l | l in leaves
        ensures reachable[l] != {} <==> HasExit(l)
      {
        ReachableNonEmpty(universe, l);
      }
    }

    /** Rejection-samples a source among the flattened leaves, then picks any
        leaf it reaches. Without a route the source stops with a fatal
        error. */
    method GetRandomRoute(draw: nat -> nat) returns (r: Result<Route>)
      requires hasRoute ==> Fair(draw)
      ensures r.Err? <==> !hasRoute
      ensures r.Err? ==> r.error == ExhaustedRouteError
      ensures r.Ok? ==> Sampled(draw, r.value)
    {
      if !hasRoute {
        return Err(ExhaustedRouteError);
      }
      ghost var w: nat :| draw(w) < |leaves| && IsValidSource(leaves[draw(w)]);
      var j := 0;
      var source := leaves[draw(0)];
      while !IsValidSource(source)
        invariant j <= w && source == leaves[draw(j)]
        invariant forall i | 0 <= i < j :: !IsValidSource(leaves[draw(i)])
        decreases w - j
      {
        j := j + 1;
        source := leaves[draw(j)];
      }
      assert FirstValidDraw(draw, j);
      var destination :| destination in reachable[source];
      return Ok(Route(source, destination));
    }

    /** A sampled route joins a flattened leaf to a different leaf that it
        reaches along edges; the destination need not be a flattened leaf. */
    lemma SampledRouteReaches(draw: nat -> nat, route: Route)
      requires Searched() && Sampled(draw, route)
      ensures route.source in leaves
      ensures route.destination != route.source
      ensures Reaches(universe, route.source, route.destination)
    {
    }
  }
}
