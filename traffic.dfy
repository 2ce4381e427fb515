/** Arrivals and traffic (nsim/traffic/models): an arrival is a message of a
    given size entering the network at a time, from one leaf id to another;
    a traffic is a named, ordered list of arrivals. */
module Traffics {
  import opened Wrappers
  import opened Decimal
  import opened Graph
  import opened Routing

  /** The smallest and largest size the source draws when none is given
      (typical TCP/IP packet sizes, in bytes). */
  const MinRandomSize := 512
  const MaxRandomSize := 1500

  /** Every value a size oracle gives is one `randint(512, 1500)` can
      return; draw `k` is the size used by the `k`-th decoded arrival if
      its document size is 0. */
  ghost predicate SizesInRange(randomSizes: nat -> int) {
    forall k: nat :: MinRandomSize <= randomSizes(k) <= MaxRandomSize
  }

  /** An arrival holds leaf ids, not leaf references. */
  datatype Arrival = Arrival(time: real, source: string, destination: string, size: int)
  {
    /** The id: time, source, destination and size joined by underscores;
        `floatText` is Python's `str` on floats. */
    function Id(floatText: real -> string): string {
      floatText(time) + "_" + source + "_" + destination + "_" + IntToString(size)
    }
  }

  /** `Arrival(time, source, destination, size_optional)`: a supplied size is
      kept unless it is falsy (absent or 0); then `randomSize`, the value of
      `randint(512, 1500)`, is used. */
  function NewArrival(time: real, source: string, destination: string,
                      sizeOptional: Option<int>, randomSize: int): (a: Arrival)
    requires MinRandomSize <= randomSize <= MaxRandomSize
    ensures a.time == time && a.source == source && a.destination == destination
    ensures sizeOptional.Some? && sizeOptional.value != 0 ==> a.size == sizeOptional.value
    ensures sizeOptional.None? || sizeOptional.value == 0 ==> MinRandomSize <= a.size <= MaxRandomSize
    ensures a.size != 0
  {
    var size := if sizeOptional.Some? && sizeOptional.value != 0 then sizeOptional.value else randomSize;
    Arrival(time, source, destination, size)
  }

  /** Given the lengths of the leading parts, the size reads back from the
      end of the id. */
  lemma ArrivalIdSize(a: Arrival, floatText: real -> string)
    ensures var n := |floatText(a.time)| + |a.source| + |a.destination| + 3;
            n <= |a.Id(floatText)| && ParseInt(a.Id(floatText)[n..]) == Some(a.size)
  {
    var n := |floatText(a.time)| + |a.source| + |a.destination| + 3;
    assert a.Id(floatText)[n..] == IntToString(a.size);
    IntToStringRoundTrip(a.size);
  }

  /** A named list of arrivals in insertion order. */
  class Traffic {
    const id: string
    var arrivals: seq<Arrival>

    constructor (id: string)
      ensures this.id == id && arrivals == []
    {
      this.id := id;
      arrivals := [];
    }

    /** Appends one arrival at the end. */
    method AddArrival(a: Arrival)
      modifies this
      ensures arrivals == old(arrivals) + [a]
    {
      arrivals := arrivals + [a];
    }

    /** Samples one route and appends an arrival at `time` between the ids
        of its endpoints, with a random size. Without any route the source
        stops with a fatal error and nothing is appended. */
    method AddRandomArrival(traversal: Traversal, time: real, draw: nat -> nat, randomSize: int)
      returns (r: Result<Route>)
      requires traversal.hasRoute ==> traversal.Fair(draw)
      requires MinRandomSize <= randomSize <= MaxRandomSize
      modifies this
      ensures r.Err? <==> !traversal.hasRoute
      ensures r.Err? ==> r.error == ExhaustedRouteError && arrivals == old(arrivals)
      ensures r.Ok? ==> traversal.Sampled(draw, r.value)
      ensures r.Ok? ==>
                arrivals == old(arrivals) + [NewArrival(time, r.value.source.id, r.value.destination.id, None, randomSize)]
    {
      r := traversal.GetRandomRoute(draw);
      if r.Ok? {
        AddArrival(NewArrival(time, r.value.source.id, r.value.destination.id, None, randomSize));
      }
    }
  }

  /** The arrival joins the ids of a flattened leaf and of a different leaf
      it reaches, as a sampled route would. */
  ghost predicate Routed(traversal: Traversal, a: Arrival) {
    exists s | s in traversal.leaves && s in traversal.reachable ::
      && a.source == s.id
      && exists d | d in traversal.reachable[s] :: a.destination == d.id
  }

  /** An arrival built from a sampled route is routed: its destination id
      belongs to a leaf in the reachable set of its source. */
  lemma SampledArrivalRouted(traversal: Traversal, draw: nat -> nat, route: Route, a: Arrival)
    requires traversal.Sampled(draw, route)
    requires a.source == route.source.id && a.destination == route.destination.id
    ensures Routed(traversal, a)
  {
    var j: nat :| traversal.FirstValidDraw(draw, j) && route.source == traversal.leaves[draw(j)];
  }
}
