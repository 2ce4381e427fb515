/** The traffic generators of nsim/traffic/generators: simulation-clock loops
    that append arrivals to a fresh traffic named after the node. The random
    inputs are oracles indexed by call number: `draws(k, j)` is the `j`-th
    source index drawn for the `k`-th route, `sizes(k)` the random size of
    the `k`-th arrival, and the exponential gaps and train lengths are
    sequences of draws. Time is a real number. */
module TrafficGenerators {
  import opened Wrappers
  import opened Graph
  import opened Routing
  import opened Traffics
  import opened TrainSchedules

  /** The route oracle is fair whenever some flattened leaf has an edge to a
      different leaf: for every route, each draw indexes `leaves` and some
      draw hits such a leaf. */
  ghost predicate FairDraws(universe: set<Leaf>, leaves: seq<Leaf>, draws: (nat, nat) -> nat)
    reads universe
  {
    (exists l | l in leaves && l in universe :: HasExit(l)) ==>
      forall k: nat :: FairRoute(universe, leaves, draws, k)
  }

  /** The draws for the `k`-th route all index `leaves`, and one hits a leaf
      with an edge to a different leaf. */
  ghost predicate FairRoute(universe: set<Leaf>, leaves: seq<Leaf>, draws: (nat, nat) -> nat, k: nat)
    reads universe
  {
    && (forall j: nat :: draws(k, j) < |leaves|)
    && (exists j: nat :: draws(k, j) < |leaves| && leaves[draws(k, j)] in universe && HasExit(leaves[draws(k, j)]))
  }

  /** What every generator asks of its inputs besides its own parameters:
      a well-formed node, a closed set of leaves around it, a fair route
      oracle and random sizes in range. */
  ghost predicate Setting(node: Node, universe: set<Leaf>, draws: (nat, nat) -> nat, sizes: nat -> int)
    reads if node.TopologyNode? then {node.topology} + node.topology.repr else {}, universe
  {
    && node.Valid()
    && Closed(universe)
    && (forall l | l in node.Flatten() :: l in universe)
    && FairDraws(universe, node.Flatten(), draws)
    && (forall k: nat :: MinRandomSize <= sizes(k) <= MaxRandomSize)
  }

  /** Some flattened leaf has an edge to a different leaf. */
  ghost predicate HasRoute(node: Node, universe: set<Leaf>)
    reads if node.TopologyNode? then {node.topology} + node.topology.repr else {}, universe
    requires node.Valid()
  {
    exists l | l in node.Flatten() && l in universe :: HasExit(l)
  }

  /** The arrival goes from the id of a flattened leaf to the id of a
      different leaf that it reaches along edges. */
  ghost predicate Reached(universe: set<Leaf>, leaves: seq<Leaf>, a: Arrival)
    reads universe
  {
    exists s | s in leaves && s in universe ::
      && a.source == s.id
      && exists d | d in ReachableFrom(universe, s) :: a.destination == d.id
  }

  /** Arrival `i` has the `i`-th random size and joins a flattened leaf to a
      leaf it reaches. */
  ghost predicate Generated(universe: set<Leaf>, leaves: seq<Leaf>, arrivals: seq<Arrival>, sizes: nat -> int)
    reads universe
  {
    forall i | 0 <= i < |arrivals| :: arrivals[i].size == sizes(i) && Reached(universe, leaves, arrivals[i])
  }

  /** The draws for the `k`-th route end the traversal's rejection loop. */
  ghost predicate FairRouteDraws(traversal: Traversal, draws: (nat, nat) -> nat, k: nat) {
    traversal.Fair((j: nat) => draws(k, j))
  }

  /** A fair oracle makes every route sample of a traversal terminate. */
  lemma FairDrawsFair(traversal: Traversal, draws: (nat, nat) -> nat)
    requires traversal.Valid() && traversal.Searched()
    requires FairDraws(traversal.universe, traversal.leaves, draws)
    ensures traversal.hasRoute ==> forall k: nat :: FairRouteDraws(traversal, draws, k)
  {
    traversal.HasRouteIffSomeExit();
    if traversal.hasRoute {
      forall k: nat
        ensures FairRouteDraws(traversal, draws, k)
      {
        assert FairRoute(traversal.universe, traversal.leaves, draws, k);
        var j: nat :| draws(k, j) < |traversal.leaves| && traversal.leaves[draws(k, j)] in traversal.universe
                      && HasExit(traversal.leaves[draws(k, j)]);
        ReachableNonEmpty(traversal.universe, traversal.leaves[draws(k, j)]);
        var draw := (j: nat) => draws(k, j);
        assert draw(j) < |traversal.leaves| && traversal.IsValidSource(traversal.leaves[draw(j)]);
      }
    }
  }

  /** Arrival `i` has the `i`-th random size and a route the traversal
      found. */
  ghost predicate Drawn(traversal: Traversal, arrivals: seq<Arrival>, sizes: nat -> int) {
    forall i | 0 <= i < |arrivals| :: arrivals[i].size == sizes(i) && Routed(traversal, arrivals[i])
  }

  /** What the traversal found is what the edges give: sampled arrivals
      are generated over the leaves the searches ran on. */
  lemma SampledGenerated(traversal: Traversal, arrivals: seq<Arrival>, sizes: nat -> int)
    requires traversal.Searched() && Drawn(traversal, arrivals, sizes)
    ensures Generated(traversal.universe, traversal.leaves, arrivals, sizes)
  {
    forall i | 0 <= i < |arrivals|
      ensures Reached(traversal.universe, traversal.leaves, arrivals[i])
    {
      assert Routed(traversal, arrivals[i]);
    }
  }

  /** `Traversal(node)` at the start of every generator, with what the
      generator loops need of it. */
  method Prepare(node: Node, ghost universe: set<Leaf>, draws: (nat, nat) -> nat, sizes: nat -> int)
    returns (traversal: Traversal)
    requires Setting(node, universe, draws, sizes)
    ensures fresh(traversal) && traversal.universe == universe && traversal.leaves == old(node.Flatten())
    ensures traversal.Valid() && traversal.Searched()
    ensures traversal.hasRoute <==> old(HasRoute(node, universe))
    ensures traversal.hasRoute ==> forall k: nat :: FairRouteDraws(traversal, draws, k)
  {
    traversal := new Traversal(node, universe);
    traversal.HasRouteIffSomeExit();
    FairDrawsFair(traversal, draws);
  }

  /** `traffic.add_random_arrival(traversal, time)` as the `k`-th arrival:
      the `k`-th route draws and the `k`-th random size. */
  method AddSampled(traffic: Traffic, traversal: Traversal, time: real,
                    draws: (nat, nat) -> nat, sizes: nat -> int, k: nat)
    returns (ok: bool, ghost a: Arrival)
    requires traversal.hasRoute ==> FairRouteDraws(traversal, draws, k)
    requires MinRandomSize <= sizes(k) <= MaxRandomSize
    requires |traffic.arrivals| == k && Drawn(traversal, traffic.arrivals, sizes)
    modifies traffic
    ensures ok <==> traversal.hasRoute
    ensures !ok ==> traffic.arrivals == old(traffic.arrivals)
    ensures ok ==> traffic.arrivals == old(traffic.arrivals) + [a] && a.time == time
    ensures Drawn(traversal, traffic.arrivals, sizes)
  {
    var route := traffic.AddRandomArrival(traversal, time, (j: nat) => draws(k, j), sizes(k));
    ok := route.Ok?;
    a := if ok then traffic.arrivals[k] else Arrival(time, "", "", sizes(k));
    if ok {
      SampledArrivalRouted(traversal, (j: nat) => draws(k, j), route.value, a);
    }
  }

  // ----- the renewal loop of the constant and Poisson generators -----

  /** The sum of the first `k` gaps. */
  ghost function PrefixSum(gaps: nat -> real, k: nat): real {
    if k == 0 then 0.0 else PrefixSum(gaps, k - 1) + gaps(k - 1)
  }

  lemma {:induction false} PrefixSumMonotone(gaps: nat -> real, i: nat, j: nat)
    requires forall k: nat :: gaps(k) >= 0.0
    requires i <= j
    ensures PrefixSum(gaps, i) <= PrefixSum(gaps, j)
    decreases j - i
  {
    if i < j {
      PrefixSumMonotone(gaps, i, j - 1);
      assert gaps(j - 1) >= 0.0;
    }
  }

  /** Arrival `i` is at the sum of the first `i + 1` gaps, before
      `duration`. */
  ghost predicate RenewalPrefix(arrivals: seq<Arrival>, gaps: nat -> real, duration: real) {
    forall i | 0 <= i < |arrivals| :: arrivals[i].time == PrefixSum(gaps, i + 1) && arrivals[i].time < duration
  }

  /** The arrivals of the renewal loop: the `i`-th at the sum of the first
      `i + 1` gaps, all before `duration`, and the next sum at or past it. */
  ghost predicate RenewalSchedule(arrivals: seq<Arrival>, gaps: nat -> real, duration: real) {
    RenewalPrefix(arrivals, gaps, duration) && PrefixSum(gaps, |arrivals| + 1) >= duration
  }

  lemma RenewalPrefixAppend(arrivals: seq<Arrival>, a: Arrival, gaps: nat -> real, duration: real)
    requires RenewalPrefix(arrivals, gaps, duration)
    requires a.time == PrefixSum(gaps, |arrivals| + 1) && a.time < duration
    ensures RenewalPrefix(arrivals + [a], gaps, duration)
  {
  }

  /** The loop shared by `ConstantTrafficGenerator.run` and
      `PoissonTrafficGenerator.run` once the traversal exists: a fresh
      traffic; the clock starts at the first gap and each step adds the next
      gap; every step before `duration` adds one randomly routed arrival. It
      fails where `add_random_arrival` stops the program. The gaps must
      eventually add up to `duration`, or the loop would not end. */
  method RenewalRun(id: string, traversal: Traversal, duration: real, gaps: nat -> real,
                    draws: (nat, nat) -> nat, sizes: nat -> int)
    returns (r: Result<Traffic>)
    requires forall k: nat :: gaps(k) >= 0.0
    requires exists n: nat :: PrefixSum(gaps, n) >= duration
    requires traversal.hasRoute ==> forall k: nat :: FairRouteDraws(traversal, draws, k)
    requires forall k: nat :: MinRandomSize <= sizes(k) <= MaxRandomSize
    ensures r.Err? <==> gaps(0) < duration && !traversal.hasRoute
    ensures r.Err? ==> r.error == ExhaustedRouteError
    ensures r.Ok? ==> fresh(r.value) && r.value.id == id
    ensures r.Ok? ==> RenewalSchedule(r.value.arrivals, gaps, duration)
    ensures r.Ok? ==> Drawn(traversal, r.value.arrivals, sizes)
  {
    var traffic := new Traffic(id);
    ghost var n: nat :| PrefixSum(gaps, n) >= duration;
    var time := gaps(0);
    var k: nat := 0;
    assert PrefixSum(gaps, 1) == gaps(0);
    while time < duration
      invariant fresh(traffic)
      invariant time == PrefixSum(gaps, k + 1)
      invariant |traffic.arrivals| == k
      invariant RenewalPrefix(traffic.arrivals, gaps, duration)
      invariant Drawn(traversal, traffic.arrivals, sizes)
      invariant k > 0 ==> traversal.hasRoute
      decreases n - k
    {
      if n <= k + 1 {
        PrefixSumMonotone(gaps, n, k + 1);
        assert false;
      }
      ghost var before := traffic.arrivals;
      var ok, a := AddSampled(traffic, traversal, time, draws, sizes, k);
      if !ok {
        return Err(ExhaustedRouteError);
      }
      RenewalPrefixAppend(before, a, gaps, duration);
      k := k + 1;
      time := time + gaps(k);
    }
    return Ok(traffic);
  }

  /** The renewal loop emits one arrival per prefix sum of the gaps (from
      the first gap on) that lies below `duration`, and no other. */
  lemma RenewalCount(arrivals: seq<Arrival>, gaps: nat -> real, duration: real, k: nat)
    requires forall m: nat :: gaps(m) >= 0.0
    requires RenewalSchedule(arrivals, gaps, duration) && k >= 1
    ensures PrefixSum(gaps, k) < duration <==> k <= |arrivals|
  {
    if k <= |arrivals| {
      assert arrivals[k - 1].time == PrefixSum(gaps, k);
    } else {
      PrefixSumMonotone(gaps, |arrivals| + 1, k);
    }
  }

  /** With non-negative gaps the renewal arrival times never decrease. */
  lemma RenewalNonDecreasing(arrivals: seq<Arrival>, gaps: nat -> real, duration: real, i: nat, j: nat)
    requires forall m: nat :: gaps(m) >= 0.0
    requires RenewalSchedule(arrivals, gaps, duration) && i <= j < |arrivals|
    ensures arrivals[i].time <= arrivals[j].time
  {
    PrefixSumMonotone(gaps, i + 1, j + 1);
  }

  // ----- constant -----

  /** The gaps of the constant generator: every step is `rate`. */
  ghost function Steady(rate: real): nat -> real {
    (_: nat) => rate
  }

  /** The constant clock after `k` steps is `k * rate`. */
  lemma {:induction false} SteadySum(rate: real, k: nat)
    ensures PrefixSum(Steady(rate), k) == k as real * rate
  {
    if k > 0 {
      SteadySum(rate, k - 1);
      assert Steady(rate)(k - 1) == rate;
      assert k as real * rate == (k - 1) as real * rate + rate;
    }
  }

  /** Some multiple of a positive step reaches any bound; a zero step
      reaches only bounds that are not positive. */
  lemma Archimedean(rate: real, duration: real) returns (n: nat)
    requires rate > 0.0 || (rate == 0.0 && duration <= 0.0)
    ensures PrefixSum(Steady(rate), n) >= duration
  {
    if duration <= 0.0 {
      n := 0;
    } else {
      var q := duration / rate;
      n := q.Floor + 1;
      assert n as real > q;
      assert (n as real - q) * rate > 0.0;
      assert q * rate == duration;
      SteadySum(rate, n);
    }
  }

  /** `ConstantTrafficGenerator.run`: the renewal loop with every gap equal
      to `rate`. A zero rate never ends the loop unless `duration` is not
      positive. */
  method Constant(node: Node, duration: real, rate: real, ghost universe: set<Leaf>,
                  draws: (nat, nat) -> nat, sizes: nat -> int)
    returns (r: Result<Traffic>)
    requires Setting(node, universe, draws, sizes)
    requires rate > 0.0 || (rate == 0.0 && duration <= 0.0)
    ensures r.Err? <==> rate < duration && !old(HasRoute(node, universe))
    ensures r.Err? ==> r.error == ExhaustedRouteError
    ensures r.Ok? ==> fresh(r.value) && r.value.id == node.Id() + "-traffic"
    ensures r.Ok? ==> RenewalSchedule(r.value.arrivals, Steady(rate), duration)
    ensures r.Ok? ==> Generated(universe, old(node.Flatten()), r.value.arrivals, sizes)
  {
    var traversal := Prepare(node, universe, draws, sizes);
    ghost var n := Archimedean(rate, duration);
    r := RenewalRun(node.Id() + "-traffic", traversal, duration, (_: nat) => rate, draws, sizes);
    if r.Ok? {
      SampledGenerated(traversal, r.value.arrivals, sizes);
    }
  }

  /** The constant generator emits one arrival for each `k >= 1` with
      `k * rate < duration`, and no other. */
  lemma ConstantCount(arrivals: seq<Arrival>, rate: real, duration: real, k: nat)
    requires rate >= 0.0 && RenewalSchedule(arrivals, Steady(rate), duration) && k >= 1
    ensures k as real * rate < duration <==> k <= |arrivals|
  {
    SteadySum(rate, k);
    RenewalCount(arrivals, Steady(rate), duration, k);
  }

  /** With a positive rate the arrival times strictly increase by `rate`. */
  lemma ConstantIncreasing(arrivals: seq<Arrival>, rate: real, duration: real, i: nat, j: nat)
    requires RenewalSchedule(arrivals, Steady(rate), duration)
    requires i < j < |arrivals|
    ensures arrivals[j].time - arrivals[i].time == (j - i) as real * rate
  {
    SteadySum(rate, i + 1);
    SteadySum(rate, j + 1);
  }

  // ----- poisson -----

  /** `PoissonTrafficGenerator.run`: the renewal loop with `gaps(k)` the
      `k`-th value of `expovariate(lambda)`. The gaps eventually add up to
      `duration` (they do with probability one). */
  method Poisson(node: Node, duration: real, lambda: real, ghost universe: set<Leaf>,
                 draws: (nat, nat) -> nat, sizes: nat -> int, gaps: nat -> real)
    returns (r: Result<Traffic>)
    requires Setting(node, universe, draws, sizes)
    requires lambda > 0.0
    requires forall k: nat :: gaps(k) >= 0.0
    requires exists n: nat :: PrefixSum(gaps, n) >= duration
    ensures r.Err? <==> gaps(0) < duration && !old(HasRoute(node, universe))
    ensures r.Err? ==> r.error == ExhaustedRouteError
    ensures r.Ok? ==> fresh(r.value) && r.value.id == node.Id() + "-traffic"
    ensures r.Ok? ==> RenewalSchedule(r.value.arrivals, gaps, duration)
    ensures r.Ok? ==> Generated(universe, old(node.Flatten()), r.value.arrivals, sizes)
  {
    var traversal := Prepare(node, universe, draws, sizes);
    r := RenewalRun(node.Id() + "-traffic", traversal, duration, gaps, draws, sizes);
    if r.Ok? {
      SampledGenerated(traversal, r.value.arrivals, sizes);
    }
  }

  // ----- train -----

  /** The route sampled for a train, as the traversal found it. */
  ghost predicate Found(traversal: Traversal, route: Route) {
    && route.source in traversal.leaves && route.source in traversal.reachable
    && route.destination in traversal.reachable[route.source]
  }

  lemma SampledFound(traversal: Traversal, draw: nat -> nat, route: Route)
    requires traversal.Sampled(draw, route)
    ensures Found(traversal, route)
  {
    var j: nat :| traversal.FirstValidDraw(draw, j) && route.source == traversal.leaves[draw(j)];
  }

  /** Arrival `i` has the `i`-th random size. */
  ghost predicate Sized(arrivals: seq<Arrival>, sizes: nat -> int) {
    forall i | 0 <= i < |arrivals| :: arrivals[i].size == sizes(i)
  }

  /** Every train route is one the traversal found. */
  ghost predicate AllFound(traversal: Traversal, routes: seq<Route>) {
    forall t | 0 <= t < |routes| :: Found(traversal, routes[t])
  }

  /** Train arrivals on found routes are drawn arrivals. */
  lemma TrainDrawn(traversal: Traversal, arrivals: seq<Arrival>, cars: seq<Car>, routes: seq<Route>,
                   duration: real, o: TrainDraws, sizes: nat -> int)
    requires TrainShape(arrivals, cars, routes, duration, o) && Sized(arrivals, sizes)
    requires AllFound(traversal, routes)
    ensures Drawn(traversal, arrivals, sizes)
  {
    forall i | 0 <= i < |arrivals|
      ensures Routed(traversal, arrivals[i])
    {
      assert Placed(arrivals, cars, routes, i, duration, o);
      assert Found(traversal, routes[cars[i].train]);
    }
  }

  /** `traffic.add_arrival(Arrival(time, source, destination))` for `car`,
      between the endpoints of its train's route, with the next random
      size. */
  method AddCar(traffic: Traffic, time: real, car: Car, route: Route, ghost routes: seq<Route>,
                duration: real, o: TrainDraws, sizes: nat -> int, ghost cars: seq<Car>)
    returns (ghost cars': seq<Car>)
    requires car.train < |routes| && routes[car.train] == route
    requires MinRandomSize <= sizes(|traffic.arrivals|) <= MaxRandomSize
    requires TrainShape(traffic.arrivals, cars, routes, duration, o) && Sized(traffic.arrivals, sizes)
    requires car.index < o.lengths(car.train) && time <= duration
    requires car.index == 0 ==> time < duration
    requires traffic.arrivals == [] ==> car == Car(0, 0, 0) && time == o.trainGaps(0)
    requires traffic.arrivals != [] ==>
               Follows(traffic.arrivals[|traffic.arrivals| - 1], cars[|cars| - 1],
                       Arrival(time, route.source.id, route.destination.id, sizes(|traffic.arrivals|)), car, o)
    modifies traffic
    ensures traffic.arrivals != [] && |cars'| == |traffic.arrivals| && cars'[|cars'| - 1] == car
    ensures traffic.arrivals[|traffic.arrivals| - 1].time == time
    ensures TrainShape(traffic.arrivals, cars', routes, duration, o) && Sized(traffic.arrivals, sizes)
  {
    var a := NewArrival(time, route.source.id, route.destination.id, None, sizes(|traffic.arrivals|));
    ShapeAppend(traffic.arrivals, cars, routes, a, car, duration, o);
    traffic.AddArrival(a);
    cars' := cars + [car];
  }

  /** The inner loop of `TrainTrafficGenerator.run` for train `t` on
      `route`, which is `routes[t]`, starting at `time` with `c` car gaps drawn. Car 0 draws
      no gap and, as the train starts before `duration`, is always added;
      the later cars are added by `MoreCars`. */
  method RunTrain(traffic: Traffic, time: real, t: nat, c: nat, route: Route, ghost routes: seq<Route>,
                  duration: real, o: TrainDraws, sizes: nat -> int, ghost cars: seq<Car>)
    returns (end: real, c': nat, ghost cars': seq<Car>)
    requires t < |routes| && routes[t] == route && time < duration && o.lengths(t) >= 1
    requires forall g: nat :: o.carGaps(g) >= 0.0
    requires forall k: nat :: MinRandomSize <= sizes(k) <= MaxRandomSize
    requires TrainShape(traffic.arrivals, cars, routes, duration, o) && Sized(traffic.arrivals, sizes)
    requires Resume(traffic.arrivals, cars, time, t, c, duration, o)
    modifies traffic
    ensures TrainShape(traffic.arrivals, cars', routes, duration, o) && Sized(traffic.arrivals, sizes)
    ensures traffic.arrivals != [] && cars'[|cars'| - 1].train == t && end >= time
    ensures cars'[|cars'| - 1].index + 1 == o.lengths(t) ==>
              c' == cars'[|cars'| - 1].drawn && end == traffic.arrivals[|traffic.arrivals| - 1].time
    ensures cars'[|cars'| - 1].index + 1 != o.lengths(t) ==>
              && traffic.arrivals[|traffic.arrivals| - 1].time + o.carGaps(cars'[|cars'| - 1].drawn) > duration
              && end > duration
  {
    cars' := AddCar(traffic, time, Car(t, 0, c), route, routes, duration, o, sizes, cars);
    end, c', cars' := MoreCars(traffic, time, Car(t, 0, c), route, routes, duration, o, sizes, cars');
  }

  /** Cars 1 and on of the train whose first car `first` is at `time`:
      each draws a car gap; a car past `duration` ends the train, every
      other one is added. */
  method MoreCars(traffic: Traffic, time: real, first: Car, route: Route, ghost routes: seq<Route>,
                  duration: real, o: TrainDraws, sizes: nat -> int, ghost cars: seq<Car>)
    returns (end: real, c': nat, ghost cars': seq<Car>)
    requires first.train < |routes| && routes[first.train] == route && first.index == 0 && o.lengths(first.train) >= 1
    requires forall g: nat :: o.carGaps(g) >= 0.0
    requires forall k: nat :: MinRandomSize <= sizes(k) <= MaxRandomSize
    requires TrainShape(traffic.arrivals, cars, routes, duration, o) && Sized(traffic.arrivals, sizes)
    requires traffic.arrivals != [] && cars[|cars| - 1] == first
    requires time == traffic.arrivals[|traffic.arrivals| - 1].time
    modifies traffic
    ensures TrainShape(traffic.arrivals, cars', routes, duration, o) && Sized(traffic.arrivals, sizes)
    ensures traffic.arrivals != [] && cars'[|cars'| - 1].train == first.train && end >= time
    ensures cars'[|cars'| - 1].index + 1 == o.lengths(first.train) ==>
              c' == cars'[|cars'| - 1].drawn && end == traffic.arrivals[|traffic.arrivals| - 1].time
    ensures cars'[|cars'| - 1].index + 1 != o.lengths(first.train) ==>
              && traffic.arrivals[|traffic.arrivals| - 1].time + o.carGaps(cars'[|cars'| - 1].drawn) > duration
              && end > duration
  {
    end, c', cars' := time, first.drawn, cars;
    for i := 1 to o.lengths(first.train)
      invariant TrainShape(traffic.arrivals, cars', routes, duration, o) && Sized(traffic.arrivals, sizes)
      invariant traffic.arrivals != [] && cars'[|cars'| - 1] == Car(first.train, i - 1, c')
      invariant end == traffic.arrivals[|traffic.arrivals| - 1].time && end >= time
    {
      end := end + o.carGaps(c');
      c' := c' + 1;
      if end > duration {
        return;
      }
      cars' := AddCar(traffic, end, Car(first.train, i, c'), route, routes, duration, o, sizes, cars');
    }
  }

  /** After train `t` ran from `time` to `end`, the next train starts one
      train gap later. */
  lemma NextTrain(arrivals: seq<Arrival>, cars: seq<Car>, time: real, end: real, t: nat, c: nat,
                  duration: real, o: TrainDraws)
    requires o.trainGaps(t + 1) >= 0.0
    requires time >= PrefixSum(o.trainGaps, t + 1)
    requires arrivals != [] && |cars| == |arrivals| && cars[|cars| - 1].train == t && end >= time
    requires cars[|cars| - 1].index + 1 == o.lengths(t) ==>
               c == cars[|cars| - 1].drawn && end == arrivals[|arrivals| - 1].time
    requires cars[|cars| - 1].index + 1 != o.lengths(t) ==>
               && arrivals[|arrivals| - 1].time + o.carGaps(cars[|cars| - 1].drawn) > duration
               && end > duration
    ensures Resume(arrivals, cars, end + o.trainGaps(t + 1), t + 1, c, duration, o)
    ensures end + o.trainGaps(t + 1) >= PrefixSum(o.trainGaps, t + 1 + 1)
  {
  }

  /** One round of the outer loop of `TrainTrafficGenerator.run`: sample
      the `t`-th route, run train `t` on it and add the next train gap. It
      fails where `get_random_route` stops the program. */
  method TrainStep(traffic: Traffic, traversal: Traversal, time: real, t: nat, c: nat, duration: real,
                   o: TrainDraws, draws: (nat, nat) -> nat, sizes: nat -> int,
                   ghost cars: seq<Car>, ghost routes: seq<Route>)
    returns (ok: bool, time': real, c': nat, ghost cars': seq<Car>, ghost routes': seq<Route>)
    requires o.lengths(t) >= 1 && o.trainGaps(t + 1) >= 0.0
    requires forall g: nat :: o.carGaps(g) >= 0.0
    requires forall k: nat :: MinRandomSize <= sizes(k) <= MaxRandomSize
    requires traversal.hasRoute ==> FairRouteDraws(traversal, draws, t)
    requires TrainShape(traffic.arrivals, cars, routes, duration, o) && Sized(traffic.arrivals, sizes)
    requires |routes| == t && AllFound(traversal, routes)
    requires Resume(traffic.arrivals, cars, time, t, c, duration, o)
    requires time < duration && time >= PrefixSum(o.trainGaps, t + 1)
    modifies traffic
    ensures ok <==> traversal.hasRoute
    ensures ok ==> TrainShape(traffic.arrivals, cars', routes', duration, o) && Sized(traffic.arrivals, sizes)
    ensures ok ==> |routes'| == t + 1 && AllFound(traversal, routes')
    ensures ok ==> Resume(traffic.arrivals, cars', time', t + 1, c', duration, o)
    ensures ok ==> time' >= PrefixSum(o.trainGaps, t + 1 + 1)
  {
    var route := traversal.GetRandomRoute((j: nat) => draws(t, j));
    if route.Err? {
      return false, time, c, cars, routes;
    }
    SampledFound(traversal, (j: nat) => draws(t, j), route.value);
    ShapeNewRoute(traffic.arrivals, cars, routes, route.value, duration, o);
    routes' := routes + [route.value];
    var end;
    end, c', cars' := RunTrain(traffic, time, t, c, route.value, routes', duration, o, sizes, cars);
    NextTrain(traffic.arrivals, cars', time, end, t, c', duration, o);
    ok, time' := true, end + o.trainGaps(t + 1);
  }

  /** The outer loop of `TrainTrafficGenerator.run` once the traversal
      exists: a fresh traffic; the clock starts at the first train gap;
      while it is before `duration`, the `t`-th train samples the `t`-th
      route and runs, then the next train gap is added. It fails where
      `get_random_route` stops the program. The train gaps must eventually
      add up to `duration`, or the loop would not end. */
  method TrainRun(id: string, traversal: Traversal, duration: real, o: TrainDraws,
                  draws: (nat, nat) -> nat, sizes: nat -> int)
    returns (r: Result<Traffic>, ghost cars: seq<Car>, ghost routes: seq<Route>)
    requires forall t: nat :: o.lengths(t) >= 1
    requires forall t: nat :: o.trainGaps(t) >= 0.0
    requires forall g: nat :: o.carGaps(g) >= 0.0
    requires exists n: nat :: PrefixSum(o.trainGaps, n) >= duration
    requires traversal.hasRoute ==> forall k: nat :: FairRouteDraws(traversal, draws, k)
    requires forall k: nat :: MinRandomSize <= sizes(k) <= MaxRandomSize
    ensures r.Err? <==> o.trainGaps(0) < duration && !traversal.hasRoute
    ensures r.Err? ==> r.error == ExhaustedRouteError
    ensures r.Ok? ==> fresh(r.value) && r.value.id == id
    ensures r.Ok? ==> TrainShape(r.value.arrivals, cars, routes, duration, o) && TrainEnd(r.value.arrivals, cars, duration, o)
    ensures r.Ok? ==> Sized(r.value.arrivals, sizes) && AllFound(traversal, routes)
  {
    var traffic := new Traffic(id);
    ghost var n: nat :| PrefixSum(o.trainGaps, n) >= duration;
    cars, routes := [], [];
    var time := o.trainGaps(0);
    var t: nat := 0;
    var c: nat := 0;
    assert PrefixSum(o.trainGaps, 1) == o.trainGaps(0);
    while time < duration
      invariant fresh(traffic)
      invariant TrainShape(traffic.arrivals, cars, routes, duration, o) && Sized(traffic.arrivals, sizes)
      invariant |routes| == t && AllFound(traversal, routes)
      invariant Resume(traffic.arrivals, cars, time, t, c, duration, o)
      invariant time >= PrefixSum(o.trainGaps, t + 1)
      invariant t > 0 ==> traversal.hasRoute
      decreases n - t
    {
      if n <= t + 1 {
        PrefixSumMonotone(o.trainGaps, n, t + 1);
        assert false;
      }
      var ok;
      ok, time, c, cars, routes := TrainStep(traffic, traversal, time, t, c, duration, o, draws, sizes, cars, routes);
      if !ok {
        return Err(ExhaustedRouteError), [], [];
      }
      t := t + 1;
    }
    ResumeEnd(traffic.arrivals, cars, time, t, c, duration, o);
    return Ok(traffic), cars, routes;
  }

  /** `TrainTrafficGenerator.run`: trains of `lengths(t)` cars, train `t`
      on the `t`-th sampled route. `r(x)` is `expovariate(1 / x)`, so both
      mean times must be positive, and `randint(1, max_train_length)` needs
      a maximum of at least one. */
  method Train(node: Node, duration: real, interTrainTime: real, interCarTime: real, maxTrainLength: int,
               ghost universe: set<Leaf>, draws: (nat, nat) -> nat, sizes: nat -> int, o: TrainDraws)
    returns (r: Result<Traffic>, ghost cars: seq<Car>, ghost routes: seq<Route>)
    requires Setting(node, universe, draws, sizes)
    requires interTrainTime > 0.0 && interCarTime > 0.0 && maxTrainLength >= 1
    requires forall t: nat :: 1 <= o.lengths(t) <= maxTrainLength
    requires forall t: nat :: o.trainGaps(t) >= 0.0
    requires forall g: nat :: o.carGaps(g) >= 0.0
    requires exists n: nat :: PrefixSum(o.trainGaps, n) >= duration
    ensures r.Err? <==> o.trainGaps(0) < duration && !old(HasRoute(node, universe))
    ensures r.Err? ==> r.error == ExhaustedRouteError
    ensures r.Ok? ==> fresh(r.value) && r.value.id == node.Id() + "-traffic"
    ensures r.Ok? ==> TrainShape(r.value.arrivals, cars, routes, duration, o) && TrainEnd(r.value.arrivals, cars, duration, o)
    ensures r.Ok? ==> Generated(universe, old(node.Flatten()), r.value.arrivals, sizes)
  {
    var traversal := Prepare(node, universe, draws, sizes);
    r, cars, routes := TrainRun(node.Id() + "-traffic", traversal, duration, o, draws, sizes);
    if r.Ok? {
      TrainDrawn(traversal, r.value.arrivals, cars, routes, duration, o, sizes);
      SampledGenerated(traversal, r.value.arrivals, sizes);
    }
  }
}
