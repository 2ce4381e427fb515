/** The arrivals the train generator of nsim/traffic/generators produces,
    described car by car over its random draws: trains of consecutive
    arrivals on one route each, cars one car gap apart, trains one train
    gap apart, nothing after the duration. */
module TrainSchedules {
  import opened Routing
  import opened Traffics

  /** The random inputs of the train generator besides routes and sizes:
      `lengths(t)` is `randint(1, max_train_length)` for train `t`,
      `trainGaps(t)` the `t`-th draw of `r(inter_train_time)` and
      `carGaps(g)` the `g`-th draw of `r(inter_car_time)`. */
  datatype TrainDraws = TrainDraws(lengths: nat -> nat, trainGaps: nat -> real, carGaps: nat -> real)

  /** Where an arrival sits: car `index` of train `train`, with `drawn` car
      gaps drawn so far (one per car that is not first in its train). */
  datatype Car = Car(train: nat, index: nat, drawn: nat)

  /** A car is within its train's drawn length, not after `duration`, and
      joins the endpoints of its train's route; a train starts before
      `duration`. */
  ghost predicate InTrain(a: Arrival, car: Car, routes: seq<Route>, duration: real, o: TrainDraws) {
    && car.train < |routes| && car.index < o.lengths(car.train)
    && a.time <= duration && (car.index == 0 ==> a.time < duration)
    && a.source == routes[car.train].source.id && a.destination == routes[car.train].destination.id
  }

  /** Arrival `a` at `car` comes right after `prev` at `prevCar`: either
      the next car of the same train, one fresh car gap later, or the first
      car of the next train, one train gap later, after a train that had
      all its cars. */
  ghost predicate Follows(prev: Arrival, prevCar: Car, a: Arrival, car: Car, o: TrainDraws) {
    if car.index == 0 then
      && car.train == prevCar.train + 1 && car.drawn == prevCar.drawn
      && prevCar.index + 1 == o.lengths(prevCar.train)
      && a.time == prev.time + o.trainGaps(car.train)
    else
      && car.train == prevCar.train && car.index == prevCar.index + 1 && car.drawn == prevCar.drawn + 1
      && a.time == prev.time + o.carGaps(prevCar.drawn)
  }

  /** The arrivals of the train generator, car by car, train `t` on
      `routes[t]`: every arrival is placed. */
  ghost predicate TrainShape(arrivals: seq<Arrival>, cars: seq<Car>, routes: seq<Route>, duration: real,
                             o: TrainDraws) {
    && |cars| == |arrivals|
    && forall i | 0 <= i < |arrivals| :: Placed(arrivals, cars, routes, i, duration, o)
  }

  /** Arrival `i` is in its train; the first one is the first car of the
      first train, at the first train gap, and every other one follows the
      arrival before it. */
  ghost predicate Placed(arrivals: seq<Arrival>, cars: seq<Car>, routes: seq<Route>, i: nat, duration: real,
                         o: TrainDraws)
    requires i < |arrivals| && i < |cars|
  {
    && InTrain(arrivals[i], cars[i], routes, duration, o)
    && if i == 0 then
         cars[0] == Car(0, 0, 0) && arrivals[0].time == o.trainGaps(0)
       else
         Follows(arrivals[i - 1], cars[i - 1], arrivals[i], cars[i], o)
  }

  /** Why the generator stopped: no train started before `duration`, or
      the train after the last full one starts at or past it, or the last
      train was cut short by a car that would come after `duration`. */
  ghost predicate TrainEnd(arrivals: seq<Arrival>, cars: seq<Car>, duration: real, o: TrainDraws) {
    && |cars| == |arrivals|
    && if arrivals == [] then o.trainGaps(0) >= duration
       else
         var last := |arrivals| - 1;
         if cars[last].index + 1 == o.lengths(cars[last].train) then
           arrivals[last].time + o.trainGaps(cars[last].train + 1) >= duration
         else
           arrivals[last].time + o.carGaps(cars[last].drawn) > duration
  }

  /** The state at the head of the train loop: `t` trains generated, `c`
      car gaps drawn, and the clock at the start of the next train (or, if
      the last train was cut short, already past `duration`). */
  ghost predicate Resume(arrivals: seq<Arrival>, cars: seq<Car>, time: real, t: nat, c: nat,
                         duration: real, o: TrainDraws) {
    && |cars| == |arrivals|
    && if arrivals == [] then t == 0 && c == 0 && time == o.trainGaps(0)
       else
         var last := |arrivals| - 1;
         && t == cars[last].train + 1
         && if cars[last].index + 1 == o.lengths(cars[last].train) then
              c == cars[last].drawn && time == arrivals[last].time + o.trainGaps(t)
            else
              arrivals[last].time + o.carGaps(cars[last].drawn) > duration && time > duration
  }

  /** Once the loop stops, the state says why. */
  lemma ResumeEnd(arrivals: seq<Arrival>, cars: seq<Car>, time: real, t: nat, c: nat,
                  duration: real, o: TrainDraws)
    requires Resume(arrivals, cars, time, t, c, duration, o) && time >= duration
    ensures TrainEnd(arrivals, cars, duration, o)
  {
  }

  /** Appending a placed arrival keeps the shape. */
  lemma ShapeAppend(arrivals: seq<Arrival>, cars: seq<Car>, routes: seq<Route>, a: Arrival, car: Car,
                    duration: real, o: TrainDraws)
    requires TrainShape(arrivals, cars, routes, duration, o) && InTrain(a, car, routes, duration, o)
    requires arrivals == [] ==> car == Car(0, 0, 0) && a.time == o.trainGaps(0)
    requires arrivals != [] ==> Follows(arrivals[|arrivals| - 1], cars[|cars| - 1], a, car, o)
    ensures TrainShape(arrivals + [a], cars + [car], routes, duration, o)
  {
    var arrivals', cars' := arrivals + [a], cars + [car];
    forall i | 0 <= i < |arrivals'|
      ensures Placed(arrivals', cars', routes, i, duration, o)
    {
      if i < |arrivals| {
        assert Placed(arrivals, cars, routes, i, duration, o);
      }
    }
  }

  /** Sampling the route of a new train keeps the shape of the trains so
      far. */
  lemma ShapeNewRoute(arrivals: seq<Arrival>, cars: seq<Car>, routes: seq<Route>, route: Route,
                      duration: real, o: TrainDraws)
    requires TrainShape(arrivals, cars, routes, duration, o)
    ensures TrainShape(arrivals, cars, routes + [route], duration, o)
  {
    forall i | 0 <= i < |arrivals|
      ensures Placed(arrivals, cars, routes + [route], i, duration, o)
    {
      assert Placed(arrivals, cars, routes, i, duration, o);
    }
  }

  /** Trains are numbered in order: a later arrival never belongs to an
      earlier train. */
  lemma {:induction false} TrainsInOrder(arrivals: seq<Arrival>, cars: seq<Car>, routes: seq<Route>,
                                         duration: real, o: TrainDraws, i: nat, j: nat)
    requires TrainShape(arrivals, cars, routes, duration, o) && i <= j < |arrivals|
    ensures cars[i].train <= cars[j].train
    decreases j - i
  {
    if i < j {
      TrainsInOrder(arrivals, cars, routes, duration, o, i, j - 1);
      assert Placed(arrivals, cars, routes, j, duration, o);
    }
  }

  /** With non-negative gaps the arrival times never decrease. */
  lemma {:induction false} TrainNonDecreasing(arrivals: seq<Arrival>, cars: seq<Car>, routes: seq<Route>,
                                              duration: real, o: TrainDraws, i: nat, j: nat)
    requires forall t: nat :: o.trainGaps(t) >= 0.0
    requires forall g: nat :: o.carGaps(g) >= 0.0
    requires TrainShape(arrivals, cars, routes, duration, o) && i <= j < |arrivals|
    ensures arrivals[i].time <= arrivals[j].time
    decreases j - i
  {
    if i < j {
      TrainNonDecreasing(arrivals, cars, routes, duration, o, i, j - 1);
      assert Placed(arrivals, cars, routes, j, duration, o);
    }
  }

  /** The cars of one train are consecutive arrivals on one route,
      numbered from the train's first car on, one car gap drawn per car. */
  lemma {:induction false} TrainConsecutive(arrivals: seq<Arrival>, cars: seq<Car>, routes: seq<Route>,
                                            duration: real, o: TrainDraws, i: nat, j: nat)
    requires TrainShape(arrivals, cars, routes, duration, o) && i <= j < |arrivals|
    requires cars[i].train == cars[j].train
    ensures arrivals[i].source == arrivals[j].source && arrivals[i].destination == arrivals[j].destination
    ensures cars[j].index == cars[i].index + (j - i) && cars[j].drawn == cars[i].drawn + (j - i)
    decreases j - i
  {
    assert Placed(arrivals, cars, routes, i, duration, o);
    assert Placed(arrivals, cars, routes, j, duration, o);
    if i < j {
      TrainsInOrder(arrivals, cars, routes, duration, o, i, j - 1);
      TrainConsecutive(arrivals, cars, routes, duration, o, i, j - 1);
    }
  }

  /** No train is longer than the maximum: every car index is below it. */
  lemma TrainLengthBound(arrivals: seq<Arrival>, cars: seq<Car>, routes: seq<Route>, duration: real,
                         o: TrainDraws, maxTrainLength: int, i: nat)
    requires forall t: nat :: o.lengths(t) <= maxTrainLength
    requires TrainShape(arrivals, cars, routes, duration, o) && i < |cars|
    ensures cars[i].index < maxTrainLength
  {
    assert Placed(arrivals, cars, routes, i, duration, o);
  }
}
