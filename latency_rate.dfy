/** The scheduling rule of the OMNeT++ latency-rate node
    (omnet/nodes/LatencyRateNode.cc): an analyzer message leaves after the
    link latency, and not before the previous message has finished
    transmitting, plus its own transmission time `size / rate`. Simulation
    time is a real number here. */
module LatencyRate {

  /** What the node receives: a message it scheduled for itself earlier, a
      network analyzer message of some size, or any other message. */
  datatype Message =
    | SelfMessage(payload: Message)
    | AnalyzerMessage(size: int)
    | OtherMessage

  /** What the node does with a message. */
  datatype Action =
    | Forward(message: Message)              // `send(msg, "out")`
    | ScheduleAt(time: real, message: Message) // `scheduleAt(time, message)`
    | Delete                                  // `delete msg`

  function Max(a: real, b: real): real {
    if a >= b then a else b
  }

  /** The departure time of a message of `size` that arrives at `now`:
      the later of arrival plus latency and the previous departure, plus
      the transmission time. */
  function SendTime(now: real, latency: real, rate: real, previous: real, size: int): (t: real)
    requires rate > 0.0
    ensures t >= now + latency + size as real / rate
    ensures t >= previous + size as real / rate
    ensures t == now + latency + size as real / rate || t == previous + size as real / rate
  {
    Max(now + latency, previous) + size as real / rate
  }

  class LatencyRateNode {
    const latency: real
    const rate: real
    var previousSendTime: real

    /** `initialize`: the parameters are read and no message has been sent
        yet. */
    constructor (latency: real, rate: real)
      requires rate > 0.0
      ensures this.latency == latency && this.rate == rate && previousSendTime == 0.0
    {
      this.latency := latency;
      this.rate := rate;
      previousSendTime := 0.0;
    }

    /** `handleMessage` at simulation time `now`: a self-message goes out
        unchanged, an analyzer message is scheduled at its departure time,
        which becomes the previous departure, and any other message is
        deleted. Only an analyzer message changes the state. */
    method HandleMessage(msg: Message, now: real) returns (action: Action)
      requires rate > 0.0
      modifies this
      ensures msg.SelfMessage? ==> action == Forward(msg) && previousSendTime == old(previousSendTime)
      ensures msg.OtherMessage? ==> action == Delete && previousSendTime == old(previousSendTime)
      ensures msg.AnalyzerMessage? ==>
                && previousSendTime == SendTime(now, latency, rate, old(previousSendTime), msg.size)
                && action == ScheduleAt(previousSendTime, msg)
    {
      match msg {
        case SelfMessage(_) =>
          action := Forward(msg);
        case AnalyzerMessage(size) =>
          var time := Max(now + latency, previousSendTime) + size as real / rate;
          previousSendTime := time;
          action := ScheduleAt(time, msg);
        case OtherMessage =>
          action := Delete;
      }
    }
  }

  /** The departures of a run of analyzer messages, given as (arrival time,
      size) pairs, starting from the previous departure `previous`. */
  function Departures(latency: real, rate: real, previous: real, arrivals: seq<(real, int)>): (d: seq<real>)
    requires rate > 0.0
    ensures |d| == |arrivals|
    decreases |arrivals|
  {
    if arrivals == [] then []
    else
      var t := SendTime(arrivals[0].0, latency, rate, previous, arrivals[0].1);
      [t] + Departures(latency, rate, t, arrivals[1..])
  }

  /** With non-negative sizes the departures never decrease and none comes
      before the previous departure: messages leave in the order they
      arrived (first in, first out). */
  lemma {:induction false} DeparturesInOrder(latency: real, rate: real, previous: real, arrivals: seq<(real, int)>)
    requires rate > 0.0
    requires forall k | 0 <= k < |arrivals| :: arrivals[k].1 >= 0
    ensures forall i | 0 <= i < |arrivals| ::
              previous <= Departures(latency, rate, previous, arrivals)[i]
    ensures forall i, j | 0 <= i <= j < |arrivals| ::
              Departures(latency, rate, previous, arrivals)[i] <= Departures(latency, rate, previous, arrivals)[j]
    decreases |arrivals|
  {
    if arrivals != [] {
      var d := Departures(latency, rate, previous, arrivals);
      var t := SendTime(arrivals[0].0, latency, rate, previous, arrivals[0].1);
      DeparturesInOrder(latency, rate, t, arrivals[1..]);
      assert arrivals[0].1 as real / rate >= 0.0;
      assert d[1..] == Departures(latency, rate, t, arrivals[1..]);
      forall i, j | 0 <= i <= j < |arrivals|
        ensures d[i] <= d[j]
      {
        if i > 0 {
          assert d[i] == d[1..][i - 1] && d[j] == d[1..][j - 1];
        } else if j > 0 {
          assert d[j] == d[1..][j - 1];
        }
      }
    }
  }

  /** Every message leaves no earlier than its arrival plus latency plus
      its own transmission time. */
  lemma {:induction false} DeparturesAfterArrival(latency: real, rate: real, previous: real, arrivals: seq<(real, int)>)
    requires rate > 0.0
    ensures forall i | 0 <= i < |arrivals| ::
              Departures(latency, rate, previous, arrivals)[i] >= arrivals[i].0 + latency + arrivals[i].1 as real / rate
    decreases |arrivals|
  {
    if arrivals != [] {
      var d := Departures(latency, rate, previous, arrivals);
      var t := SendTime(arrivals[0].0, latency, rate, previous, arrivals[0].1);
      DeparturesAfterArrival(latency, rate, t, arrivals[1..]);
      assert d[1..] == Departures(latency, rate, t, arrivals[1..]);
      forall i | 1 <= i < |arrivals|
        ensures d[i] >= arrivals[i].0 + latency + arrivals[i].1 as real / rate
      {
        assert d[i] == d[1..][i - 1] && arrivals[i] == arrivals[1..][i - 1];
      }
    }
  }
}
