/** The JSON traffic encoder (nsim/traffic/outputs/json.py) and decoder
    (nsim/traffic/inputs/json.py). An arrival record carries its id, but
    the decoder ignores it: the decoded arrival recomputes its id from its
    time, source, destination and size. A size of 0 in a record is
    replaced by a random size, as the arrival constructor does. */
module TrafficJson {
  import opened Wrappers
  import opened Documents
  import opened Traffics

  const ArrivalSchema: seq<(string, FieldType)> :=
    [("type", StrField), ("id", StrField), ("time", FloatField), ("source", StrField),
     ("destination", StrField), ("size", IntField)]
  const TrafficSchema: seq<(string, FieldType)> := [("type", StrField), ("id", StrField), ("arrivals", ListField)]

  // ---------------------------------------------------------------- encoder

  /** An arrival record with the given id in its "id" field. */
  function ArrivalData(id: string, a: Arrival): Json {
    JObject([("type", JString("Arrival")), ("id", JString(id)), ("time", JFloat(a.time)),
             ("source", JString(a.source)), ("destination", JString(a.destination)), ("size", JInt(a.size))])
  }

  /** `__make_arrival_data`: the record of an arrival, with its own id. */
  function ArrivalRecord(a: Arrival, floatText: real -> string): Json {
    ArrivalData(a.Id(floatText), a)
  }

  /** The traffic record: type, id, then one arrival record per arrival,
      in order. */
  function TrafficRecord(id: string, arrivals: seq<Arrival>, floatText: real -> string): Json {
    JObject([("type", JString("Traffic")), ("id", JString(id)),
             ("arrivals", JArray(seq(|arrivals|, k requires 0 <= k < |arrivals| => ArrivalRecord(arrivals[k], floatText))))])
  }

  /** `__make_traffic_data`: the arrival records are appended one by one. */
  method MakeTrafficData(traffic: Traffic, floatText: real -> string) returns (data: Json)
    ensures data == TrafficRecord(traffic.id, traffic.arrivals, floatText)
  {
    var arrivals := traffic.arrivals;
    var items: seq<Json> := [];
    for k := 0 to |arrivals|
      invariant |items| == k
      invariant forall j | 0 <= j < k :: items[j] == ArrivalRecord(arrivals[j], floatText)
    {
      items := items + [ArrivalRecord(arrivals[k], floatText)];
    }
    assert items == seq(|arrivals|, k requires 0 <= k < |arrivals| => ArrivalRecord(arrivals[k], floatText));
    data := JObject([("type", JString("Traffic")), ("id", JString(traffic.id)), ("arrivals", JArray(items))]);
  }

  // ---------------------------------------------------------------- decoder

  /** A record that passes the arrival schema and is typed Arrival. */
  predicate IsArrivalRecord(data: Json) {
    ValidateSchema(data, ArrivalSchema) && StrOf(data, "type", ArrivalSchema) == "Arrival"
  }

  /** A record that passes the traffic schema and is typed Traffic. */
  predicate IsTrafficRecord(data: Json) {
    ValidateSchema(data, TrafficSchema) && StrOf(data, "type", TrafficSchema) == "Traffic"
  }

  /** `__parse_arrival`: an arrival record becomes an arrival built from its
      time, source, destination and size; `randomSize` is the size drawn
      when the record's size is 0. Anything else is rejected. */
  function ParseArrival(data: Json, randomSize: int): (r: Result<Arrival>)
    requires MinRandomSize <= randomSize <= MaxRandomSize
    ensures r.Ok? <==> IsArrivalRecord(data)
    ensures r.Err? ==> r.error == UnsupportedTypeError
  {
    if IsArrivalRecord(data) then
      Ok(NewArrival(FloatOf(data, "time", ArrivalSchema), StrOf(data, "source", ArrivalSchema),
                    StrOf(data, "destination", ArrivalSchema), Some(IntOf(data, "size", ArrivalSchema)), randomSize))
    else Err(UnsupportedTypeError)
  }

  /** The first `n` items parsed in order, item `k` drawing `randomSizes(k)`
      if it needs a size; the first rejected item rejects them all. */
  function ParseArrivals(items: seq<Json>, n: nat, randomSizes: nat -> int): (r: Result<seq<Arrival>>)
    requires n <= |items| && SizesInRange(randomSizes)
    ensures r.Ok? <==> forall k | 0 <= k < n :: ParseArrival(items[k], randomSizes(k)).Ok?
    ensures r.Ok? ==> |r.value| == n && forall k | 0 <= k < n :: ParseArrival(items[k], randomSizes(k)) == Ok(r.value[k])
    ensures r.Err? ==> r.error == UnsupportedTypeError
  {
    if n == 0 then Ok([])
    else
      match ParseArrivals(items, n - 1, randomSizes)
      case Err(err) => Err(err)
      case Ok(init) =>
        match ParseArrival(items[n - 1], randomSizes(n - 1))
        case Err(err) => Err(err)
        case Ok(a) => Ok(init + [a])
  }

  /** `__parse_traffic` as a value: the id and the arrivals of a traffic
      record. */
  function Decoded(data: Json, randomSizes: nat -> int): Result<(string, seq<Arrival>)>
    requires SizesInRange(randomSizes)
  {
    if IsTrafficRecord(data) then
      var items := ListOf(data, "arrivals", TrafficSchema);
      match ParseArrivals(items, |items|, randomSizes)
      case Err(err) => Err(err)
      case Ok(arrivals) => Ok((StrOf(data, "id", TrafficSchema), arrivals))
    else Err(UnsupportedTypeError)
  }

  /** `__parse_traffic`: a new traffic named by the record, to which the
      arrivals are appended in document order. */
  method ParseTraffic(data: Json, randomSizes: nat -> int) returns (r: Result<Traffic>)
    requires SizesInRange(randomSizes)
    ensures r.Ok? <==> Decoded(data, randomSizes).Ok?
    ensures r.Ok? ==> fresh(r.value) && (r.value.id, r.value.arrivals) == Decoded(data, randomSizes).value
    ensures r.Err? ==> r.error == UnsupportedTypeError
  {
    if !IsTrafficRecord(data) {
      return Err(UnsupportedTypeError);
    }
    var items := ListOf(data, "arrivals", TrafficSchema);
    var traffic := new Traffic(StrOf(data, "id", TrafficSchema));
    var err := AddArrivals(traffic, items, randomSizes);
    if err.Some? {
      return Err(err.value);
    }
    return Ok(traffic);
  }

  /** The arrival loop of `__parse_traffic`: each item is parsed and
      appended in turn; the first rejected item stops the loop. */
  method AddArrivals(traffic: Traffic, items: seq<Json>, randomSizes: nat -> int) returns (err: Option<Error>)
    requires SizesInRange(randomSizes) && traffic.arrivals == []
    modifies traffic
    ensures err.None? <==> ParseArrivals(items, |items|, randomSizes).Ok?
    ensures err.Some? ==> err.value == UnsupportedTypeError
    ensures err.None? ==> traffic.arrivals == ParseArrivals(items, |items|, randomSizes).value
  {
    for k := 0 to |items|
      invariant ParseArrivals(items, k, randomSizes).Ok?
      invariant traffic.arrivals == ParseArrivals(items, k, randomSizes).value
    {
      var a := ParseArrival(items[k], randomSizes(k));
      if a.Err? {
        return Some(a.error);
      }
      traffic.AddArrival(a.value);
    }
    return None;
  }

  // ------------------------------------------------------------ properties

  /** Field `i` of an arrival record is the one found under its key. */
  lemma ArrivalField(id: string, a: Arrival, i: nat)
    requires i < 6
    ensures Get(ArrivalData(id, a), ArrivalData(id, a).fields[i].0) == Some(ArrivalData(id, a).fields[i].1)
  {
    FindFirst(ArrivalData(id, a).fields, i, ArrivalData(id, a).fields[i].0);
  }

  /** An arrival record holds what it was built from under its keys, and
      passes the arrival schema. */
  lemma ArrivalFields(id: string, a: Arrival)
    ensures Get(ArrivalData(id, a), "type") == Some(JString("Arrival"))
    ensures Get(ArrivalData(id, a), "id") == Some(JString(id))
    ensures Get(ArrivalData(id, a), "time") == Some(JFloat(a.time))
    ensures Get(ArrivalData(id, a), "source") == Some(JString(a.source))
    ensures Get(ArrivalData(id, a), "destination") == Some(JString(a.destination))
    ensures Get(ArrivalData(id, a), "size") == Some(JInt(a.size))
    ensures ValidateSchema(ArrivalData(id, a), ArrivalSchema)
  {
    var data := ArrivalData(id, a);
    ArrivalField(id, a, 0);
    ArrivalField(id, a, 1);
    ArrivalField(id, a, 2);
    ArrivalField(id, a, 3);
    ArrivalField(id, a, 4);
    ArrivalField(id, a, 5);
    // The schema is checked field by field, keeping each check's key known.
    ValidateSchemaOne(data, "type", StrField);
    ValidateSchemaOne(data, "id", StrField);
    ValidateSchemaJoin(data, [("type", StrField)], [("id", StrField)]);
    ValidateSchemaOne(data, "time", FloatField);
    ValidateSchemaJoin(data, ArrivalSchema[..2], [("time", FloatField)]);
    ValidateSchemaOne(data, "source", StrField);
    ValidateSchemaJoin(data, ArrivalSchema[..3], [("source", StrField)]);
    ValidateSchemaOne(data, "destination", StrField);
    ValidateSchemaJoin(data, ArrivalSchema[..4], [("destination", StrField)]);
    ValidateSchemaOne(data, "size", IntField);
    ValidateSchemaJoin(data, ArrivalSchema[..5], [("size", IntField)]);
  }

  /** Whatever id an arrival record carries, it decodes to the arrival
      built from its time, source, destination and size: the document's id
      plays no part, and a size of 0 becomes the random size. */
  lemma ParseArrivalData(id: string, a: Arrival, randomSize: int)
    requires MinRandomSize <= randomSize <= MaxRandomSize
    ensures ParseArrival(ArrivalData(id, a), randomSize) ==
              Ok(NewArrival(a.time, a.source, a.destination, Some(a.size), randomSize))
  {
    ArrivalFields(id, a);
  }

  /** The traffic record holds its type, id and arrival list under their
      keys. */
  lemma TrafficFields(id: string, arrivals: seq<Arrival>, floatText: real -> string)
    ensures IsTrafficRecord(TrafficRecord(id, arrivals, floatText))
    ensures StrOf(TrafficRecord(id, arrivals, floatText), "id", TrafficSchema) == id
    ensures ListOf(TrafficRecord(id, arrivals, floatText), "arrivals", TrafficSchema) ==
              TrafficRecord(id, arrivals, floatText).fields[2].1.items
  {
    var fields := TrafficRecord(id, arrivals, floatText).fields;
    FindFirst(fields, 0, "type");
    FindFirst(fields, 1, "id");
    FindFirst(fields, 2, "arrivals");
  }

  /** Decoding the encoding of a traffic gives back its id and its
      arrivals, in order, when no arrival has size 0. */
  lemma JsonRoundTrip(id: string, arrivals: seq<Arrival>, floatText: real -> string, randomSizes: nat -> int)
    requires SizesInRange(randomSizes)
    requires forall k | 0 <= k < |arrivals| :: arrivals[k].size != 0
    ensures Decoded(TrafficRecord(id, arrivals, floatText), randomSizes) == Ok((id, arrivals))
  {
    var data := TrafficRecord(id, arrivals, floatText);
    TrafficFields(id, arrivals, floatText);
    var items := ListOf(data, "arrivals", TrafficSchema);
    assert |items| == |arrivals|;
    forall k | 0 <= k < |items|
      ensures ParseArrival(items[k], randomSizes(k)) == Ok(arrivals[k])
    {
      assert items[k] == ArrivalData(arrivals[k].Id(floatText), arrivals[k]);
      ParseArrivalData(arrivals[k].Id(floatText), arrivals[k], randomSizes(k));
    }
    ParseEveryArrival(items, arrivals, randomSizes);
  }

  /** Records that each decode to the matching arrival decode, together, to
      all of them in order. */
  lemma ParseEveryArrival(items: seq<Json>, arrivals: seq<Arrival>, randomSizes: nat -> int)
    requires SizesInRange(randomSizes) && |items| == |arrivals|
    requires forall k | 0 <= k < |items| :: ParseArrival(items[k], randomSizes(k)) == Ok(arrivals[k])
    ensures ParseArrivals(items, |items|, randomSizes) == Ok(arrivals)
  {
    var parsed := ParseArrivals(items, |items|, randomSizes);
    assert parsed.value == arrivals;
  }

  /** A record of size 0 decodes to the random size drawn for its place,
      within the range `randint(512, 1500)` gives. */
  lemma ZeroSizeRedrawn(id: string, a: Arrival, randomSize: int)
    requires MinRandomSize <= randomSize <= MaxRandomSize
    requires a.size == 0
    ensures ParseArrival(ArrivalData(id, a), randomSize) == Ok(a.(size := randomSize))
  {
    ParseArrivalData(id, a, randomSize);
  }
}
