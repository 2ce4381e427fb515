/** The XML traffic encoder (nsim/traffic/outputs/xml.py) and decoder
    (nsim/traffic/inputs/xml.py). Times are written with Python's `str` on
    floats (`floatText`) and read back with `float` (`parseFloat`); sizes
    are written and read as decimal integers. The decoder requires an id
    attribute on every arrival but ignores its value, and never looks at
    the root element's tag. */
module TrafficXml {
  import opened Wrappers
  import opened Decimal
  import opened Documents
  import opened Traffics

  /** The attributes `__parse_arrival` asks for, in its schema's order. */
  const ArrivalAttributes: seq<(string, FieldType)> :=
    [("id", StrField), ("time", FloatField), ("source", StrField), ("destination", StrField), ("size", IntField)]

  // ---------------------------------------------------------------- encoder

  /** An arrival element with the given id attribute: the time, source,
      destination and size as text, then the id that `_make_element` adds
      last. */
  function ArrivalElementWith(id: string, a: Arrival, floatText: real -> string): Element {
    Element("arrival", [("time", floatText(a.time)), ("source", a.source), ("destination", a.destination),
                        ("size", IntToString(a.size)), ("id", id)], [])
  }

  /** `__make_arrival_element`: the element of an arrival, with its own id. */
  function ArrivalElement(a: Arrival, floatText: real -> string): Element {
    ArrivalElementWith(a.Id(floatText), a, floatText)
  }

  /** The traffic element: tagged "traffic", with the traffic id, holding
      one arrival element per arrival, in order. */
  function TrafficElement(id: string, arrivals: seq<Arrival>, floatText: real -> string): Element {
    Element("traffic", [("id", id)], seq(|arrivals|, k requires 0 <= k < |arrivals| => ArrivalElement(arrivals[k], floatText)))
  }

  /** `__make_traffic_element`: the arrival elements are appended one by
      one. */
  method MakeTrafficElement(traffic: Traffic, floatText: real -> string) returns (element: Element)
    ensures element == TrafficElement(traffic.id, traffic.arrivals, floatText)
  {
    var arrivals := traffic.arrivals;
    element := Element("traffic", [("id", traffic.id)], []);
    for k := 0 to |arrivals|
      invariant element.tag == "traffic" && element.attributes == [("id", traffic.id)]
      invariant |element.children| == k
      invariant forall j | 0 <= j < k :: element.children[j] == ArrivalElement(arrivals[j], floatText)
    {
      element := element.(children := element.children + [ArrivalElement(arrivals[k], floatText)]);
    }
  }

  // ---------------------------------------------------------------- decoder

  /** `__parse_arrival`: the typed attributes become an arrival built from
      the time, source, destination and size; `randomSize` is the size
      drawn when the size attribute is 0. A missing or unconvertible
      attribute is rejected. */
  function ParseArrivalElement(e: Element, parseFloat: string -> Option<real>, randomSize: int): (r: Result<Arrival>)
    requires MinRandomSize <= randomSize <= MaxRandomSize
    ensures r.Ok? <==> ParseAttributes(e, ArrivalAttributes, parseFloat).Ok?
    ensures r.Err? ==> r.error == ValidationError
  {
    match ParseAttributes(e, ArrivalAttributes, parseFloat)
    case Err(err) => Err(err)
    case Ok(values) =>
      Ok(NewArrival(values[1].r, values[2].s, values[3].s, Some(values[4].i), randomSize))
  }

  /** The first `n` arrival elements parsed in order, element `k` drawing
      `randomSizes(k)` if it needs a size; the first rejected element
      rejects them all. */
  function ParseArrivalElements(items: seq<Element>, n: nat, parseFloat: string -> Option<real>, randomSizes: nat -> int)
    : (r: Result<seq<Arrival>>)
    requires n <= |items| && SizesInRange(randomSizes)
    ensures r.Ok? <==> forall k | 0 <= k < n :: ParseArrivalElement(items[k], parseFloat, randomSizes(k)).Ok?
    ensures r.Ok? ==> |r.value| == n &&
                      forall k | 0 <= k < n :: ParseArrivalElement(items[k], parseFloat, randomSizes(k)) == Ok(r.value[k])
    ensures r.Err? ==> r.error == ValidationError
  {
    if n == 0 then Ok([])
    else
      match ParseArrivalElements(items, n - 1, parseFloat, randomSizes)
      case Err(err) => Err(err)
      case Ok(init) =>
        match ParseArrivalElement(items[n - 1], parseFloat, randomSizes(n - 1))
        case Err(err) => Err(err)
        case Ok(a) => Ok(init + [a])
  }

  /** `__parse_traffic` as a value: the root's id and the arrivals of its
      `arrival` children. */
  function XmlDecoded(e: Element, parseFloat: string -> Option<real>, randomSizes: nat -> int)
    : Result<(string, seq<Arrival>)>
    requires SizesInRange(randomSizes)
  {
    match ParseId(e)
    case Err(err) => Err(err)
    case Ok(id) =>
      var items := FindAll(e.children, "arrival");
      match ParseArrivalElements(items, |items|, parseFloat, randomSizes)
      case Err(err) => Err(err)
      case Ok(arrivals) => Ok((id, arrivals))
  }

  /** `__parse_traffic`: a new traffic named by the root's id, to which the
      `arrival` children are appended in document order. */
  method XmlParseTraffic(e: Element, parseFloat: string -> Option<real>, randomSizes: nat -> int)
    returns (r: Result<Traffic>)
    requires SizesInRange(randomSizes)
    ensures r.Ok? <==> XmlDecoded(e, parseFloat, randomSizes).Ok?
    ensures r.Ok? ==> fresh(r.value) && (r.value.id, r.value.arrivals) == XmlDecoded(e, parseFloat, randomSizes).value
    ensures r.Err? ==> r.error == ValidationError
  {
    var id := ParseId(e);
    if id.Err? {
      return Err(id.error);
    }
    var traffic := new Traffic(id.value);
    var items := FindAll(e.children, "arrival");
    for k := 0 to |items|
      invariant ParseArrivalElements(items, k, parseFloat, randomSizes).Ok?
      invariant traffic.arrivals == ParseArrivalElements(items, k, parseFloat, randomSizes).value
    {
      var a := ParseArrivalElement(items[k], parseFloat, randomSizes(k));
      if a.Err? {
        return Err(a.error);
      }
      traffic.AddArrival(a.value);
    }
    return Ok(traffic);
  }

  // ------------------------------------------------------------ properties

  /** Attribute `i` of an arrival element is the one found under its key. */
  lemma ArrivalAttribute(id: string, a: Arrival, floatText: real -> string, i: nat)
    requires i < 5
    ensures var attributes := ArrivalElementWith(id, a, floatText).attributes;
            Find(attributes, attributes[i].0) == Some(attributes[i].1)
  {
    var attributes := ArrivalElementWith(id, a, floatText).attributes;
    FindFirst(attributes, i, attributes[i].0);
  }

  /** Whatever id an arrival element carries, it decodes to the arrival
      built from its time, source, destination and size, provided its time
      text reads back as its time: the element's id plays no part, and a
      size of 0 becomes the random size. */
  lemma ParseArrivalElementWith(id: string, a: Arrival, floatText: real -> string,
                                parseFloat: string -> Option<real>, randomSize: int)
    requires MinRandomSize <= randomSize <= MaxRandomSize
    requires parseFloat(floatText(a.time)) == Some(a.time)
    ensures ParseArrivalElement(ArrivalElementWith(id, a, floatText), parseFloat, randomSize) ==
              Ok(NewArrival(a.time, a.source, a.destination, Some(a.size), randomSize))
  {
    ArrivalAttributesParsed(id, a, floatText, parseFloat);
  }

  /** The attributes of an arrival element convert to its id, time,
      source, destination and size, when its time text reads back. */
  lemma ArrivalAttributesParsed(id: string, a: Arrival, floatText: real -> string, parseFloat: string -> Option<real>)
    requires parseFloat(floatText(a.time)) == Some(a.time)
    ensures ParseAttributes(ArrivalElementWith(id, a, floatText), ArrivalAttributes, parseFloat) ==
              Ok([JString(id), JFloat(a.time), JString(a.source), JString(a.destination), JInt(a.size)])
  {
    ArrivalAttribute(id, a, floatText, 0);
    ArrivalAttribute(id, a, floatText, 1);
    ArrivalAttribute(id, a, floatText, 2);
    ArrivalAttribute(id, a, floatText, 3);
    ArrivalAttribute(id, a, floatText, 4);
    IntToStringRoundTrip(a.size);
    AttributesConvert(ArrivalElementWith(id, a, floatText), ArrivalAttributes, parseFloat, id, floatText(a.time), a.time,
                      a.source, a.destination, IntToString(a.size), a.size);
  }

  /** An element whose five attributes are present and convert parses to
      their values, in schema order. The schema is any five-entry schema
      laid out as `ArrivalAttributes` is, so that its steps stay symbolic. */
  lemma AttributesConvert(e: Element, schema: seq<(string, FieldType)>, parseFloat: string -> Option<real>,
                          id: string, timeText: string, time: real,
                          source: string, destination: string, sizeText: string, size: int)
    requires |schema| == 5
    requires schema[0] == ("id", StrField) && schema[1] == ("time", FloatField) && schema[2] == ("source", StrField)
    requires schema[3] == ("destination", StrField) && schema[4] == ("size", IntField)
    requires Find(e.attributes, "id") == Some(id)
    requires Find(e.attributes, "time") == Some(timeText) && parseFloat(timeText) == Some(time)
    requires Find(e.attributes, "source") == Some(source)
    requires Find(e.attributes, "destination") == Some(destination)
    requires Find(e.attributes, "size") == Some(sizeText) && ParseInt(sizeText) == Some(size)
    ensures ParseAttributes(e, schema, parseFloat) ==
              Ok([JString(id), JFloat(time), JString(source), JString(destination), JInt(size)])
  {
    assert schema[5..] == [];
    assert schema[4..][1..] == schema[5..];
    ParseAttributesCons(e, schema[4..], parseFloat, JInt(size), []);
    var values4 := [JInt(size)] + [];
    assert schema[3..][1..] == schema[4..];
    ParseAttributesCons(e, schema[3..], parseFloat, JString(destination), values4);
    var values3 := [JString(destination)] + values4;
    assert schema[2..][1..] == schema[3..];
    ParseAttributesCons(e, schema[2..], parseFloat, JString(source), values3);
    var values2 := [JString(source)] + values3;
    assert schema[1..][1..] == schema[2..];
    ParseAttributesCons(e, schema[1..], parseFloat, JFloat(time), values2);
    var values1 := [JFloat(time)] + values2;
    ParseAttributesCons(e, schema, parseFloat, JString(id), values1);
    assert [JString(id)] + values1 == [JString(id), JFloat(time), JString(source), JString(destination), JInt(size)];
  }

  /** Each arrival element decodes to its arrival, when its size is not 0
      and its time's text reads back as its time. */
  lemma ArrivalElementsParsed(arrivals: seq<Arrival>, floatText: real -> string,
                              parseFloat: string -> Option<real>, randomSizes: nat -> int)
    requires SizesInRange(randomSizes)
    requires forall k | 0 <= k < |arrivals| :: arrivals[k].size != 0
    requires forall k | 0 <= k < |arrivals| :: parseFloat(floatText(arrivals[k].time)) == Some(arrivals[k].time)
    ensures forall k | 0 <= k < |arrivals| ::
              ParseArrivalElement(ArrivalElement(arrivals[k], floatText), parseFloat, randomSizes(k)) == Ok(arrivals[k])
  {
    forall k | 0 <= k < |arrivals|
      ensures ParseArrivalElement(ArrivalElement(arrivals[k], floatText), parseFloat, randomSizes(k)) == Ok(arrivals[k])
    {
      ParseArrivalElementWith(arrivals[k].Id(floatText), arrivals[k], floatText, parseFloat, randomSizes(k));
    }
  }

  /** Decoding the encoding of a traffic gives back its id and its
      arrivals, in order, when no arrival has size 0 and every time's text
      reads back as that time. */
  lemma XmlRoundTrip(id: string, arrivals: seq<Arrival>, floatText: real -> string,
                     parseFloat: string -> Option<real>, randomSizes: nat -> int)
    requires SizesInRange(randomSizes)
    requires forall k | 0 <= k < |arrivals| :: arrivals[k].size != 0
    requires forall k | 0 <= k < |arrivals| :: parseFloat(floatText(arrivals[k].time)) == Some(arrivals[k].time)
    ensures XmlDecoded(TrafficElement(id, arrivals, floatText), parseFloat, randomSizes) == Ok((id, arrivals))
  {
    var e := TrafficElement(id, arrivals, floatText);
    TrafficElementParts(id, arrivals, floatText);
    ArrivalElementsParsed(arrivals, floatText, parseFloat, randomSizes);
    ParseEveryArrivalElement(e.children, arrivals, parseFloat, randomSizes);
  }

  /** The traffic element carries the id, and its children are exactly the
      arrival elements, in order. */
  lemma TrafficElementParts(id: string, arrivals: seq<Arrival>, floatText: real -> string)
    ensures var e := TrafficElement(id, arrivals, floatText);
            && ParseId(e) == Ok(id)
            && FindAll(e.children, "arrival") == e.children
            && |e.children| == |arrivals|
            && forall k | 0 <= k < |arrivals| :: e.children[k] == ArrivalElement(arrivals[k], floatText)
  {
    var e := TrafficElement(id, arrivals, floatText);
    assert ParseId(e) == Ok(id);
    FindAllEvery(e.children, "arrival");
  }

  /** Elements that each parse to the matching arrival parse, together, to
      all of them in order. */
  lemma ParseEveryArrivalElement(items: seq<Element>, arrivals: seq<Arrival>,
                                 parseFloat: string -> Option<real>, randomSizes: nat -> int)
    requires SizesInRange(randomSizes) && |items| == |arrivals|
    requires forall k | 0 <= k < |items| :: ParseArrivalElement(items[k], parseFloat, randomSizes(k)) == Ok(arrivals[k])
    ensures ParseArrivalElements(items, |items|, parseFloat, randomSizes) == Ok(arrivals)
  {
    var parsed := ParseArrivalElements(items, |items|, parseFloat, randomSizes);
    assert parsed.value == arrivals;
  }

  /** The root's tag plays no part in decoding. */
  lemma RootTagIgnored(e: Element, tag: string, parseFloat: string -> Option<real>, randomSizes: nat -> int)
    requires SizesInRange(randomSizes)
    ensures XmlDecoded(e.(tag := tag), parseFloat, randomSizes) == XmlDecoded(e, parseFloat, randomSizes)
  {
    assert e.(tag := tag).attributes == e.attributes && e.(tag := tag).children == e.children;
  }
}
