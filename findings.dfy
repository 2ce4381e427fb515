/** Two defects of the source, each modelled as written beside the
    behaviour the rest of this model uses.

    1. `Topology.__nodes` (nsim/topology/models/topology.py:10) and
       `Traffic.__arrivals` (nsim/traffic/models/traffic.py:11) are
       class-level lists that no constructor replaces, so every instance
       appends to, and reads, one shared list.
    2. `__scan_leaves` in both topology decoders (nsim/topology/inputs/json.py:82,
       nsim/topology/inputs/xml.py:60) defaults its table to one `dict()`
       built when the method is defined; `run` relies on that default, so
       every decode starts from the leaves of all earlier decodes. */
module Findings {
  import opened Wrappers
  import opened Graph
  import opened Documents
  import opened Views
  import opened TopologyJson
  import opened TopologyXml

  // ------------------------------------------------ shared class-level lists

  /** The children a program gives topologies, or the arrivals it gives
      traffics: a log of appends, each naming the instance it was made on. */
  type AppendLog<T> = seq<(nat, T)>

  /** As written: `get_nodes`/`get_arrivals` of any instance return the
      one class-level list, which holds every append made on any instance. */
  function SharedContents<T>(log: AppendLog<T>, owner: nat): seq<T> {
    seq(|log|, k requires 0 <= k < |log| => log[k].1)
  }

  /** As written, an instance's list holds an item exactly when some
      instance, any instance, appended it. */
  lemma SharedContentsMembers<T>(log: AppendLog<T>, owner: nat, x: T)
    ensures x in SharedContents(log, owner) <==> exists i: nat :: (i, x) in log
  {
    if x in SharedContents(log, owner) {
      var k :| 0 <= k < |log| && SharedContents(log, owner)[k] == x;
      assert log[k] == (log[k].0, x);
    }
    if i: nat :| (i, x) in log {
      var k :| 0 <= k < |log| && log[k] == (i, x);
      assert SharedContents(log, owner)[k] == x;
    }
  }

  /** Each instance's own list keeps its appends in order and leaves the
      others out, so it is a sub-multiset of the shared list. */
  lemma {:induction false} OwnWithinShared<T>(log: AppendLog<T>, owner: nat)
    ensures multiset(OwnContents(log, owner)) <= multiset(SharedContents(log, owner))
    decreases |log|
  {
    if log != [] {
      OwnWithinShared(log[1..], owner);
      assert SharedContents(log, owner) == [log[0].1] + SharedContents(log[1..], owner);
    }
  }

  /** Two traffics: an item appended to the first and never to the second
      still shows up in the second's list as written, while per instance
      the second does not hold it. */
  lemma SharedTrafficHoldsOthers<T>(log: AppendLog<T>, first: nat, second: nat, x: T)
    requires (first, x) in log && (second, x) !in log
    ensures x in SharedContents(log, second)
    ensures x !in OwnContents(log, second)
  {
    SharedContentsMembers(log, second, x);
    OwnContentsMembers(log, second, x);
  }

  /** Per instance: the appends made on `owner`, in order. This is what
      `Graph.Topology.AddNode` and `Traffics.Traffic.AddArrival` keep. */
  function OwnContents<T>(log: AppendLog<T>, owner: nat): seq<T> {
    if log == [] then []
    else (if log[0].0 == owner then [log[0].1] else []) + OwnContents(log[1..], owner)
  }

  /** Appending on `i` extends the contents of `i` alone. */
  lemma {:induction false} OwnContentsAppend<T>(log: AppendLog<T>, i: nat, x: T, owner: nat)
    ensures OwnContents(log + [(i, x)], owner) == OwnContents(log, owner) + (if i == owner then [x] else [])
    decreases |log|
  {
    if log != [] {
      assert (log + [(i, x)])[1..] == log[1..] + [(i, x)];
      OwnContentsAppend(log[1..], i, x, owner);
    }
  }

  /** An instance holds exactly what was appended on it. */
  lemma {:induction false} OwnContentsMembers<T>(log: AppendLog<T>, owner: nat, x: T)
    ensures x in OwnContents(log, owner) <==> (owner, x) in log
    decreases |log|
  {
    if log != [] {
      OwnContentsMembers(log[1..], owner, x);
      assert log == [log[0]] + log[1..];
    }
  }

  /** A child of a topology: a leaf by id, or another topology by number. */
  datatype Child = LeafChild(id: string) | TopologyChild(index: nat)

  /** Topology 1 is given a host, then topology 0 is given topology 1. With
      the class-level list, topology 1 lists both, itself included, so
      flattening it flattens itself again without end; per instance, it
      holds just its host. */
  lemma SharedListNestsItself()
    ensures var log: AppendLog<Child> := [(1, LeafChild("h")), (0, TopologyChild(1))];
            && SharedContents(log, 1) == [LeafChild("h"), TopologyChild(1)]
            && OwnContents(log, 1) == [LeafChild("h")]
  {
    var log: AppendLog<Child> := [(1, LeafChild("h")), (0, TopologyChild(1))];
    assert log[1..][1..] == [];
  }

  // -------------------------------------------- the shared default leaf table

  /** The ids of the host and switch elements of an XML document: those
      `__scan_leaves` registers. */
  function XmlDeclaredIds(e: Element): set<string>
    decreases e, 1
  {
    if e.tag == "topology" then XmlDeclaredIdsPrefix(e, |e.children|)
    else if (e.tag == "host" || e.tag == "switch") && ParseId(e).Ok? then {ParseId(e).value}
    else {}
  }

  function XmlDeclaredIdsPrefix(e: Element, n: nat): set<string>
    requires n <= |e.children|
    decreases e, 0, n
  {
    if n == 0 then {} else XmlDeclaredIdsPrefix(e, n - 1) + XmlDeclaredIds(e.children[n - 1])
  }

  /** Scanning from a table that already holds ids fails exactly when
      scanning from an empty one does, and otherwise ends with the old ids
      and the document's own. */
  lemma {:induction false} ScanXmlCarries(e: Element, kinds: map<string, LeafKind>)
    ensures ScanXml(e, kinds).Ok? <==> ScanXml(e, map[]).Ok?
    ensures ScanXml(e, kinds).Ok? ==> ScanXml(e, kinds).value.Keys == kinds.Keys + XmlDeclaredIds(e)
    decreases e, 1
  {
    if e.tag == "topology" {
      ScanXmlChildrenCarries(e, |e.children|, kinds);
      ScanXmlChildrenCarries(e, |e.children|, map[]);
    }
  }

  lemma {:induction false} ScanXmlChildrenCarries(e: Element, n: nat, kinds: map<string, LeafKind>)
    requires n <= |e.children|
    ensures ScanXmlChildren(e, n, kinds).Ok? <==> ScanXmlChildren(e, n, map[]).Ok?
    ensures ScanXmlChildren(e, n, kinds).Ok? ==>
              ScanXmlChildren(e, n, kinds).value.Keys == kinds.Keys + XmlDeclaredIdsPrefix(e, n)
    decreases e, 0, n
  {
    if n > 0 {
      ScanXmlChildrenCarries(e, n - 1, kinds);
      ScanXmlChildrenCarries(e, n - 1, map[]);
      var before := ScanXmlChildren(e, n - 1, kinds);
      var empty := ScanXmlChildren(e, n - 1, map[]);
      if before.Ok? {
        ScanXmlCarries(e.children[n - 1], before.value);
        ScanXmlCarries(e.children[n - 1], empty.value);
      }
    }
  }

  /** As written: `run` scans into the table earlier decodes left behind
      (`carried`), then parses against every id in it. */
  function StaleXmlDecode(e: Element, carried: map<string, LeafKind>): Result<TreeView> {
    match ScanXml(e, carried)
    case Err(err) => Err(err)
    case Ok(kinds) => ParseXml(e, kinds.Keys)
  }

  /** Every edge a parse accepts leads to one of the ids it was given. */
  lemma {:induction false} ParsedDestinations(e: Element, ids: set<string>)
    ensures ParseXml(e, ids).Ok? ==> DestinationsIn(ParseXml(e, ids).value, ids)
    decreases e, 2
  {
    if e.tag == "topology" {
      ParsedChildrenDestinations(e, |e.children|, ids);
    } else if (e.tag == "host" || e.tag == "switch") && ParseId(e).Ok? {
      var items := FindAll(e.children, "edge");
      ParsedEdgeDestinations(items, ParseId(e).value, ids);
      assert ParseXml(e, ids) == ParseXmlLeaf(e, ids);
    }
  }

  lemma {:induction false} ParsedChildrenDestinations(e: Element, n: nat, ids: set<string>)
    requires n <= |e.children|
    ensures var r := ParseXmlChildren(e, n, ids);
            r.Ok? ==> |r.value| == n && forall i | 0 <= i < n :: DestinationsIn(r.value[i], ids)
    decreases e, 0, n
  {
    if n > 0 {
      ParsedChildrenDestinations(e, n - 1, ids);
      ParsedDestinations(e.children[n - 1], ids);
    }
  }

  lemma {:induction false} ParsedEdgeDestinations(items: seq<Element>, sourceId: string, ids: set<string>)
    ensures var r := ParseEdgeElements(items, sourceId, ids);
            r.Ok? ==> forall k | 0 <= k < |r.value| :: r.value[k].destination in ids
    decreases |items|
  {
    if items != [] {
      ParsedEdgeDestinations(items[..|items| - 1], sourceId, ids);
    }
  }

  /** As written, a decode's edges may lead to any id some earlier decode
      registered as well as to the document's own leaves. */
  lemma StaleDecodeDestinations(e: Element, carried: map<string, LeafKind>)
    ensures StaleXmlDecode(e, carried).Ok? ==>
              DestinationsIn(StaleXmlDecode(e, carried).value, carried.Keys + XmlDeclaredIds(e))
  {
    ScanXmlCarries(e, carried);
    if ScanXml(e, carried).Ok? {
      ParsedDestinations(e, ScanXml(e, carried).value.Keys);
    }
  }

  /** With a fresh table, as `TopologyXml.XmlDecode` scans, every edge of a
      decoded document leads to a leaf that document declares. */
  lemma FreshDecodeSelfContained(e: Element)
    ensures ScanXml(e, map[]).Ok? ==> ScanXml(e, map[]).value.Keys == XmlDeclaredIds(e)
    ensures StaleXmlDecode(e, map[]).Ok? ==> DestinationsIn(StaleXmlDecode(e, map[]).value, XmlDeclaredIds(e))
  {
    StaleDecodeDestinations(e, map[]);
    ScanXmlCarries(e, map[]);
  }

  /** A host "a" is decoded, then a host "b" with an edge to "a": the table
      left by the first decode lets the second accept the edge, while a
      fresh table rejects it as an unknown destination. */
  lemma StaleTableAcceptsForeignEdge()
    ensures var first := ElementOf(VLeaf("a", Host, []));
            var second := ElementOf(VLeaf("b", Host, [EdgeView("a", 1)]));
            && ScanXml(first, map[]).Ok?
            && StaleXmlDecode(second, ScanXml(first, map[]).value) == Ok(VLeaf("b", Host, [EdgeView("a", 1)]))
            && StaleXmlDecode(second, map[]) == Err(ReferenceError)
  {
    var first := ElementOf(VLeaf("a", Host, []));
    var v := VLeaf("b", Host, [EdgeView("a", 1)]);
    var second := ElementOf(v);
    ScanXmlEncoded(VLeaf("a", Host, []), map[]);
    var carried := ScanXml(first, map[]).value;
    ScanXmlEncoded(v, carried);
    ScanXmlEncoded(v, map[]);
    ParseXmlEncoded(v, Registered(v, carried).Keys);
    assert ParseId(second) == Ok("b");
    FindAllEvery(second.children, "edge");
    EdgeEncoded("b", EdgeView("a", 1), Registered(v, map[]).Keys);
    assert second.children[..0] == [];
  }

  /** The ids of the Host and Switch records of a JSON document: those
      `__scan_leaves` registers. */
  function JsonDeclaredIds(data: Json): set<string>
    decreases data, 1
  {
    if !ValidateSchema(data, NodeSchema) then {}
    else if StrOf(data, "type", NodeSchema) == "Topology" then
      if ValidateSchema(data, TopologySchema) then JsonDeclaredIdsList(ListOf(data, "nodes", TopologySchema), data)
      else {}
    else if KindFromString(StrOf(data, "type", NodeSchema)).Some? then {StrOf(data, "id", NodeSchema)}
    else {}
  }

  function JsonDeclaredIdsList(items: seq<Json>, ghost parent: Json): set<string>
    requires forall k | 0 <= k < |items| :: items[k] < parent
    decreases parent, 0, |items|
  {
    if items == [] then {} else JsonDeclaredIds(items[0]) + JsonDeclaredIdsList(items[1..], parent)
  }

  /** The JSON scan, like the XML one, fails regardless of the table it
      starts from, and otherwise adds the document's own ids to it. */
  lemma {:induction false} ScanKindsCarries(data: Json, kinds: map<string, LeafKind>)
    ensures ScanKinds(data, kinds).Ok? <==> ScanKinds(data, map[]).Ok?
    ensures ScanKinds(data, kinds).Ok? ==> ScanKinds(data, kinds).value.Keys == kinds.Keys + JsonDeclaredIds(data)
    decreases data, 1
  {
    if ValidateSchema(data, NodeSchema) && StrOf(data, "type", NodeSchema) == "Topology"
       && ValidateSchema(data, TopologySchema) {
      var items := ListOf(data, "nodes", TopologySchema);
      ScanKindsListCarries(items, kinds, data);
      ScanKindsListCarries(items, map[], data);
    }
  }

  lemma {:induction false} ScanKindsListCarries(items: seq<Json>, kinds: map<string, LeafKind>, parent: Json)
    requires forall k | 0 <= k < |items| :: items[k] < parent
    ensures ScanKindsList(items, kinds, parent).Ok? <==> ScanKindsList(items, map[], parent).Ok?
    ensures ScanKindsList(items, kinds, parent).Ok? ==>
              ScanKindsList(items, kinds, parent).value.Keys == kinds.Keys + JsonDeclaredIdsList(items, parent)
    decreases parent, 0, |items|
  {
    if items != [] {
      ScanKindsCarries(items[0], kinds);
      ScanKindsCarries(items[0], map[]);
      var next := ScanKinds(items[0], kinds);
      var empty := ScanKinds(items[0], map[]);
      if next.Ok? {
        ScanKindsListCarries(items[1..], next.value, parent);
        ScanKindsListCarries(items[1..], empty.value, parent);
        ScanKindsListCarries(items[1..], map[], parent);
      }
    }
  }

  /** As written: the JSON table a decode parses against, starting from
      what earlier decodes left behind. */
  function StaleJsonTable(data: Json, carried: map<string, LeafKind>): Result<map<string, LeafKind>> {
    ScanKinds(data, carried)
  }

  /** With a fresh table, as `TopologyJson.Decode` scans, the table holds
      exactly the document's own leaf ids. */
  lemma FreshJsonTableOwnIds(data: Json)
    ensures ScanKinds(data, map[]).Ok? ==> ScanKinds(data, map[]).value.Keys == JsonDeclaredIds(data)
  {
    ScanKindsCarries(data, map[]);
  }

  /** A record of leaf "a" is decoded, then one of leaf "b": the table the
      second decode parses against still holds "a", which the second
      document never declares, so a "b" edge to "a" would resolve. */
  lemma StaleJsonTableKeepsForeignLeaf()
    ensures var first := NodeRecord(VLeaf("a", Host, []));
            var second := NodeRecord(VLeaf("b", Host, []));
            && ScanKinds(first, map[]).Ok?
            && StaleJsonTable(second, ScanKinds(first, map[]).value).Ok?
            && "a" in StaleJsonTable(second, ScanKinds(first, map[]).value).value
            && ScanKinds(second, map[]).Ok? && "a" !in ScanKinds(second, map[]).value
  {
    ScanEncoded(VLeaf("a", Host, []), map[]);
    var carried := ScanKinds(NodeRecord(VLeaf("a", Host, [])), map[]).value;
    ScanEncoded(VLeaf("b", Host, []), carried);
    ScanEncoded(VLeaf("b", Host, []), map[]);
  }
}
