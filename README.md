# gensim generation core, modelled in Dafny

gensim (package `nsim`) generates network simulations for OMNeT++ and INET.
It builds a **topology** and a **traffic** description. A topology is a tree
of `Topology` containers over `Leaf` devices (hosts and switches), and each
leaf owns its directed, bandwidth-labelled `Edge`s. Traffic is a list of
timed `Arrival`s (a source leaf, a destination leaf and a size in bytes).

This project models the generation side:

- **Graph model.** Leaves with per-instance edge lists, topologies with
  per-instance child lists, and flattening to the leaf sequence (`graph.dfy`,
  with value views in `views.dfy`).
- **Traversal.** A breadth-first search from every leaf gives the set of
  leaves it can reach. A route is sampled by drawing sources until one can
  reach something, then choosing a destination it reaches (`traversal.dfy`).
- **Arrivals and traffic.** An arrival with no size, or size 0, gets a random
  size in [512, 1500]. Arrivals are appended to a traffic (`traffic.dfy`).
- **Topology generators.** Mesh pairs every two leaves exactly once. Star adds
  a switch centre and pairs it with every existing node
  (`topology_generators.dfy`).
- **Traffic generators.** Constant, Poisson and Train (`traffic_generators.dfy`).
  The train schedule's shape and its properties are in `train_schedule.dfy`.
- **Topology codecs.**
  - JSON: the leaf scan, the recursive decode, and the encoder's records
    (`topology_json.dfy`).
  - XML: the same three parts (`topology_xml.dfy`).
  - The document values the decoders read are in `documents.dfy`.
- **Traffic codecs.** The JSON and XML decoders and encoders, with their round
  trips (`traffic_json.dfy`, `traffic_xml.dfy`). Decimal text for integers is
  in `decimal.dfy`.
- **INET emitter.** The NED import, submodule and connection lines, including
  the reverse-link de-duplication and the nearest Ethernet channel class, and
  the `omnetpp.ini` application lines (`inet.dfy`).
- **LatencyRateNode.** The OMNeT++ module that forwards a message once it has
  waited its latency and its size over the rate, never before the previous
  departure (`latency_rate.dfy`).
- **Defects.** The defects found in the source are in `findings.dfy`.

Randomness is a parameter. Each draw is an oracle function indexed by its
position:
- `draws(k, j)` is the j-th source drawn for the k-th route;
- `sizes(k)` is the k-th random size;
- `gaps(k)` is the k-th exponential gap;
- `TrainDraws` holds the train lengths, the gaps between trains and the gaps
  between cars.

Printing is a `lines` field that the emitter appends to. The fatal exit of a
parse error, or of a topology without routes, is an `Err` result.

Where the code and its design notes disagree, the model follows the code:
- **Constant generator.** The first arrival is at time `rate`, and the clock
  then advances by `rate`, not by `1/rate` (nsim/traffic/generators/constant.py:25-28).
- **Train generator.** The first car whose time passes `duration` ends the
  whole run. The clock then already exceeds `duration`, so no later train
  starts (nsim/traffic/generators/train.py:53-57).
- **Case of leaf types.**
  - The JSON decoder builds a node only for the exact types `Topology`,
    `Host` and `Switch`.
  - The JSON encoder writes the enum values `HOST` and `SWITCH`.
  - The XML reader and writer use the lower-case tags.
- **XML leaf objects.** The XML decoder builds new leaf objects while it
  parses. Their edges point at the leaves of the scan table, not at the leaves
  of the returned tree (nsim/topology/inputs/xml.py:28, 42).

## Model

| member | source | states |
|---|---|---|
| Decimal.NatToString | nsim/traffic/outputs/xml.py:15 | the text of a natural number is non-empty, all digits, at least two digits exactly from 10 on, and has no leading zero |
| Decimal.IntToString | nsim/topology/outputs/xml.py:27 | `str` of an integer is non-empty and starts with a minus sign exactly when the integer is negative |
| Decimal.ParseInt | nsim/traffic/inputs/xml.py:16 | integer conversion succeeds only on non-empty text (its full meaning is the round trip below) |
| Decimal.NatToStringValue | nsim/traffic/outputs/xml.py:15 | the digits written for `n` have decimal value `n` |
| Decimal.IntToStringRoundTrip | nsim/topology/inputs/xml.py:35 | converting `str(i)` back with `int` gives `i` for every integer |
| Decimal.IntToStringInjective | nsim/topology/models/edge.py:21 | two integers with the same text are equal |
| Documents.Get | nsim/topology/inputs/json.py:60 | a key lookup in a JSON object returns a value that occurs under that key and is smaller than the object |
| Documents.Find | nsim/topology/inputs/json.py:60 | a lookup of a JSON field or an XML attribute finds an entry with that key, or reports absence exactly when no entry has the key |
| Documents.FindFirst | nsim/topology/inputs/json.py:60 | a lookup returns the value of the first entry with the key |
| Documents.ListOf | nsim/topology/inputs/json.py:64 | every item of a validated list field is smaller than the record that holds it, so recursion on items ends |
| Documents.ValidateSchemaOne | nsim/topology/inputs/json.py:31-33 | supporting lemma for the decoders' schema tests: a record with a key of the right type satisfies the one-field schema |
| Documents.ValidateSchemaJoin | nsim/topology/inputs/json.py:35-41 | supporting lemma: a record satisfying two schemas satisfies their concatenation, which is how the topology and leaf schemas extend the node schema |
| Documents.KindFromString | nsim/topology/inputs/xml.py:28 | a type string names Host exactly for its three spellings, and Switch exactly for its three spellings |
| Documents.KindTag | nsim/topology/outputs/xml.py:33 | the lower-case tag the XML encoder writes for a kind is read back as that kind |
| Documents.FindAll | nsim/topology/inputs/xml.py:29 | `findall(tag)` returns only children with that tag, and every such child |
| Documents.FindAllEvery | nsim/traffic/inputs/xml.py:24 | when every child has the tag, `findall` returns all children in order |
| Documents.Convert | nsim/traffic/inputs/xml.py:11-17 | a converted attribute has the type the schema asks for |
| Documents.ParseAttributes | nsim/traffic/inputs/xml.py:18 | attribute parsing yields one value per schema entry, each of the entry's type, and fails only with a validation error |
| Documents.ParseAttributesSpec | nsim/traffic/inputs/xml.py:18 | attribute parsing succeeds exactly when every schema attribute is present and converts, and then value k is attribute k converted |
| Documents.ParseAttributesCons | nsim/topology/inputs/xml.py:35 | a schema parses to its first converted attribute followed by the parse of the remaining schema |
| Documents.ParseId | nsim/topology/inputs/xml.py:16 | the id of an element is read exactly when it has an `id` attribute, and it is that attribute |
| Graph.KindValue | nsim/topology/models/leaf.py:9-11 | every leaf type has a non-empty enum value |
| Graph.EdgeIdBandwidth | nsim/topology/models/edge.py:21 | an edge id ends with the decimal text of its bandwidth, after the two endpoint ids and two separators |
| Graph.EdgeIdIgnoresIdentity | nsim/topology/models/edge.py:20-21 | supporting lemma: an edge id depends only on the endpoint ids and the bandwidth, not on which leaf objects they are |
| Graph.Leaf.constructor | nsim/topology/models/leaf.py:22-25 | a new leaf has the given id and type and no edges |
| Graph.Leaf.AddEdge | nsim/topology/models/leaf.py:30-36 | adding an edge appends exactly that edge to this leaf and leaves the destination's edges alone |
| Graph.NodeFlattenMembers | nsim/topology/models/leaf.py:27-28 | flattening a node yields exactly the leaves it holds, and a leaf flattens to itself alone |
| Graph.ConcatAppend | nsim/topology/models/topology.py:18-22 | extending the flattened list by one more child's leaves appends them at the end |
| Graph.Topology.constructor | nsim/topology/models/topology.py:5-10 | a new topology has the given id and its own empty child list (the corrected per-instance list) |
| Graph.Topology.Flatten | nsim/topology/models/topology.py:18-22 | every flattened leaf belongs to the topology's leaf set |
| Graph.Topology.FlattenFrom | nsim/topology/models/topology.py:20-21 | the leaves flattened from child i onward belong to the leaf set |
| Graph.Topology.FlattenFromContains | nsim/topology/models/topology.py:20-21 | a leaf is flattened from child i onward exactly when a later child is that leaf or a topology containing it |
| Graph.Topology.FlattenContains | nsim/topology/models/topology.py:18-22 | a leaf is in the flattened list exactly when the topology contains it at some depth |
| Graph.Topology.PartsFrom | nsim/topology/models/topology.py:20-21 | the per-child leaf lists from child i onward are the children's flattenings, one per child |
| Graph.Topology.FlattenFromParts | nsim/topology/models/topology.py:18-22 | flattening from child k is the concatenation of the children's flattenings from k |
| Graph.Topology.FlattenAppended | nsim/topology/models/topology.py:12-22 | after a node is appended, the flattening is the old children's leaves followed by the new node's leaves |
| Graph.Topology.ChildrenUnchanged | nsim/topology/models/topology.py:12-13 | appending a child changes none of the existing children or their flattenings |
| Graph.Topology.ShapesKept | nsim/topology/models/topology.py:12-13 | appending a child keeps the shapes of the existing children |
| Graph.Topology.AddNode | nsim/topology/models/topology.py:12-13 | adding a node appends it to this topology's own children, and the flattening grows by exactly that node's leaves |
| Graph.Topology.Appended | nsim/topology/models/topology.py:12-22 | a topology whose child list grew by one well-formed node stays valid and flattens to the old leaves plus the new node's leaves |
| Graph.ShapesFrom | nsim/topology/models/topology.py:15-16 | the shapes of a topology's children from i onward are listed one per child, in order |
| Graph.KindsOf | nsim/topology/inputs/json.py:79-92 | the type table of a leaf table has exactly the same ids |
| Views.EdgeViewsAppend | nsim/topology/models/leaf.py:30-36 | supporting lemma for the XML round trip: adding an edge appends its destination id and bandwidth to the view |
| Views.ViewsFrom | nsim/topology/models/topology.py:15-16 | the value views of the children from i onward are listed one per child, in order |
| Views.RegisteredKeys | nsim/topology/inputs/json.py:79-92 | scanning a tree adds exactly its leaf ids to the table |
| Views.RegisteredListKeys | nsim/topology/inputs/json.py:88-89 | scanning children i onward adds exactly their leaf ids |
| Routing.ReachesSelf | nsim/traffic/models/traversal.py:22-24 | the search starts from the leaf itself |
| Routing.ReachesStep | nsim/traffic/models/traversal.py:27-30 | a destination of an edge out of a reached leaf is reached |
| Routing.PathStaysIn | nsim/traffic/models/traversal.py:26-30 | a walk along edges that starts in an edge-closed set stays in it, which is why the search finds nothing more |
| Routing.Reach | nsim/traffic/models/traversal.py:21-33 | the breadth-first search returns exactly the leaves reachable from the leaf along edges, excluding the leaf itself |
| Routing.WalkHasExit | nsim/traffic/models/traversal.py:37-38 | a walk that reaches some other leaf starts with an edge out |
| Routing.ReachableNonEmpty | nsim/traffic/models/traversal.py:37-38 | a leaf is a valid source exactly when it has an edge to another leaf |
| Routing.SearchEach | nsim/traffic/models/traversal.py:21-33 | the reachability table has one entry per leaf, each the leaf's reachable set |
| Routing.AnyValidSource | nsim/traffic/models/traversal.py:35 | `has_route` is true exactly when some leaf can reach another |
| Routing.Traversal.constructor | nsim/traffic/models/traversal.py:16-35 | a traversal holds the flattened leaves, each leaf's reachable set and the has-route flag |
| Routing.Traversal.HasRouteIffSomeExit | nsim/traffic/models/traversal.py:35-38 | a traversal has a route exactly when some leaf has an edge to a different leaf |
| Routing.Traversal.GetRandomRoute | nsim/traffic/models/traversal.py:40-52 | sampling fails exactly when there is no route; otherwise the source is the first drawn valid source and the destination is a leaf it reaches |
| Routing.Traversal.SampledRouteReaches | nsim/traffic/models/traversal.py:44-52 | a sampled route joins a leaf of the topology to a different leaf that it reaches along edges |
| Traffics.NewArrival | nsim/traffic/models/arrival.py:16-29 | an arrival keeps the given time and endpoints and a given non-zero size; a missing or zero size becomes a random size in [512, 1500], so no size is zero |
| Traffics.ArrivalIdSize | nsim/traffic/models/arrival.py:25 | an arrival id ends with the decimal text of its size |
| Traffics.Traffic.constructor | nsim/traffic/models/traffic.py:6-11 | a new traffic has the given id and its own empty arrival list (the corrected per-instance list) |
| Traffics.Traffic.AddArrival | nsim/traffic/models/traffic.py:13-14 | an arrival is appended to this traffic's own list |
| Traffics.Traffic.AddRandomArrival | nsim/traffic/models/traffic.py:16-20 | a random arrival fails exactly when there is no route; otherwise it appends one arrival along a sampled route with a random size |
| Traffics.SampledArrivalRouted | nsim/traffic/models/traffic.py:16-20 | a random arrival goes from a topology leaf to a leaf reachable from it |
| TrafficGenerators.FairDrawsFair | nsim/traffic/models/traversal.py:44-48 | if every route draw eventually hits a valid source, then every sampling terminates |
| TrafficGenerators.SampledGenerated | nsim/traffic/models/traffic.py:16-20 | arrivals drawn from a traversal are generated traffic: each has its drawn size and a reachable route |
| TrafficGenerators.Prepare | nsim/traffic/generators/constant.py:22-23 | the generator's traversal covers the node's flattened leaves and has a route exactly when the topology does |
| TrafficGenerators.AddSampled | nsim/traffic/generators/constant.py:27 | one arrival step appends an arrival at the given time exactly when there is a route, and keeps every arrival drawn |
| TrafficGenerators.PrefixSumMonotone | nsim/traffic/generators/poisson.py:27-30 | with non-negative gaps, the clock never goes back |
| TrafficGenerators.RenewalPrefixAppend | nsim/traffic/generators/poisson.py:28-30 | an arrival at the next clock value before the end extends the schedule |
| TrafficGenerators.RenewalRun | nsim/traffic/generators/poisson.py:27-30 | the clock loop puts arrival k at the sum of the first k+1 gaps, for every such sum below the duration, and stops at the first sum that reaches it; it fails exactly when an arrival is due and there is no route |
| TrafficGenerators.RenewalCount | nsim/traffic/generators/poisson.py:27-30 | the k-th clock value is below the duration exactly when there are at least k arrivals |
| TrafficGenerators.RenewalNonDecreasing | nsim/traffic/generators/poisson.py:27-30 | arrival times never decrease |
| TrafficGenerators.SteadySum | nsim/traffic/generators/constant.py:25-28 | with a constant step the clock after k steps is k times the step |
| TrafficGenerators.Archimedean | nsim/traffic/generators/constant.py:26 | a positive step eventually reaches any duration, so the loop ends |
| TrafficGenerators.Constant | nsim/traffic/generators/constant.py:11-30 | the constant generator emits arrivals at rate, 2·rate, … below the duration, each along a reachable route with its drawn size, into a traffic named after the node |
| TrafficGenerators.ConstantCount | nsim/traffic/generators/constant.py:25-28 | the constant generator emits exactly the k with k·rate below the duration |
| TrafficGenerators.ConstantIncreasing | nsim/traffic/generators/constant.py:25-28 | consecutive constant arrivals are exactly one step apart |
| TrafficGenerators.Poisson | nsim/traffic/generators/poisson.py:13-48 | the Poisson generator emits one arrival at each partial sum of the exponential gaps below the duration, each along a reachable route |
| TrafficGenerators.SampledFound | nsim/traffic/models/traversal.py:50-52 | a sampled route starts at a traversal leaf and ends in its reachable set |
| TrafficGenerators.TrainDrawn | nsim/traffic/generators/train.py:48-56 | train arrivals whose routes were all sampled are generated traffic |
| TrafficGenerators.AddCar | nsim/traffic/generators/train.py:56 | adding a car keeps the train schedule's shape and appends an arrival at the car's time |
| TrafficGenerators.RunTrain | nsim/traffic/generators/train.py:51-55 | a train's car loop emits its cars, ending either with the last car or with a car past the duration |
| TrafficGenerators.MoreCars | nsim/traffic/generators/train.py:51-55 | the cars after the first follow one car gap each until the train is full or a car falls past the duration |
| TrafficGenerators.NextTrain | nsim/traffic/generators/train.py:57 | after a train, the next train starts one train gap after the last time |
| TrafficGenerators.TrainStep | nsim/traffic/generators/train.py:47-57 | one train samples one route and emits its cars, failing exactly when there is no route |
| TrafficGenerators.TrainRun | nsim/traffic/generators/train.py:46-59 | the train loop produces a schedule of trains, each sharing one sampled route, and ends as the source ends |
| TrafficGenerators.Train | nsim/traffic/generators/train.py:15-59 | the train generator produces a well-shaped schedule with reachable routes, into a traffic named after the node, and fails exactly when a train is due and there is no route |
| TrainSchedules.ResumeEnd | nsim/traffic/generators/train.py:47 | supporting lemma for `TrafficGenerators.TrainRun`: the loop stops at the schedule's end |
| TrainSchedules.ShapeAppend | nsim/traffic/generators/train.py:56 | a car that follows the last one extends the schedule |
| TrainSchedules.ShapeNewRoute | nsim/traffic/generators/train.py:48 | sampling a new route keeps the schedule so far |
| TrainSchedules.TrainsInOrder | nsim/traffic/generators/train.py:46-57 | later arrivals belong to the same or a later train |
| TrainSchedules.TrainNonDecreasing | nsim/traffic/generators/train.py:53-57 | arrival times never decrease |
| TrainSchedules.TrainConsecutive | nsim/traffic/generators/train.py:48-56 | arrivals of one train share its source and destination and are consecutive cars |
| TrainSchedules.TrainLengthBound | nsim/traffic/generators/train.py:51 | no train has more than `max_train_length` cars |
| LatencyRate.SendTime | omnet/nodes/LatencyRateNode.cc:32 | a departure is no earlier than arrival + latency + size/rate, no earlier than the previous departure + size/rate, and equals one of them |
| LatencyRate.LatencyRateNode.constructor | omnet/nodes/LatencyRateNode.cc:20-25 | a node starts with its latency and rate and a previous send time of 0 |
| LatencyRate.LatencyRateNode.HandleMessage | omnet/nodes/LatencyRateNode.cc:27-38 | a self-message is forwarded, an analyzer message is scheduled at its send time which becomes the previous send time, and anything else is deleted |
| LatencyRate.Departures | omnet/nodes/LatencyRateNode.cc:32-33 | a stream of messages gets one departure each |
| LatencyRate.DeparturesInOrder | omnet/nodes/LatencyRateNode.cc:32-33 | departures never precede the starting time and never overtake each other (FIFO) |
| LatencyRate.DeparturesAfterArrival | omnet/nodes/LatencyRateNode.cc:32 | each message departs no earlier than its arrival plus latency plus its transmission time |
| TopologyGenerators.Mesh | nsim/topology/generators/mesh.py:39-46 | the mesh generator connects the pairs of the pop-and-pair loop over the topology's nodes |
| TopologyGenerators.MeshCallCount | nsim/topology/generators/mesh.py:41-44 | n nodes give n(n−1)/2 connect calls |
| TopologyGenerators.MeshCallMembers | nsim/topology/generators/mesh.py:41-44 | (x, y) is connected exactly when x comes after y in the node list |
| TopologyGenerators.PairWithCount | nsim/topology/generators/mesh.py:43-44 | pairing a node with a list yields each pair as often as the partner occurs |
| TopologyGenerators.MeshCallsOnce | nsim/topology/generators/mesh.py:41-44 | with distinct nodes, every unordered pair is connected exactly once, in one direction |
| TopologyGenerators.DistinctCount | nsim/topology/generators/mesh.py:40 | a node of a list of distinct nodes occurs once |
| TopologyGenerators.MeshNoSelfCalls | nsim/topology/generators/mesh.py:42-44 | no node is connected to itself |
| TopologyGenerators.Star | nsim/topology/generators/star.py:18-24 | the star generator creates a switch named `<name>-center`, connects it to every existing node, and then adds it as the last child |
| TopologyJson.ScanLeaves | nsim/topology/inputs/json.py:79-92 | the JSON scan registers a new edgeless leaf for every non-topology record, keeps existing ones, and fails as the type scan does |
| TopologyJson.EdgesForAppend | nsim/topology/inputs/json.py:72-74 | the edges added to a leaf by two parts of a decode are those of the first part followed by the second |
| TopologyJson.EdgesForExtend | nsim/topology/inputs/json.py:72-74 | appending a later part's edges to a leaf is the same as adding the joined parts at once |
| TopologyJson.ParseListNext | nsim/topology/inputs/json.py:64-65 | decoding children from i is decoding child i, then the rest, stopping at the first failure |
| TopologyJson.ParseEdgesNext | nsim/topology/inputs/json.py:72-74 | decoding edges from i is decoding edge i, then the rest, stopping at the first failure |
| TopologyJson.ParseNode | nsim/topology/inputs/json.py:58-77 | the JSON node decoder succeeds exactly when the record decodes; it builds fresh topologies over the scanned leaves, and adds to each leaf exactly the edges its record lists |
| TopologyJson.ParseTopology | nsim/topology/inputs/json.py:60-66 | a topology record decodes to a fresh topology whose children are its decoded nodes, in order |
| TopologyJson.ParseChildren | nsim/topology/inputs/json.py:64-65 | the child loop adds each decoded child in order, or stops with the first error |
| TopologyJson.ParseChild | nsim/topology/inputs/json.py:65 | one child record is decoded and appended to the topology, or its error is returned |
| TopologyJson.AddChild | nsim/topology/inputs/json.py:65 | `add_node` appends the child's shape after the existing ones |
| TopologyJson.ParseLeaf | nsim/topology/inputs/json.py:68-75 | a leaf record returns its scanned leaf with exactly the record's edges appended, or the first edge error |
| TopologyJson.AppendEdge | nsim/topology/inputs/json.py:73-74 | an edge record with a known destination adds that edge to the leaf; an unknown endpoint is a reference error |
| TopologyJson.Decode | nsim/topology/inputs/json.py:94-97 | a JSON topology decode scans into a fresh table and then decodes against it; every leaf of the result is a fresh table leaf carrying exactly its listed edges |
| TopologyJson.RecordFields | nsim/topology/outputs/json.py:13-47 | an encoded record carries its type, its id and its list, and satisfies the node, topology and leaf schemas |
| TopologyJson.ScanEncoded | nsim/topology/outputs/json.py:27-47 | scanning an encoded tree registers exactly its leaves with their types |
| TopologyJson.ScanLeafRecord | nsim/topology/inputs/json.py:90-91 | scanning a leaf record registers its id with its type |
| TopologyJson.ScanEncodedList | nsim/topology/outputs/json.py:35-41 | scanning the encoded children registers their leaves |
| TopologyJson.EncodedLeafRejected | nsim/topology/inputs/json.py:68 | the decoder rejects every leaf record the encoder writes, because the encoder writes `HOST`/`SWITCH` and the decoder accepts `Host`/`Switch` |
| TopologyXml.ScanXmlFailureKept | nsim/topology/inputs/xml.py:64-65 | a failed child scan fails the whole scan |
| TopologyXml.ScanXmlLeaves | nsim/topology/inputs/xml.py:57-69 | the XML scan registers a new edgeless leaf for every host and switch element, keeps existing ones, and fails as the tag scan does |
| TopologyXml.EdgeStep | nsim/topology/inputs/xml.py:29-42 | the edge loop processes edge elements one at a time, stopping at the first failure |
| TopologyXml.EdgeFailureKept | nsim/topology/inputs/xml.py:29-42 | a failed edge fails the leaf |
| TopologyXml.ChildFailureKept | nsim/topology/inputs/xml.py:18-19 | a failed child fails the topology |
| TopologyXml.ParseXmlNode | nsim/topology/inputs/xml.py:45-55 | the XML node decoder succeeds exactly when the element decodes, to a fresh node whose edges point into the scan table |
| TopologyXml.ParseTopologyElement | nsim/topology/inputs/xml.py:11-20 | a topology element decodes to a fresh topology with its decoded children in order |
| TopologyXml.ParseChildElements | nsim/topology/inputs/xml.py:18-19 | the child loop adds each decoded child element in order, or stops with the first error |
| TopologyXml.ParseChildElement | nsim/topology/inputs/xml.py:19 | one child element is decoded and appended, or its error is returned |
| TopologyXml.AddXmlChild | nsim/topology/inputs/xml.py:19 | `add_node` appends the child's view after the existing ones |
| TopologyXml.ParseLeafElement | nsim/topology/inputs/xml.py:22-43 | a host or switch element decodes to a fresh leaf with its edge elements in order, pointing into the table |
| TopologyXml.AppendEdgeElement | nsim/topology/inputs/xml.py:35-42 | an edge element from this leaf to a known leaf adds that edge; a mismatched source is a validation error and an unknown destination is a reference error |
| TopologyXml.XmlDecode | nsim/topology/inputs/xml.py:71-74 | an XML topology decode scans into a fresh table and decodes against it; the returned leaves are new objects whose edges point into the table, whose leaves stay edgeless |
| TopologyXml.ScanXmlEncoded | nsim/topology/outputs/xml.py:32-50 | scanning an encoded tree registers exactly its leaves with their types |
| TopologyXml.ScanXmlEncodedChildren | nsim/topology/outputs/xml.py:38-43 | scanning the first n encoded children registers their leaves |
| TopologyXml.RegisteredPrefixAll | nsim/topology/inputs/xml.py:63-65 | scanning children in two parts equals scanning them all |
| TopologyXml.ParseXmlEncoded | nsim/topology/outputs/xml.py:45-50 | an encoded tree whose destinations are known decodes back to itself |
| TopologyXml.ParseXmlEncodedTopology | nsim/topology/outputs/xml.py:38-43 | an encoded topology decodes back to itself |
| TopologyXml.ParseXmlEncodedLeaf | nsim/topology/outputs/xml.py:32-36 | an encoded leaf decodes back to itself |
| TopologyXml.ParseXmlEncodedChildren | nsim/topology/outputs/xml.py:41-42 | the first n encoded children decode back to themselves |
| TopologyXml.EdgeEncoded | nsim/topology/outputs/xml.py:23-30 | an encoded edge decodes back to itself exactly when its destination is known |
| TopologyXml.EdgeAttributesConvert | nsim/topology/inputs/xml.py:30-35 | an edge element with source, destination and integer bandwidth parses to those values |
| TopologyXml.ParseEdgesEncoded | nsim/topology/outputs/xml.py:34-35 | the encoded edges of a leaf decode back to its edges |
| TopologyXml.XmlRoundTrip | nsim/topology/inputs/xml.py:71-74 | a self-contained topology written as XML scans to exactly its leaf ids and decodes back to the same tree |
| TrafficJson.MakeTrafficData | nsim/traffic/outputs/json.py:19-25 | the JSON encoder writes a Traffic record with its id and one Arrival record per arrival, in order |
| TrafficJson.ParseArrival | nsim/traffic/inputs/json.py:33-41 | an arrival record decodes exactly when it fits the arrival schema with type `Arrival`; otherwise it is an unsupported-type error |
| TrafficJson.ParseArrivals | nsim/traffic/inputs/json.py:46-47 | a list of arrival records decodes exactly when each one does, to the decoded arrivals in order |
| TrafficJson.ParseTraffic | nsim/traffic/inputs/json.py:43-50 | the JSON traffic decoder returns a fresh traffic with the record's id and arrivals exactly when the record decodes |
| TrafficJson.AddArrivals | nsim/traffic/inputs/json.py:46-47 | the arrival loop appends every decoded arrival in order, or stops with an unsupported-type error |
| TrafficJson.ArrivalFields | nsim/traffic/outputs/json.py:11-17 | an encoded arrival carries its type, id, time, endpoints and size, and satisfies the arrival schema |
| TrafficJson.ParseArrivalData | nsim/traffic/inputs/json.py:33-40 | an encoded arrival decodes to the arrival rebuilt from its fields |
| TrafficJson.TrafficFields | nsim/traffic/outputs/json.py:19-25 | an encoded traffic is a Traffic record with its id and its arrival list |
| TrafficJson.JsonRoundTrip | nsim/traffic/inputs/json.py:43-50 | JSON traffic with non-zero sizes decodes back to the same id and arrivals, whatever arrival ids were written |
| TrafficJson.ParseEveryArrival | nsim/traffic/inputs/json.py:46-47 | records that each decode to their arrival decode together to the list |
| TrafficJson.ZeroSizeRedrawn | nsim/traffic/models/arrival.py:23 | an arrival written with size 0 comes back with a random size instead |
| TrafficXml.MakeTrafficElement | nsim/traffic/outputs/xml.py:20-27 | the XML encoder writes a traffic element with its id and one arrival element per arrival, in order |
| TrafficXml.ParseArrivalElement | nsim/traffic/inputs/xml.py:10-19 | an arrival element decodes exactly when its attributes parse; otherwise it is a validation error |
| TrafficXml.ParseArrivalElements | nsim/traffic/inputs/xml.py:24-25 | a list of arrival elements decodes exactly when each one does, to the decoded arrivals in order |
| TrafficXml.XmlParseTraffic | nsim/traffic/inputs/xml.py:21-26 | the XML traffic decoder returns a fresh traffic with the element's id and arrivals exactly when the element decodes |
| TrafficXml.ArrivalAttribute | nsim/traffic/outputs/xml.py:10-18 | every attribute written on an arrival element is found under its name |
| TrafficXml.ParseArrivalElementWith | nsim/traffic/inputs/xml.py:10-19 | an encoded arrival whose time text parses back decodes to the arrival rebuilt from its fields |
| TrafficXml.ArrivalAttributesParsed | nsim/traffic/inputs/xml.py:11-18 | the attributes of an encoded arrival parse to its id, time, endpoints and size |
| TrafficXml.AttributesConvert | nsim/traffic/inputs/xml.py:11-18 | an element with the five arrival attributes, whose texts convert, parses to those values |
| TrafficXml.ArrivalElementsParsed | nsim/traffic/outputs/xml.py:25-26 | every encoded arrival with non-zero size decodes back to itself |
| TrafficXml.XmlRoundTrip | nsim/traffic/inputs/xml.py:21-26 | XML traffic with non-zero sizes, whose time texts parse back, decodes to the same id and arrivals |
| TrafficXml.TrafficElementParts | nsim/traffic/outputs/xml.py:20-27 | an encoded traffic has its id attribute and one arrival child per arrival, all found by `findall("arrival")` |
| TrafficXml.ParseEveryArrivalElement | nsim/traffic/inputs/xml.py:24-25 | elements that each decode to their arrival decode together to the list |
| TrafficXml.RootTagIgnored | nsim/traffic/inputs/xml.py:21-23 | the decoder never looks at the root element's tag |
| Inet.NearestFrom | nsim/topology/outputs/inet.py:54 | the chosen class is one whose rate is closest to the bandwidth, and the first such in table order |
| Inet.NearestEthTie | nsim/topology/outputs/inet.py:43-55 | worked instance of `Inet.NearestFrom`: a bandwidth exactly between 10G and 40G gets Eth40G, the class listed first |
| Inet.NearestEthExact | nsim/topology/outputs/inet.py:43-55 | a bandwidth equal to a class rate gets that class |
| Inet.NearestEthBelow | nsim/topology/outputs/inet.py:51-54 | every bandwidth up to 10 Mb/s gets Eth10M |
| Inet.ImportLines | nsim/topology/outputs/inet.py:5-16 | the NED preamble has the configurator import, one import per Ethernet class and the node import |
| Inet.NearestEthImported | nsim/topology/outputs/inet.py:7-16 | the channel class of every link is imported |
| Inet.SubmoduleLines | nsim/topology/outputs/inet.py:22-23 | there is one submodule line per leaf |
| Inet.SubmodulesDeclareIds | nsim/topology/outputs/inet.py:18-23 | submodule line k declares leaf k and the configurator lines declare no node |
| Inet.LinksOf | nsim/topology/outputs/inet.py:36-37 | the emitter sees each leaf's id and its edges' destinations and bandwidths, in order |
| Inet.LeafCandidates | nsim/topology/outputs/inet.py:37-39 | each edge of a leaf offers one candidate link |
| Inet.CandidatesPrefix | nsim/topology/outputs/inet.py:36-39 | the candidates of the first leaves come first among all candidates |
| Inet.CandidatesAt | nsim/topology/outputs/inet.py:36-39 | leaf i's edges are the candidates right after those of the earlier leaves |
| Inet.SeenIsReversed | nsim/topology/outputs/inet.py:41-42 | the seen set holds the reverses of the links emitted so far |
| Inet.EmittedIff | nsim/topology/outputs/inet.py:41-42 | a link is emitted exactly when no earlier emitted link is its reverse |
| Inet.ReverseSkipped | nsim/topology/outputs/inet.py:41-42 | the reverse of an emitted link is skipped |
| Inet.ParallelKept | nsim/topology/outputs/inet.py:41-42 | a link with no earlier reverse is emitted, including a duplicate in the same direction |
| Inet.DedupeExample | nsim/topology/outputs/inet.py:35-42 | worked instance of `Inet.EmittedIff`: a, b, then a, b again, then b, a keeps both a-to-b links and drops the reverse |
| Inet.LinkLines | nsim/topology/outputs/inet.py:55 | one connection line per kept link |
| Inet.LinkLinesAppend | nsim/topology/outputs/inet.py:55 | emitting one more link appends its line |
| Inet.EntryLines | nsim/topology/outputs/inet.py:27-28 | one entry line per leaf |
| Inet.ExitLines | nsim/topology/outputs/inet.py:31-32 | one exit line per leaf |
| Inet.LinksJoinDeclared | nsim/topology/outputs/inet.py:25-55 | when every edge destination is a leaf of the list, every emitted link joins two declared submodules |
| Inet.CandidatesFrom | nsim/topology/outputs/inet.py:36-40 | every candidate link is an edge of some leaf |
| Inet.KeptFrom | nsim/topology/outputs/inet.py:41-55 | every emitted link is a candidate |
| Inet.SendAppsLines | nsim/topology/outputs/inet.py:66-71 | three application lines per edge |
| Inet.SendAppsStep | nsim/topology/outputs/inet.py:66-71 | each further edge appends its three application lines |
| Inet.IniStep | nsim/topology/outputs/inet.py:58-71 | each further leaf appends its ini block |
| Inet.SendAppsMatchEdges | nsim/topology/outputs/inet.py:66-71 | application k+1 sends to the destination of edge k |
| Inet.NumAppsCounts | nsim/topology/outputs/inet.py:63 | `numApps` is the edge count plus one, for the sink application |
| Inet.InetTopologyOutput.constructor | nsim/topology/outputs/inet.py:4 | a new emitter has printed nothing |
| Inet.InetTopologyOutput.Print | nsim/topology/outputs/inet.py:7 | printing appends one line with its indentation |
| Inet.InetTopologyOutput.PrintNedImports | nsim/topology/outputs/inet.py:5-16 | the import lines are appended |
| Inet.InetTopologyOutput.PrintNedLeaves | nsim/topology/outputs/inet.py:18-23 | the configurator block and one submodule line per leaf are appended |
| Inet.InetTopologyOutput.PrintNedConnections | nsim/topology/outputs/inet.py:25-55 | the entry, exit and de-duplicated link lines are appended |
| Inet.InetTopologyOutput.PrintEndpoints | nsim/topology/outputs/inet.py:26-34 | entry and exit lines between blank lines are appended |
| Inet.InetTopologyOutput.PrintEntries | nsim/topology/outputs/inet.py:27-28 | one entry line per leaf is appended |
| Inet.InetTopologyOutput.PrintExits | nsim/topology/outputs/inet.py:31-32 | one exit line per leaf is appended |
| Inet.InetTopologyOutput.PrintLinks | nsim/topology/outputs/inet.py:35-55 | exactly the lines of the links kept by reverse de-duplication are appended |
| Inet.InetTopologyOutput.PrintLeafLinks | nsim/topology/outputs/inet.py:37-55 | a leaf's edges advance the seen set and the link lines by its candidates |
| Inet.InetTopologyOutput.PrintLink | nsim/topology/outputs/inet.py:41-55 | one candidate is emitted exactly when its reverse was not seen, and the seen set gains its reverse |
| Inet.InetTopologyOutput.PrintIniLeaves | nsim/topology/outputs/inet.py:57-71 | one ini block per leaf is appended |
| Inet.InetTopologyOutput.PrintIniRound | nsim/topology/outputs/inet.py:58-71 | one loop round appends the next leaf's ini block |
| Inet.InetTopologyOutput.PrintLeafIni | nsim/topology/outputs/inet.py:59-71 | a leaf's block is a blank line, its app count, its sink application and its send applications |
| Inet.InetTopologyOutput.PrintSendApps | nsim/topology/outputs/inet.py:66-71 | the send application lines of the edges are appended |
| Inet.InetTopologyOutput.PrintSendApp | nsim/topology/outputs/inet.py:67-71 | one send application's typename, local and connect address lines are appended |
| Findings.SharedContentsMembers | nsim/topology/models/topology.py:10 | with a class-level list, an instance's list holds an item exactly when some instance, whichever it is, appended it |
| Findings.OwnWithinShared | nsim/traffic/models/traffic.py:11 | the per-instance list holds a sub-multiset of the shared list: only the instance's own appends |
| Findings.SharedTrafficHoldsOthers | nsim/traffic/models/traffic.py:11 | an arrival appended to one traffic and never to a second still appears in the second's class-level list, while the second's own list does not hold it |
| Findings.OwnContentsAppend | nsim/topology/models/topology.py:12-13 | with per-instance lists, an append reaches only its own instance |
| Findings.OwnContentsMembers | nsim/traffic/models/traffic.py:13-14 | with per-instance lists, an instance holds exactly the items appended to it |
| Findings.SharedListNestsItself | nsim/topology/models/topology.py:10 | with the shared list, an inner topology holding leaf `h` that is then added to its parent lists both `h` and itself as children, while its own list holds only `h` |
| Findings.ScanXmlCarries | nsim/topology/inputs/xml.py:57-69 | scanning with a non-empty table keeps every id already in it |
| Findings.ScanXmlChildrenCarries | nsim/topology/inputs/xml.py:63-65 | scanning children with a non-empty table keeps every id already in it |
| Findings.ParsedDestinations | nsim/topology/inputs/xml.py:39-42 | every decoded edge points at an id of the table |
| Findings.ParsedChildrenDestinations | nsim/topology/inputs/xml.py:18-19 | every decoded child's edges point at ids of the table |
| Findings.ParsedEdgeDestinations | nsim/topology/inputs/xml.py:39-40 | every decoded edge's destination is in the table |
| Findings.StaleDecodeDestinations | nsim/topology/inputs/xml.py:71-74 | with a carried-over table, edges may point at any carried id |
| Findings.FreshDecodeSelfContained | nsim/topology/inputs/xml.py:72 | with a fresh table, every edge points at a leaf declared in the same document |
| Findings.StaleTableAcceptsForeignEdge | nsim/topology/inputs/xml.py:60 | a second document with an edge to a leaf only the first document declared is accepted with the shared default table and rejected with a fresh one |
| Findings.ScanKindsCarries | nsim/topology/inputs/json.py:79-92 | scanning with a non-empty table keeps every id already in it |
| Findings.ScanKindsListCarries | nsim/topology/inputs/json.py:88-89 | scanning a list with a non-empty table keeps every id already in it |
| Findings.FreshJsonTableOwnIds | nsim/topology/inputs/json.py:95 | with a fresh table, the scan holds exactly the document's own leaf ids |
| Findings.StaleJsonTableKeepsForeignLeaf | nsim/topology/inputs/json.py:82 | the shared default table still holds a leaf of an earlier document after scanning a second one |

## Left out

- Reading input and writing output. The interactive prompts
  (`Generator._get_input`), the command line, `json.dumps`/`ElementTree`
  serialisation, indentation and the rich console are not part of this
  model. The decoders read a `Json`/`Element` value, and the emitter appends
  to `lines`.
- `OmnestOutput._print`, `_validate_schema`, `_parse_attributes`,
  `_parse_error` and `leaf_type_from_str` are not part of this model. They are
  given the small contracts stated on `Print`, `ValidateSchema`,
  `ParseAttributes` and `KindFromString`. `_parse_error` is an `Err` result.
- Floating point. Times, rates and gaps are `real`. `str(float)` and `float(str)`
  are the parameters `floatText` and `parseFloat`. The XML traffic round trip
  assumes `parseFloat(floatText(x)) == x`.
- Randomness. `random.choice`, `random.randint`, `random.expovariate` and the
  random arrival size are oracles indexed by draw position. Nothing is proved
  about their distributions.
- Routing.Traversal.GetRandomRoute: requires that the draws eventually hit a
  valid source. The source's rejection loop ends only in that case.
- TrafficGenerators.Constant: requires `rate > 0` or `duration <= 0`. With any
  other rate the source loop never ends.
- TrafficGenerators.Poisson: requires `lambda > 0`, and gaps that eventually
  reach the duration. A zero mean makes `expovariate` fail.
- TrafficGenerators.Train: requires positive mean times and
  `max_train_length >= 1`. Otherwise `expovariate` or `randint(1, 0)` fail.
- LatencyRate.LatencyRateNode.HandleMessage: requires `rate > 0`. `simtime_t`
  is `real`, so its fixed-point resolution is not modelled.
- TopologyGenerators.Mesh: returns the `connect` calls it makes, in order.
  `Topology(name, n, c)` and `connect` are not part of this model.
- TopologyGenerators.Star: returns the `connect` calls it makes, in order, for
  the same reason.
- Mesh and Star input validation. The prompts and their ranges (name length,
  node count below 100000, connectivity in [0, 1]) are only predicates on the
  Mesh inputs.
- JSON topology round trip. The encoder writes leaf types `HOST`/`SWITCH`,
  which the decoder rejects. `TopologyJson.EncodedLeafRejected` proves the
  rejection instead of a round trip.
- TopologyJson.AppendEdge: an edge record that fails the edge schema but has
  a known string `destination` and a bandwidth that is not an integer (such
  as `1.5` or `"10"`) is rejected here with a validation error. The source
  ignores the schema result and stores that ill-typed bandwidth on a new
  edge (nsim/topology/inputs/json.py:56, 73-74). Edge bandwidths are
  integers in this model. `TopologyJson.ParseEdge`, `ParseLeaf`, `ParseNode`
  and `Decode` reject such documents for the same reason.
- Graph.Topology.AddNode: requires that the added node does not contain this
  topology, so the model only builds topologies bottom-up. The source also
  accepts `t.add_node(t)` or adding an ancestor; `flatten` then recurses
  without end (nsim/topology/models/topology.py:12-13, 18-22). Extending a
  topology after it has been nested in another is not modelled either.
- Duplicate keys in a JSON object: the model reads the first occurrence, while
  Python's `json` keeps the last. The encoders never write a key twice.
- Dict and set order. The reachable set is a set, and the destination is the
  one the draw picks.
- Decimal.ParseInt: accepts only an optional minus sign followed by digits.
  Python's `int` also accepts surrounding spaces, a plus sign and
  underscores.
- Graph.KindValue: its contract only says the value is non-empty. The values
  themselves matter through `TopologyJson.EncodedLeafRejected`.
- Routing.Reach and the traversal take a ghost `universe`, an edge-closed set
  of leaves. It stands for the heap that Python's search walks.

## Findings

| source | as written | input that shows it | evidently intended | confidence | as-written member | corrected member |
|---|---|---|---|---|---|---|
| nsim/topology/models/topology.py:10 | `__nodes` is a class attribute, so every topology appends to one shared list | an outer topology, then an inner topology with a leaf `h` added to it: the outer topology also lists `h`, and the inner one lists itself | each topology owns its children | not executed | Findings.SharedListNestsItself | Findings.OwnContentsAppend |
| nsim/traffic/models/traffic.py:11 | `__arrivals` is a class attribute, so every traffic sees every arrival | two generated traffics: the second also holds all arrivals of the first | each traffic owns its arrivals | not executed | Findings.SharedTrafficHoldsOthers | Findings.OwnContentsMembers |
| nsim/topology/inputs/xml.py:60 | the default leaf table `dict()` is created once and reused by every scan | decode `<host id="a"/>`, then `<host id="b"><edge source="b" destination="a" bandwidth="1"/></host>`: the second is accepted | a fresh table per decode, so a foreign destination is a reference error | not executed | Findings.StaleTableAcceptsForeignEdge | Findings.FreshDecodeSelfContained |
| nsim/topology/inputs/json.py:82 | the default leaf table `dict()` is created once and reused by every scan | scan a document with leaf `a`, then one with leaf `b`: the second table still holds `a` | a fresh table per decode, holding only the document's own leaves | not executed | Findings.StaleJsonTableKeepsForeignLeaf | Findings.FreshJsonTableOwnIds |
