/** The INET/OMNeT++ topology emitter (nsim/topology/outputs/inet.py). It
    prints NED and INI text for a list of leaves: one submodule per leaf,
    entry and exit connections per leaf, one Ethernet link per edge whose
    reverse was not linked before, and one sink app plus one send app per
    edge in each leaf's INI section. `_print` belongs to the unseen output
    base class; here it appends one (indent, text) line to `lines`. */
module Inet {
  import opened Wrappers
  import opened Decimal
  import opened Graph
  import opened Views

  /** One printed line: its indent level and its text. */
  datatype Line = Line(indent: nat, text: string)

  const Blank := Line(0, "")

  // ------------------------------------------------------- Ethernet classes

  /** The nominal bandwidths (bit/s) and INET channel names, in the order
      the source's table lists them (largest first). */
  const EthClasses: seq<(int, string)> := [
    (400000000000, "Eth400G"), (200000000000, "Eth200G"), (100000000000, "Eth100G"),
    (40000000000, "Eth40G"), (10000000000, "Eth10G"), (1000000000, "Eth1G"),
    (100000000, "Eth100M"), (10000000, "Eth10M")]

  function Distance(a: int, b: int): nat {
    if a >= b then a - b else b - a
  }

  /** The position, from `i` on, of the first class nearest to `b`: what
      the stable sort by distance puts first. */
  function NearestFrom(b: int, i: nat): (r: nat)
    requires i < |EthClasses|
    ensures i <= r < |EthClasses|
    ensures forall k | i <= k < |EthClasses| :: Distance(EthClasses[r].0, b) <= Distance(EthClasses[k].0, b)
    ensures forall k | i <= k < r :: Distance(EthClasses[k].0, b) > Distance(EthClasses[r].0, b)
    decreases |EthClasses| - i
  {
    if i == |EthClasses| - 1 then i
    else
      var rest := NearestFrom(b, i + 1);
      if Distance(EthClasses[i].0, b) <= Distance(EthClasses[rest].0, b) then i else rest
  }

  /** `sorted(bandwidths.items(), key=…)[0][1]`. */
  function NearestEth(bandwidth: int): string {
    EthClasses[NearestFrom(bandwidth, 0)].1
  }

  /** A tie goes to the earlier, larger class: 25 Gbit/s is as far from
      40G as from 10G and becomes Eth40G. */
  lemma NearestEthTie()
    ensures NearestEth(25000000000) == "Eth40G"
  {
    var r := NearestFrom(25000000000, 0);
    assert Distance(EthClasses[3].0, 25000000000) == Distance(EthClasses[4].0, 25000000000);
    assert r == 3;
  }

  /** A nominal bandwidth maps to its own class. */
  lemma NearestEthExact(k: nat)
    requires k < |EthClasses|
    ensures NearestEth(EthClasses[k].0) == EthClasses[k].1
  {
    var r := NearestFrom(EthClasses[k].0, 0);
    assert Distance(EthClasses[r].0, EthClasses[k].0) == 0;
  }

  /** Anything below the smallest class maps to the smallest. */
  lemma NearestEthBelow(bandwidth: int)
    requires bandwidth <= 10000000
    ensures NearestEth(bandwidth) == "Eth10M"
  {
    var r := NearestFrom(bandwidth, 0);
    assert Distance(EthClasses[r].0, bandwidth) <= Distance(EthClasses[7].0, bandwidth);
  }

  // ---------------------------------------------------------------- imports

  function EthImport(name: string): string {
    "import inet.node.ethernet." + name + ";"
  }

  const ConfiguratorImport := "import inet.networklayer.configurator.ipv4.Ipv4NetworkConfigurator;"
  const NodeImport := "import nsim.nodes.InetNode;"

  /** `_print_ned_imports`: the configurator, every Ethernet class and the
      node type, all of them whether or not a link uses them. */
  function ImportLines(): (lines: seq<Line>)
    ensures |lines| == 2 + |EthClasses|
  {
    [Line(0, ConfiguratorImport),
     Line(0, EthImport("Eth400G")), Line(0, EthImport("Eth200G")), Line(0, EthImport("Eth100G")),
     Line(0, EthImport("Eth40G")), Line(0, EthImport("Eth10G")), Line(0, EthImport("Eth1G")),
     Line(0, EthImport("Eth100M")), Line(0, EthImport("Eth10M")),
     Line(0, NodeImport)]
  }

  /** Whatever class a link is given has been imported. */
  lemma NearestEthImported(bandwidth: int)
    ensures Line(0, EthImport(NearestEth(bandwidth))) in ImportLines()
  {
    var r := NearestFrom(bandwidth, 0);
    assert ImportLines()[1 + r] == Line(0, EthImport(EthClasses[r].1));
  }

  // ------------------------------------------------------------ NED leaves

  /** The ids of the leaves, in order. */
  function Ids(leaves: seq<Leaf>): (ids: seq<string>)
    ensures |ids| == |leaves| && forall k | 0 <= k < |leaves| :: ids[k] == leaves[k].id
  {
    seq(|leaves|, k requires 0 <= k < |leaves| => leaves[k].id)
  }

  function ConfiguratorLines(): seq<Line> {
    [Line(2, "configurator: Ipv4NetworkConfigurator {"), Line(3, "@display(\"p=389,47\");"), Line(2, "}")]
  }

  function SubmoduleText(id: string): string {
    id + ": InetNode;"
  }

  function SubmoduleLine(id: string): Line {
    Line(2, SubmoduleText(id))
  }

  function SubmoduleLines(ids: seq<string>): (lines: seq<Line>)
    ensures |lines| == |ids|
  {
    seq(|ids|, k requires 0 <= k < |ids| => SubmoduleLine(ids[k]))
  }

  /** The submodule a NED line declares, if it declares one. */
  function Declared(line: Line): Option<string> {
    var suffix := ": InetNode;";
    if line.indent == 2 && |suffix| <= |line.text| && line.text[|line.text| - |suffix|..] == suffix
    then Some(line.text[..|line.text| - |suffix|])
    else None
  }

  /** Reading the submodule lines back gives the leaf ids, in order; the
      configurator block declares no node. */
  lemma SubmodulesDeclareIds(ids: seq<string>)
    ensures forall k | 0 <= k < |ids| :: Declared(SubmoduleLines(ids)[k]) == Some(ids[k])
    ensures forall k | 0 <= k < 3 :: Declared(ConfiguratorLines()[k]).None?
  {
    forall k | 0 <= k < |ids|
      ensures Declared(SubmoduleLines(ids)[k]) == Some(ids[k])
    {
      var text := ids[k] + ": InetNode;";
      assert text[|text| - |": InetNode;"|..] == ": InetNode;";
      assert text[..|text| - |": InetNode;"|] == ids[k];
    }
    assert Declared(ConfiguratorLines()[1]).None? by {
      var text := ConfiguratorLines()[1].text;
      assert text[|text| - 1] == ';' && text[|text| - 2] == ')';
    }
  }

  // ------------------------------------------------------- NED connections

  function EntryText(id: string): string {
    "entry.out++ --> " + id + ".in;"
  }

  function ExitText(id: string): string {
    id + ".out --> exit.in++;"
  }

  function EntryLine(id: string): Line {
    Line(2, EntryText(id))
  }

  function ExitLine(id: string): Line {
    Line(2, ExitText(id))
  }

  /** A link candidate: an edge of `source`, given by ids. */
  datatype Link = Link(source: string, destination: string, bandwidth: int)

  function LinkText(source: string, channel: string, destination: string): string {
    source + ".ethg++ <--> " + channel + " <--> " + destination + ".ethg++;"
  }

  function LinkLine(l: Link): Line {
    Line(2, LinkText(l.source, NearestEth(l.bandwidth), l.destination))
  }

  /** A leaf's id and the pictures of its edges. */
  datatype LeafLinks = LeafLinks(id: string, edges: seq<EdgeView>)

  function LinksOf(leaves: seq<Leaf>): (ls: seq<LeafLinks>)
    reads set l | l in leaves
    ensures |ls| == |leaves|
    ensures forall k | 0 <= k < |leaves| :: ls[k] == LeafLinks(leaves[k].id, EdgeViews(leaves[k].edges))
    decreases |leaves|
  {
    if leaves == [] then []
    else
      var last := leaves[|leaves| - 1];
      LinksOf(leaves[..|leaves| - 1]) + [LeafLinks(last.id, EdgeViews(last.edges))]
  }

  /** The edges of one leaf as link candidates, in order. */
  function LeafCandidates(l: LeafLinks): (r: seq<Link>)
    ensures |r| == |l.edges|
  {
    seq(|l.edges|, k requires 0 <= k < |l.edges| => Link(l.id, l.edges[k].destination, l.edges[k].bandwidth))
  }

  /** Every edge of every leaf, leaf by leaf: the order the nested loops
      visit them. */
  function Candidates(ls: seq<LeafLinks>): seq<Link>
    decreases |ls|
  {
    if ls == [] then [] else Candidates(ls[..|ls| - 1]) + LeafCandidates(ls[|ls| - 1])
  }

  lemma {:induction false} CandidatesPrefix(ls: seq<LeafLinks>, i: nat)
    requires i <= |ls|
    ensures |Candidates(ls[..i])| <= |Candidates(ls)|
    ensures Candidates(ls)[..|Candidates(ls[..i])|] == Candidates(ls[..i])
    decreases |ls|
  {
    if i < |ls| {
      var shorter := ls[..|ls| - 1];
      assert shorter[..i] == ls[..i];
      CandidatesPrefix(shorter, i);
    } else {
      assert ls[..i] == ls;
    }
  }

  /** The candidates of leaf `i` follow those of the leaves before it. */
  lemma CandidatesAt(ls: seq<LeafLinks>, i: nat)
    requires i < |ls|
    ensures |Candidates(ls[..i + 1])| == |Candidates(ls[..i])| + |ls[i].edges| <= |Candidates(ls)|
    ensures forall j | 0 <= j < |ls[i].edges| ::
              Candidates(ls)[|Candidates(ls[..i])| + j] == Link(ls[i].id, ls[i].edges[j].destination, ls[i].edges[j].bandwidth)
  {
    assert ls[..i + 1][..i] == ls[..i];
    CandidatesPrefix(ls, i + 1);
    var all := Candidates(ls);
    var upto := Candidates(ls[..i + 1]);
    assert upto == Candidates(ls[..i]) + LeafCandidates(ls[i]);
    forall j | 0 <= j < |ls[i].edges|
      ensures all[|Candidates(ls[..i])| + j] == Link(ls[i].id, ls[i].edges[j].destination, ls[i].edges[j].bandwidth)
    {
      assert all[|Candidates(ls[..i])| + j] == upto[|Candidates(ls[..i])| + j];
    }
  }

  /** The pairs in `seen` after the first `n` candidates: each emitted
      link adds its reverse. */
  function SeenAfter(links: seq<Link>, n: nat): set<(string, string)>
    requires n <= |links|
  {
    if n == 0 then {}
    else
      var seen := SeenAfter(links, n - 1);
      var l := links[n - 1];
      if (l.source, l.destination) in seen then seen else seen + {(l.destination, l.source)}
  }

  /** Candidate `j` is printed: its own pair is not in `seen` yet. */
  predicate EmittedAt(links: seq<Link>, j: nat)
    requires j < |links|
  {
    (links[j].source, links[j].destination) !in SeenAfter(links, j)
  }

  /** The links printed among the first `n` candidates, in order. */
  function KeptAfter(links: seq<Link>, n: nat): seq<Link>
    requires n <= |links|
  {
    if n == 0 then []
    else KeptAfter(links, n - 1) + (if EmittedAt(links, n - 1) then [links[n - 1]] else [])
  }

  /** `seen` holds exactly the reverses of the links printed so far. */
  lemma {:induction false} SeenIsReversed(links: seq<Link>, n: nat)
    requires n <= |links|
    ensures SeenAfter(links, n) ==
              set k | 0 <= k < n && EmittedAt(links, k) :: (links[k].destination, links[k].source)
    decreases n
  {
    if n > 0 {
      SeenIsReversed(links, n - 1);
    }
  }

  /** A candidate is printed exactly when no link printed before it is
      its reverse. */
  lemma EmittedIff(links: seq<Link>, j: nat)
    requires j < |links|
    ensures EmittedAt(links, j) <==>
              forall k | 0 <= k < j && EmittedAt(links, k) ::
                !(links[k].source == links[j].destination && links[k].destination == links[j].source)
  {
    SeenIsReversed(links, j);
    if !EmittedAt(links, j) {
      var p := (links[j].source, links[j].destination);
      assert p in SeenAfter(links, j);
      var k :| 0 <= k < j && EmittedAt(links, k) && p == (links[k].destination, links[k].source);
    }
  }

  /** The reverse of a printed link is skipped. */
  lemma ReverseSkipped(links: seq<Link>, i: nat, j: nat)
    requires i < j < |links| && EmittedAt(links, i)
    requires links[j].source == links[i].destination && links[j].destination == links[i].source
    ensures !EmittedAt(links, j)
  {
    EmittedIff(links, j);
  }

  /** A parallel copy of a printed link is printed again when no reverse
      of it was printed in between: dedupe covers reverses only. */
  lemma ParallelKept(links: seq<Link>, j: nat)
    requires j < |links|
    requires forall k | 0 <= k < j :: !(links[k].source == links[j].destination && links[k].destination == links[j].source)
    ensures EmittedAt(links, j)
  {
    EmittedIff(links, j);
  }

  /** Two parallel a→b edges and one b→a edge give two printed links. */
  lemma DedupeExample()
    ensures var links := [Link("a", "b", 1), Link("a", "b", 1), Link("b", "a", 1)];
            KeptAfter(links, 3) == [Link("a", "b", 1), Link("a", "b", 1)]
  {
    var links := [Link("a", "b", 1), Link("a", "b", 1), Link("b", "a", 1)];
    assert SeenAfter(links, 1) == {("b", "a")};
    assert SeenAfter(links, 2) == {("b", "a")};
  }

  function LinkLines(kept: seq<Link>): (lines: seq<Line>)
    ensures |lines| == |kept|
  {
    MapSeq(kept, LinkLine)
  }

  lemma LinkLinesAppend(kept: seq<Link>, l: Link)
    ensures LinkLines(kept + [l]) == LinkLines(kept) + [LinkLine(l)]
  {
    MapSeqAppend(kept, l, LinkLine);
  }

  /** `_print_ned_connections`: a blank line, one entry line per leaf, a
      blank line, one exit line per leaf, a blank line, and one line per
      printed link. */
  function ConnectionLines(ls: seq<LeafLinks>): seq<Line> {
    var ids := seq(|ls|, k requires 0 <= k < |ls| => ls[k].id);
    var links := Candidates(ls);
    ([Blank] + EntryLines(ids) + [Blank] + ExitLines(ids) + [Blank]) + LinkLines(KeptAfter(links, |links|))
  }

  function EntryLines(ids: seq<string>): (lines: seq<Line>)
    ensures |lines| == |ids|
  {
    seq(|ids|, k requires 0 <= k < |ids| => EntryLine(ids[k]))
  }

  function ExitLines(ids: seq<string>): (lines: seq<Line>)
    ensures |lines| == |ids|
  {
    seq(|ids|, k requires 0 <= k < |ids| => ExitLine(ids[k]))
  }

  /** When every edge leads to a listed leaf, every printed link joins
      two declared submodules. */
  lemma LinksJoinDeclared(ls: seq<LeafLinks>)
    requires forall i, k | 0 <= i < |ls| && 0 <= k < |ls[i].edges| ::
               exists m | 0 <= m < |ls| :: ls[m].id == ls[i].edges[k].destination
    ensures var links := Candidates(ls);
            forall l | l in KeptAfter(links, |links|) ::
              (exists m | 0 <= m < |ls| :: ls[m].id == l.source)
              && (exists m | 0 <= m < |ls| :: ls[m].id == l.destination)
  {
    var links := Candidates(ls);
    CandidatesFrom(ls);
    KeptFrom(links, |links|);
  }

  /** Every candidate is an edge of a listed leaf. */
  lemma {:induction false} CandidatesFrom(ls: seq<LeafLinks>)
    ensures forall l | l in Candidates(ls) ::
              exists i, k | 0 <= i < |ls| && 0 <= k < |ls[i].edges| ::
                l == Link(ls[i].id, ls[i].edges[k].destination, ls[i].edges[k].bandwidth)
    decreases |ls|
  {
    if ls != [] {
      var n := |ls| - 1;
      CandidatesFrom(ls[..n]);
      forall l | l in Candidates(ls)
        ensures exists i, k | 0 <= i < |ls| && 0 <= k < |ls[i].edges| ::
                  l == Link(ls[i].id, ls[i].edges[k].destination, ls[i].edges[k].bandwidth)
      {
        if l in Candidates(ls[..n]) {
          var i, k :| 0 <= i < n && 0 <= k < |ls[..n][i].edges| &&
                      l == Link(ls[..n][i].id, ls[..n][i].edges[k].destination, ls[..n][i].edges[k].bandwidth);
          assert ls[..n][i] == ls[i];
        } else {
          var k :| 0 <= k < |ls[n].edges| && LeafCandidates(ls[n])[k] == l;
        }
      }
    }
  }

  /** Every printed link is a candidate. */
  lemma {:induction false} KeptFrom(links: seq<Link>, n: nat)
    requires n <= |links|
    ensures forall l | l in KeptAfter(links, n) :: l in links
    decreases n
  {
    if n > 0 {
      KeptFrom(links, n - 1);
    }
  }

  // ------------------------------------------------------------ INI leaves

  function AppPrefix(id: string, index: nat): string {
    "**." + id + ".app[" + NatToString(index) + "]"
  }

  function TypenameText(prefix: string, typename: string): string {
    prefix + ".typename = \"" + typename + "\""
  }

  function LocalAddressText(prefix: string, address: string): string {
    prefix + ".localAddress = \"" + address + "\""
  }

  function ConnectAddressText(prefix: string, address: string): string {
    prefix + ".connectAddress = \"" + address + "\""
  }

  /** The three lines of app `index`, sending from `id` to `destination`. */
  function SendAppLines(id: string, index: nat, destination: string): seq<Line> {
    [Line(0, TypenameText(AppPrefix(id, index), "InetSendApp")),
     Line(0, LocalAddressText(AppPrefix(id, index), id)),
     Line(0, ConnectAddressText(AppPrefix(id, index), destination))]
  }

  /** Apps 1 to |edges|, one per edge in order. */
  function SendAppsLines(id: string, edges: seq<EdgeView>): (lines: seq<Line>)
    ensures |lines| == 3 * |edges|
    decreases |edges|
  {
    if edges == [] then []
    else SendAppsLines(id, edges[..|edges| - 1]) + SendAppLines(id, |edges|, edges[|edges| - 1].destination)
  }

  lemma SendAppsStep(id: string, edges: seq<EdgeView>, i: nat)
    requires i < |edges|
    ensures SendAppsLines(id, edges[..i + 1]) ==
              SendAppsLines(id, edges[..i]) + SendAppLines(id, i + 1, edges[i].destination)
  {
    assert edges[..i + 1][..i] == edges[..i];
  }

  function NumAppsText(id: string, count: nat): string {
    "**." + id + ".numApps = " + NatToString(count)
  }

  function NumAppsLine(id: string, count: nat): Line {
    Line(0, NumAppsText(id, count))
  }

  /** One leaf's INI section: a blank line, the app count, the sink app,
      then the send apps. */
  function LeafIniLines(l: LeafLinks): seq<Line> {
    [Blank, NumAppsLine(l.id, |l.edges| + 1), Line(0, TypenameText(AppPrefix(l.id, 0), "TcpSinkApp"))]
    + SendAppsLines(l.id, l.edges)
  }

  /** `_print_ini_leaves`: the sections of all leaves, in order. */
  function IniLines(ls: seq<LeafLinks>): seq<Line>
    decreases |ls|
  {
    if ls == [] then [] else IniLines(ls[..|ls| - 1]) + LeafIniLines(ls[|ls| - 1])
  }

  lemma IniStep(ls: seq<LeafLinks>, i: nat)
    requires i < |ls|
    ensures IniLines(ls[..i + 1]) == IniLines(ls[..i]) + LeafIniLines(ls[i])
  {
    assert ls[..i + 1][..i] == ls[..i];
  }

  /** App k+1 of a leaf sends from the leaf to the destination of its
      edge k. */
  lemma {:induction false} SendAppsMatchEdges(id: string, edges: seq<EdgeView>, k: nat)
    requires k < |edges|
    ensures SendAppsLines(id, edges)[3 * k..3 * k + 3] == SendAppLines(id, k + 1, edges[k].destination)
    decreases |edges|
  {
    var n := |edges| - 1;
    if k < n {
      SendAppsMatchEdges(id, edges[..n], k);
      assert edges[..n][k] == edges[k];
    }
  }

  /** The app count read back from a section is one more than the edge
      count: the sink plus one sender per edge, as many as the section
      configures. */
  lemma NumAppsCounts(l: LeafLinks)
    ensures var text := LeafIniLines(l)[1].text;
            var prefix := "**." + l.id + ".numApps = ";
            |prefix| <= |text| && text[..|prefix|] == prefix
            && ParseInt(text[|prefix|..]) == Some(|l.edges| + 1)
            && |LeafIniLines(l)| == 3 + 3 * (|l.edges| + 1 - 1)
  {
    var text := LeafIniLines(l)[1].text;
    var prefix := "**." + l.id + ".numApps = ";
    assert text[|prefix|..] == NatToString(|l.edges| + 1);
    IntToStringRoundTrip(|l.edges| + 1);
  }

  lemma Regroup(a: seq<Line>, b: seq<Line>, c: seq<Line>)
    ensures a + b + c == a + (b + c)
  {
  }

  // ---------------------------------------------------------------- emitter

  /** The emitter: the text printed so far. */
  class InetTopologyOutput {
    var lines: seq<Line>

    constructor ()
      ensures lines == []
    {
      lines := [];
    }

    /** `_print(text, indent)` of the unseen output base class. */
    method Print(text: string, indent: nat)
      modifies this
      ensures lines == old(lines) + [Line(indent, text)]
    {
      lines := lines + [Line(indent, text)];
    }

    /** `_print_ned_imports`. */
    method PrintNedImports()
      modifies this
      ensures lines == old(lines) + ImportLines()
    {
      Print(ConfiguratorImport, 0);
      Print(EthImport("Eth400G"), 0);
      Print(EthImport("Eth200G"), 0);
      Print(EthImport("Eth100G"), 0);
      Print(EthImport("Eth40G"), 0);
      Print(EthImport("Eth10G"), 0);
      Print(EthImport("Eth1G"), 0);
      Print(EthImport("Eth100M"), 0);
      Print(EthImport("Eth10M"), 0);
      Print(NodeImport, 0);
    }

    /** `_print_ned_leaves`: the configurator block, then one submodule
        per leaf, in order. */
    method PrintNedLeaves(leaves: seq<Leaf>)
      modifies this
      ensures lines == old(lines) + ConfiguratorLines() + SubmoduleLines(Ids(leaves))
    {
      Print("configurator: Ipv4NetworkConfigurator {", 2);
      Print("@display(\"p=389,47\");", 3);
      Print("}", 2);
      ghost var base := lines;
      for i := 0 to |leaves|
        invariant lines == base + SubmoduleLines(Ids(leaves))[..i]
      {
        assert SubmoduleLines(Ids(leaves))[..i + 1] == SubmoduleLines(Ids(leaves))[..i] + [SubmoduleLine(leaves[i].id)];
        Print(SubmoduleText(leaves[i].id), 2);
      }
      assert SubmoduleLines(Ids(leaves))[..|leaves|] == SubmoduleLines(Ids(leaves));
    }

    /** `_print_ned_connections`. */
    method PrintNedConnections(leaves: seq<Leaf>)
      modifies this
      ensures lines == old(lines) + ConnectionLines(LinksOf(leaves))
    {
      ghost var ls := LinksOf(leaves);
      ghost var ids := Ids(leaves);
      ghost var kept := LinkLines(KeptAfter(Candidates(ls), |Candidates(ls)|));
      ghost var head := [Blank] + EntryLines(ids) + [Blank] + ExitLines(ids) + [Blank];
      assert ConnectionLines(ls) == head + kept by {
        assert ids == seq(|ls|, k requires 0 <= k < |ls| => ls[k].id);
      }
      PrintEndpoints(leaves);
      PrintLinks(leaves);
      assert LinksOf(leaves) == ls;
      Regroup(old(lines), head, kept);
    }

    /** The entry and exit lines of `_print_ned_connections`, each block
        after a blank line, and the blank line before the links. */
    method PrintEndpoints(leaves: seq<Leaf>)
      modifies this
      ensures lines == old(lines) + ([Blank] + EntryLines(Ids(leaves)) + [Blank] + ExitLines(Ids(leaves)) + [Blank])
    {
      Print("", 0);
      PrintEntries(leaves);
      Print("", 0);
      PrintExits(leaves);
      Print("", 0);
    }

    /** The entry loop. */
    method PrintEntries(leaves: seq<Leaf>)
      modifies this
      ensures lines == old(lines) + EntryLines(Ids(leaves))
    {
      ghost var all := EntryLines(Ids(leaves));
      for i := 0 to |leaves|
        invariant lines == old(lines) + all[..i]
      {
        assert all[..i + 1] == all[..i] + [EntryLine(leaves[i].id)];
        Print(EntryText(leaves[i].id), 2);
      }
      assert all[..|leaves|] == all;
    }

    /** The exit loop. */
    method PrintExits(leaves: seq<Leaf>)
      modifies this
      ensures lines == old(lines) + ExitLines(Ids(leaves))
    {
      ghost var all := ExitLines(Ids(leaves));
      for i := 0 to |leaves|
        invariant lines == old(lines) + all[..i]
      {
        assert all[..i + 1] == all[..i] + [ExitLine(leaves[i].id)];
        Print(ExitText(leaves[i].id), 2);
      }
      assert all[..|leaves|] == all;
    }

    /** The link loops: every edge of every leaf, in order, printed unless
        its pair is in `seen`; printing adds the reverse pair. */
    method PrintLinks(leaves: seq<Leaf>)
      modifies this
      ensures lines == old(lines) + LinkLines(KeptAfter(Candidates(LinksOf(leaves)), |Candidates(LinksOf(leaves))|))
    {
      ghost var ls := LinksOf(leaves);
      ghost var links := Candidates(ls);
      var seen: set<(string, string)> := {};
      for i := 0 to |leaves|
        invariant |Candidates(ls[..i])| <= |links|
        invariant seen == SeenAfter(links, |Candidates(ls[..i])|)
        invariant lines == old(lines) + LinkLines(KeptAfter(links, |Candidates(ls[..i])|))
      {
        CandidatesAt(ls, i);
        seen := PrintLeafLinks(leaves[i], links, |Candidates(ls[..i])|, seen, old(lines));
      }
      assert ls[..|leaves|] == ls;
    }

    /** The inner loop, over the edges of `leaf`, whose candidates start
        at `base`. */
    method PrintLeafLinks(leaf: Leaf, ghost links: seq<Link>, ghost base: nat,
                          seen0: set<(string, string)>, ghost before: seq<Line>)
      returns (seen: set<(string, string)>)
      requires base + |leaf.edges| <= |links|
      requires forall j | 0 <= j < |leaf.edges| ::
                 links[base + j] == Link(leaf.id, leaf.edges[j].destination.id, leaf.edges[j].bandwidth)
      requires seen0 == SeenAfter(links, base)
      requires lines == before + LinkLines(KeptAfter(links, base))
      modifies this
      ensures seen == SeenAfter(links, base + |leaf.edges|)
      ensures lines == before + LinkLines(KeptAfter(links, base + |leaf.edges|))
    {
      var edges := leaf.edges;
      seen := seen0;
      for j := 0 to |edges|
        invariant seen == SeenAfter(links, base + j)
        invariant lines == before + LinkLines(KeptAfter(links, base + j))
      {
        seen := PrintLink(leaf.id, edges[j].destination.id, edges[j].bandwidth, links, base + j, seen, before);
      }
    }

    /** One round of the inner loop: candidate `n` of `links`. */
    method PrintLink(source: string, destination: string, bandwidth: int, ghost links: seq<Link>, ghost n: nat,
                     seen0: set<(string, string)>, ghost before: seq<Line>)
      returns (seen: set<(string, string)>)
      requires n < |links| && links[n] == Link(source, destination, bandwidth)
      requires seen0 == SeenAfter(links, n)
      requires lines == before + LinkLines(KeptAfter(links, n))
      modifies this
      ensures seen == SeenAfter(links, n + 1)
      ensures lines == before + LinkLines(KeptAfter(links, n + 1))
    {
      seen := seen0;
      if (source, destination) !in seen {
        seen := seen + {(destination, source)};
        LinkLinesAppend(KeptAfter(links, n), links[n]);
        Print(LinkText(source, NearestEth(bandwidth), destination), 2);
      }
    }

    /** `_print_ini_leaves`. */
    method PrintIniLeaves(leaves: seq<Leaf>)
      modifies this
      ensures lines == old(lines) + IniLines(LinksOf(leaves))
    {
      ghost var ls := LinksOf(leaves);
      for i := 0 to |leaves|
        invariant forall k | 0 <= k < |leaves| :: ls[k] == LeafLinks(leaves[k].id, EdgeViews(leaves[k].edges))
        invariant lines == old(lines) + IniLines(ls[..i])
      {
        PrintIniRound(leaves[i], ls, i, old(lines));
      }
      assert ls[..|leaves|] == ls;
    }

    /** One round of the leaf loop: the section of leaf `i`. */
    method PrintIniRound(leaf: Leaf, ghost ls: seq<LeafLinks>, ghost i: nat, ghost start: seq<Line>)
      requires i < |ls| && ls[i] == LeafLinks(leaf.id, EdgeViews(leaf.edges))
      requires lines == start + IniLines(ls[..i])
      modifies this
      ensures lines == start + IniLines(ls[..i + 1])
    {
      IniStep(ls, i);
      PrintLeafIni(leaf);
      Regroup(start, IniLines(ls[..i]), LeafIniLines(ls[i]));
    }

    /** One leaf's INI section. */
    method PrintLeafIni(leaf: Leaf)
      modifies this
      ensures lines == old(lines) + LeafIniLines(LeafLinks(leaf.id, EdgeViews(leaf.edges)))
    {
      var id := leaf.id;
      var edges := leaf.edges;
      Print("", 0);
      Print(NumAppsText(id, |edges| + 1), 0);
      Print(TypenameText(AppPrefix(id, 0), "TcpSinkApp"), 0);
      PrintSendApps(id, edges);
    }

    /** The app loop: app k+1 sends along edge k. */
    method PrintSendApps(id: string, edges: seq<Edge>)
      modifies this
      ensures lines == old(lines) + SendAppsLines(id, EdgeViews(edges))
    {
      ghost var views := EdgeViews(edges);
      for index := 0 to |edges|
        invariant lines == old(lines) + SendAppsLines(id, views[..index])
      {
        SendAppsStep(id, views, index);
        PrintSendApp(id, index + 1, edges[index].destination.id);
      }
      assert views[..|edges|] == views;
    }

    /** One round of the app loop: app `index`, sending to `destination`. */
    method PrintSendApp(id: string, index: nat, destination: string)
      modifies this
      ensures lines == old(lines) + SendAppLines(id, index, destination)
    {
      var prefix := AppPrefix(id, index);
      Print(TypenameText(prefix, "InetSendApp"), 0);
      Print(LocalAddressText(prefix, id), 0);
      Print(ConnectAddressText(prefix, destination), 0);
    }
  }
}
