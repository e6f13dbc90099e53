/** The network analysis helpers: role inference, connection and link
    strength, the enhanced copy of a graph, the complementarity test, the
    opportunity list, the key connectors and the density.

    They work on the graph the builder produces. Staff nodes carry no type,
    contributions, projects or region: they count as an unlisted type, as 0,
    and as a missing region, which a partner without a region shares. `Math.log10` is a function-typed parameter. */
module NetworkUtils {
  import opened Common
  import opened Collections
  import opened Records
  import opened DashboardUtils

  // ===========================================================================
  // Node attributes as the helpers read them

  function TypeOf(n: GraphNode): string
  {
    if n.PartnerNode? then n.partnerType else ""
  }

  function ContributionsOf(n: GraphNode): int
  {
    if n.PartnerNode? then n.contributions else 0
  }

  function ProjectsOf(n: GraphNode): nat
  {
    if n.PartnerNode? then n.projects else 0
  }

  /** A staff node has no region at all: it differs from every region a
      partner has, and equals a partner's missing one. */
  function RegionOf(n: GraphNode): Option<string>
  {
    if n.PartnerNode? then n.region else None
  }

  // ===========================================================================
  // inferPartnerRoles

  const RoleNames: set<string> := {"Implementation", "Financing", "Policy", "Knowledge", "Innovation", "Coordination"}

  function InferPartnerRoles(n: GraphNode): (roles: seq<string>)
    ensures Distinct(roles) && forall r :: r in roles ==> r in RoleNames
  {
    var t := TypeOf(n);
    if t == "Private Sector" then
      ["Implementation"] + (if ContributionsOf(n) > 100000 then ["Financing"] else [])
    else if t == "Government" then ["Policy", "Financing"]
    else if t == "Academic" then ["Knowledge", "Innovation"]
    else if t == "NGO" then ["Implementation", "Knowledge"]
    else if t == "UN Agency" || t == "International Organization" then ["Coordination", "Policy", "Knowledge"]
    else []
  }

  /** The role table: a private-sector partner always implements and finances
      exactly when its contributions exceed 100000; a type outside the table
      has no roles, and so has every staff node. */
  lemma RoleTable(n: GraphNode)
    ensures var roles := InferPartnerRoles(n);
      (TypeOf(n) == "Private Sector" ==>
         "Implementation" in roles && ("Financing" in roles <==> ContributionsOf(n) > 100000))
      && ((TypeOf(n) !in {"Private Sector", "Government", "Academic", "NGO", "UN Agency", "International Organization"})
            ==> roles == [])
      && (n.StaffNode? ==> roles == [])
      && ("Financing" in roles ==> TypeOf(n) in {"Private Sector", "Government"})
  {
  }

  // ===========================================================================
  // calculateConnectionStrength

  function Min(a: real, b: real): real
  {
    if a <= b then a else b
  }

  function ConnectionStrength(n: GraphNode, log10: real -> real): (r: real)
    ensures r <= 6.0
    ensures ContributionsOf(n) == 0 || log10(ContributionsOf(n) as real) >= 0.0 ==> r >= 1.0
  {
    var projects := ProjectsOf(n);
    var contributions := ContributionsOf(n);
    1.0
    + (if projects != 0 then Min(projects as real, 10.0) * 0.2 else 0.0)
    + (if contributions != 0 then Min(log10(contributions as real) * 0.3, 3.0) else 0.0)
  }

  /** A node with neither projects nor contributions has the base strength 1;
      projects alone add at most 2. */
  lemma ConnectionStrengthBase(n: GraphNode, log10: real -> real)
    requires ContributionsOf(n) == 0
    ensures 1.0 <= ConnectionStrength(n, log10) <= 3.0
    ensures ProjectsOf(n) == 0 ==> ConnectionStrength(n, log10) == 1.0
  {
  }

  // ===========================================================================
  // The enhanced graph (enhanceNetworkData)

  /** A node with the roles and connection strength attached; `partnerRoles` is
      None for a node that was never enhanced. */
  datatype NetNode = NetNode(base: GraphNode, partnerRoles: Option<seq<string>>, connectionStrength: real)

  datatype NetLink = NetLink(base: Link, strength: real)

  datatype NetGraph = NetGraph(nodes: seq<NetNode>, links: seq<NetLink>)

  /** A graph whose `nodes` or `links` may be missing. */
  datatype GraphInput = GraphInput(nodes: Option<seq<GraphNode>>, links: Option<seq<Link>>)

  predicate HasRole(n: NetNode, role: string)
  {
    n.partnerRoles.Some? && role in n.partnerRoles.value
  }

  /** `calculateLinkStrength(source, target)`, over the nodes found by id. */
  function LinkStrength(source: Option<NetNode>, target: Option<NetNode>): (r: real)
    ensures source.None? || target.None? ==> r == 1.0
    ensures 1.0 <= r <= 3.3
  {
    if source.None? || target.None? then 1.0
    else
      var s, t := source.value, target.value;
      var roles :=
        if s.partnerRoles.Some? && t.partnerRoles.Some? then
          (if HasRole(s, "Implementation") && HasRole(t, "Financing") then 1.0 else 0.0)
          + (if HasRole(s, "Knowledge") && HasRole(t, "Implementation") then 0.8 else 0.0)
        else 0.0;
      1.0 + roles + (if RegionOf(s.base) == RegionOf(t.base) then 0.5 else 0.0)
  }

  /** `nodes.find(n => n.id === id)` */
  function FindNode(nodes: seq<NetNode>, id: NodeId): (r: Option<NetNode>)
    ensures r.Some? ==> r.value in nodes && r.value.base.id == id
    ensures r.None? <==> forall i :: 0 <= i < |nodes| ==> nodes[i].base.id != id
  {
    if nodes == [] then None
    else if nodes[0].base.id == id then Some(nodes[0])
    else FindNode(nodes[1..], id)
  }

  function EnhanceNode(n: GraphNode, log10: real -> real): NetNode
  {
    NetNode(n, Some(InferPartnerRoles(n)), ConnectionStrength(n, log10))
  }

  function EnhanceLink(nodes: seq<NetNode>, l: Link): NetLink
  {
    NetLink(l, LinkStrength(FindNode(nodes, l.source), FindNode(nodes, l.target)))
  }

  function EnhanceNetworkData(data: Option<GraphInput>, log10: real -> real): (r: NetGraph)
    ensures data.None? || data.value.nodes.None? || data.value.links.None? ==> r == NetGraph([], [])
  {
    if data.None? || data.value.nodes.None? || data.value.links.None? then NetGraph([], [])
    else
      var nodes := Map(data.value.nodes.value, (n: GraphNode) => EnhanceNode(n, log10));
      NetGraph(nodes, Map(data.value.links.value, (l: Link) => EnhanceLink(nodes, l)))
  }

  /** Enhancing keeps every node and link, in order, and only adds to them:
      every node gets its inferred roles, every link a strength in [1, 3.3]. */
  lemma EnhancePreserves(data: GraphInput, log10: real -> real)
    requires data.nodes.Some? && data.links.Some?
    ensures var r := EnhanceNetworkData(Some(data), log10);
      |r.nodes| == |data.nodes.value| && |r.links| == |data.links.value|
      && (forall i :: 0 <= i < |r.nodes| ==>
            r.nodes[i].base == data.nodes.value[i]
            && r.nodes[i].partnerRoles == Some(InferPartnerRoles(data.nodes.value[i])))
      && (forall i :: 0 <= i < |r.links| ==>
            r.links[i].base == data.links.value[i] && 1.0 <= r.links[i].strength <= 3.3)
  {
  }

  /** With distinct ids, the lookup by a node's id finds that node. */
  lemma {:induction false} FindOwnNode(nodes: seq<NetNode>, k: nat)
    requires k < |nodes|
    requires forall i, j :: 0 <= i < j < |nodes| ==> nodes[i].base.id != nodes[j].base.id
    ensures FindNode(nodes, nodes[k].base.id) == Some(nodes[k])
  {
    if k > 0 {
      assert nodes[1..][k - 1] == nodes[k];
      FindOwnNode(nodes[1..], k - 1);
    }
  }

  /** A link from a partner node with a region into a staff node, as the
      builder makes for a partner's contact, has strength 1: a staff node has
      no roles and no region to share. */
  lemma StaffLinkStrength(nodes: seq<NetNode>, l: Link, k: nat)
    requires k < |nodes| && nodes[k].base.id == l.target && nodes[k].base.StaffNode?
    requires nodes[k].partnerRoles == Some(InferPartnerRoles(nodes[k].base))
    requires forall i, j :: 0 <= i < j < |nodes| ==> nodes[i].base.id != nodes[j].base.id
    requires forall i :: 0 <= i < |nodes| && nodes[i].base.id == l.source ==>
      nodes[i].base.PartnerNode? && nodes[i].base.region.Some?
    ensures EnhanceLink(nodes, l).strength == 1.0
  {
    FindOwnNode(nodes, k);
    RoleTable(nodes[k].base);
  }

  /** From a partner without a region the same link has strength 1.5: the
      missing region equals the staff node's missing one. */
  lemma StaffLinkWithoutRegion(nodes: seq<NetNode>, l: Link, k: nat, s: nat)
    requires k < |nodes| && nodes[k].base.id == l.target && nodes[k].base.StaffNode?
    requires nodes[k].partnerRoles == Some(InferPartnerRoles(nodes[k].base))
    requires s < |nodes| && nodes[s].base.id == l.source
    requires nodes[s].base.PartnerNode? && nodes[s].base.region.None?
    requires forall i, j :: 0 <= i < j < |nodes| ==> nodes[i].base.id != nodes[j].base.id
    ensures EnhanceLink(nodes, l).strength == 1.5
  {
    FindOwnNode(nodes, k);
    FindOwnNode(nodes, s);
    RoleTable(nodes[k].base);
  }

  // ===========================================================================
  // checkRoleComplementarity

  const ComplementaryPairs: seq<(string, string)> := [
    ("Implementation", "Financing"),
    ("Knowledge", "Implementation"),
    ("Innovation", "Financing"),
    ("Policy", "Implementation")
  ]

  predicate CheckRoleComplementarity(a: NetNode, b: NetNode)
  {
    a.partnerRoles.Some? && b.partnerRoles.Some?
    && exists k :: 0 <= k < |ComplementaryPairs| &&
         var (r1, r2) := ComplementaryPairs[k];
         (HasRole(a, r1) && HasRole(b, r2)) || (HasRole(a, r2) && HasRole(b, r1))
  }

  /** The test is symmetric and needs both nodes enhanced. */
  lemma ComplementaritySymmetric(a: NetNode, b: NetNode)
    ensures CheckRoleComplementarity(a, b) == CheckRoleComplementarity(b, a)
    ensures a.partnerRoles.None? || b.partnerRoles.None? ==> !CheckRoleComplementarity(a, b)
  {
  }

  /** A financing government and an implementing NGO complement each other;
      two academic partners do not. */
  lemma ComplementarityExamples(a: NetNode, b: NetNode)
    ensures a.partnerRoles == Some(["Policy", "Financing"]) && b.partnerRoles == Some(["Implementation", "Knowledge"])
            ==> CheckRoleComplementarity(a, b)
    ensures a.partnerRoles == Some(["Knowledge", "Innovation"]) && b.partnerRoles == Some(["Knowledge", "Innovation"])
            ==> !CheckRoleComplementarity(a, b)
  {
    if a.partnerRoles == Some(["Policy", "Financing"]) && b.partnerRoles == Some(["Implementation", "Knowledge"]) {
      assert HasRole(a, "Financing") && HasRole(b, "Implementation");
      assert ComplementaryPairs[0] == ("Implementation", "Financing");
    }
  }

  // ===========================================================================
  // findPartnershipOpportunities

  datatype Opportunity = Opportunity(source: NodeId, target: NodeId, reason: string)

  predicate AlreadyConnected(links: seq<NetLink>, a: NodeId, b: NodeId)
  {
    exists i :: 0 <= i < |links| && ((links[i].base.source == a && links[i].base.target == b)
                                     || (links[i].base.source == b && links[i].base.target == a))
  }

  predicate IsOpportunity(links: seq<NetLink>, a: NetNode, b: NetNode)
  {
    a.base.id != b.base.id && !AlreadyConnected(links, a.base.id, b.base.id) && CheckRoleComplementarity(a, b)
  }

  /** The pairs found for `first` against each of `others`, in order. */
  function PairsWith(links: seq<NetLink>, first: NetNode, others: seq<NetNode>): seq<Opportunity>
  {
    if others == [] then []
    else
      var second := others[|others| - 1];
      PairsWith(links, first, others[..|others| - 1])
      + (if IsOpportunity(links, first, second)
         then [Opportunity(first.base.id, second.base.id, "Complementary roles")] else [])
  }

  /** Every pair found, in the order of the two nested passes. */
  function AllPairs(links: seq<NetLink>, firsts: seq<NetNode>, others: seq<NetNode>): seq<Opportunity>
  {
    if firsts == [] then []
    else AllPairs(links, firsts[..|firsts| - 1], others) + PairsWith(links, firsts[|firsts| - 1], others)
  }

  method FindPartnershipOpportunities(nodes: seq<NetNode>, links: seq<NetLink>) returns (r: seq<Opportunity>)
    ensures r == Take(AllPairs(links, nodes, nodes), 10)
  {
    var opportunities := [];
    for i := 0 to |nodes|
      invariant opportunities == AllPairs(links, nodes[..i], nodes)
    {
      var node1 := nodes[i];
      for j := 0 to |nodes|
        invariant opportunities == AllPairs(links, nodes[..i], nodes) + PairsWith(links, node1, nodes[..j])
      {
        var node2 := nodes[j];
        assert nodes[..j + 1][..j] == nodes[..j];
        if node1.base.id != node2.base.id {
          var alreadyConnected := AlreadyConnected(links, node1.base.id, node2.base.id);
          if !alreadyConnected && CheckRoleComplementarity(node1, node2) {
            opportunities := opportunities + [Opportunity(node1.base.id, node2.base.id, "Complementary roles")];
          }
        }
      }
      assert nodes[..|nodes|] == nodes;
      assert nodes[..i + 1][..i] == nodes[..i];
    }
    assert nodes[..|nodes|] == nodes;
    opportunities := Take(opportunities, 10);
    r := opportunities;
  }

  lemma {:induction false} PairsWithMembers(links: seq<NetLink>, first: NetNode, others: seq<NetNode>, o: Opportunity)
    ensures o in PairsWith(links, first, others) <==>
      exists b :: b in others && IsOpportunity(links, first, b)
                  && o == Opportunity(first.base.id, b.base.id, "Complementary roles")
  {
    if others != [] {
      var init, last := others[..|others| - 1], others[|others| - 1];
      PairsWithMembers(links, first, init, o);
      if exists b :: b in others && IsOpportunity(links, first, b)
                     && o == Opportunity(first.base.id, b.base.id, "Complementary roles") {
        var b :| b in others && IsOpportunity(links, first, b)
                 && o == Opportunity(first.base.id, b.base.id, "Complementary roles");
        if b != last {
          assert b in init;
        }
      }
    }
  }

  lemma {:induction false} AllPairsMembers(links: seq<NetLink>, firsts: seq<NetNode>, others: seq<NetNode>, o: Opportunity)
    ensures o in AllPairs(links, firsts, others) <==>
      exists a, b :: a in firsts && b in others && IsOpportunity(links, a, b)
                     && o == Opportunity(a.base.id, b.base.id, "Complementary roles")
  {
    if firsts != [] {
      var init, last := firsts[..|firsts| - 1], firsts[|firsts| - 1];
      AllPairsMembers(links, init, others, o);
      PairsWithMembers(links, last, others, o);
      if exists a, b :: a in firsts && b in others && IsOpportunity(links, a, b)
                        && o == Opportunity(a.base.id, b.base.id, "Complementary roles") {
        var a, b :| a in firsts && b in others && IsOpportunity(links, a, b)
                    && o == Opportunity(a.base.id, b.base.id, "Complementary roles");
        if a != last {
          assert a in init;
        }
      }
    }
  }

  /** At most ten opportunities; each joins two different nodes of the graph
      that are not linked either way and have complementary roles; and when
      fewer than ten are reported, every such pair is reported. */
  lemma OpportunitiesFacts(nodes: seq<NetNode>, links: seq<NetLink>, o: Opportunity, a: NetNode, b: NetNode)
    ensures var r := Take(AllPairs(links, nodes, nodes), 10);
      |r| <= 10
      && (o in r ==> exists x, y :: x in nodes && y in nodes && o.source == x.base.id && o.target == y.base.id
                       && o.source != o.target && !AlreadyConnected(links, o.source, o.target)
                       && CheckRoleComplementarity(x, y))
      && (a in nodes && b in nodes && IsOpportunity(links, a, b) && |r| < 10 ==>
            Opportunity(a.base.id, b.base.id, "Complementary roles") in r)
  {
    var all := AllPairs(links, nodes, nodes);
    var r := Take(all, 10);
    if o in r {
      assert o in all;
      AllPairsMembers(links, nodes, nodes, o);
    }
    if a in nodes && b in nodes && IsOpportunity(links, a, b) && |r| < 10 {
      AllPairsMembers(links, nodes, nodes, Opportunity(a.base.id, b.base.id, "Complementary roles"));
      assert r == all;
    }
  }

  // ===========================================================================
  // identifyKeyConnectors

  datatype NodeDegree = NodeDegree(id: NodeId, name: string, connections: nat)

  function ConnectionsOf(d: NodeDegree): int
  {
    d.connections
  }

  predicate Touches(l: NetLink, id: NodeId)
  {
    l.base.source == id || l.base.target == id
  }

  /** The number of links with the node at either end. */
  function Degree(links: seq<NetLink>, id: NodeId): (r: nat)
    ensures r <= |links|
  {
    if links == [] then 0
    else Degree(links[..|links| - 1], id) + (if Touches(links[|links| - 1], id) then 1 else 0)
  }

  function DegreeOf(links: seq<NetLink>, n: NetNode): NodeDegree
  {
    NodeDegree(n.base.id, n.base.name, Degree(links, n.base.id))
  }

  function IdentifyKeyConnectors(nodes: seq<NetNode>, links: seq<NetLink>): seq<NodeDegree>
  {
    Take(SortDesc(Map(nodes, (n: NetNode) => DegreeOf(links, n)), ConnectionsOf), 5)
  }

  /** A degree counts exactly the links touching the node. */
  lemma {:induction false} DegreeCounts(links: seq<NetLink>, id: NodeId)
    ensures Degree(links, id) == |set i | 0 <= i < |links| && Touches(links[i], id)|
  {
    if links != [] {
      var init := links[..|links| - 1];
      DegreeCounts(init, id);
      var before := set i | 0 <= i < |init| && Touches(init[i], id);
      var now := set i | 0 <= i < |links| && Touches(links[i], id);
      if Touches(links[|links| - 1], id) {
        assert now == before + {|links| - 1};
      } else {
        assert now == before;
      }
    }
  }

  /** At most five connectors, by non-increasing degree, each with the degree
      of a node of the graph; a node left out has no more links than the
      fifth. */
  lemma KeyConnectorsFacts(nodes: seq<NetNode>, links: seq<NetLink>, k: nat)
    requires k < |nodes|
    ensures var r := IdentifyKeyConnectors(nodes, links);
      |r| <= 5 && NonIncreasing(r, ConnectionsOf)
      && (forall d :: d in r ==> exists n :: n in nodes && d == DegreeOf(links, n))
      && (DegreeOf(links, nodes[k]) !in r ==> |r| == 5 && Degree(links, nodes[k].base.id) <= r[4].connections)
  {
    var degrees := Map(nodes, (n: NetNode) => DegreeOf(links, n));
    var sorted := SortDesc(degrees, ConnectionsOf);
    var r := Take(sorted, 5);
    assert forall i :: 0 <= i < |r| ==> r[i] == sorted[i];
    forall d | d in r ensures exists n :: n in nodes && d == DegreeOf(links, n) {
      assert d in multiset(sorted);
      assert d in degrees;
      var i :| 0 <= i < |degrees| && degrees[i] == d;
      assert nodes[i] in nodes;
    }
    var x := DegreeOf(links, nodes[k]);
    if x !in r {
      assert degrees[k] == x;
      TopOfSorted(degrees, ConnectionsOf, 5, x);
    }
  }

  // ===========================================================================
  // calculateNetworkDensity and analyzeNetwork

  /** Links over the n(n-1)/2 possible pairs; None where that is 0 and the
      division yields no finite number. None stands for both outcomes of the
      division: NaN when there are no links (0 / 0) and Infinity when there
      are links but fewer than two nodes, as with a self-link on a single
      node (n / 0). */
  function CalculateNetworkDensity(nodes: seq<NetNode>, links: seq<NetLink>): (r: Option<real>)
    ensures r.Some? <==> |nodes| >= 2
    ensures r.Some? ==> r.value * ((|nodes| * (|nodes| - 1)) as real / 2.0) == |links| as real
  {
    var n := |nodes|;
    var maxPossibleLinks := (n * (n - 1)) as real / 2.0;
    if maxPossibleLinks == 0.0 then None else Some(|links| as real / maxPossibleLinks)
  }

  /** The density is a ratio: 0 without links, 1 with one link per pair, at
      most 1 with no more links than pairs. */
  lemma DensityBounds(nodes: seq<NetNode>, links: seq<NetLink>)
    requires |nodes| >= 2
    ensures var d := CalculateNetworkDensity(nodes, links).value;
      0.0 <= d
      && (links == [] ==> d == 0.0)
      && (2 * |links| <= |nodes| * (|nodes| - 1) ==> d <= 1.0)
      && (2 * |links| == |nodes| * (|nodes| - 1) ==> d == 1.0)
  {
    var n := |nodes|;
    assert n * (n - 1) >= 2 by {
      assert n - 1 >= 1;
      assert n * (n - 1) >= n * 1;
    }
    var m := (n * (n - 1)) as real / 2.0;
    var d := CalculateNetworkDensity(nodes, links).value;
    assert m >= 1.0;
    assert d == |links| as real / m;
    if 2 * |links| <= n * (n - 1) {
      assert |links| as real <= m;
    }
    if 2 * |links| == n * (n - 1) {
      assert |links| as real == m;
    }
  }

  datatype Insights = Insights(density: Option<real>, opportunities: seq<Opportunity>, keyConnectors: seq<NodeDegree>)

  /** `{}` (None) when the graph or one of its arrays is missing. */
  method AnalyzeNetwork(data: Option<NetGraphInput>) returns (r: Option<Insights>)
    ensures r.None? <==> data.None? || data.value.nodes.None? || data.value.links.None?
    ensures r.Some? ==>
      var nodes, links := data.value.nodes.value, data.value.links.value;
      r.value.density == CalculateNetworkDensity(nodes, links)
      && r.value.opportunities == Take(AllPairs(links, nodes, nodes), 10)
      && r.value.keyConnectors == IdentifyKeyConnectors(nodes, links)
  {
    if data.None? || data.value.nodes.None? || data.value.links.None? {
      return None;
    }
    var nodes, links := data.value.nodes.value, data.value.links.value;
    var density := CalculateNetworkDensity(nodes, links);
    var opportunities := FindPartnershipOpportunities(nodes, links);
    var keyConnectors := IdentifyKeyConnectors(nodes, links);
    r := Some(Insights(density, opportunities, keyConnectors));
  }

  /** A graph handed to the analysis, whose arrays may be missing. */
  datatype NetGraphInput = NetGraphInput(nodes: Option<seq<NetNode>>, links: Option<seq<NetLink>>)
}
