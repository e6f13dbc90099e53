/** The dashboard helpers: the graph builder that turns partner and staff
    records into nodes and links, the contribution, project, country, SDG,
    region and sector aggregates, and the dashboard's partner filter. */
module DashboardUtils {
  import opened Common
  import opened Collections
  import opened Records

  // ===========================================================================
  // processNetworkData

  /** A built node. Staff nodes carry no division. */
  datatype GraphNode =
    | PartnerNode(id: NodeId, name: string, partnerType: string, sector: string, region: Option<string>,
                  contributions: int, projects: nat, contactPerson: string)
    | StaffNode(id: NodeId, name: string, directorate: string)

  datatype Link = Link(source: NodeId, target: NodeId, kind: string)
  datatype Graph = Graph(nodes: seq<GraphNode>, links: seq<Link>)

  /** `c.amount || c.estimatedValue || 0` */
  function ContributionValue(c: Contribution): int
  {
    if c.amount != 0 then c.amount else c.estimatedValue
  }

  function PartnerNodeOf(p: Partner): GraphNode
  {
    PartnerNode(PartnerId(p.id), p.name, p.partnerType, p.sector, p.region,
                SumBy(OrEmpty(p.contributions), ContributionValue), |OrEmpty(p.projects)|,
                p.mainContactPerson)
  }

  /** A staff record's node: a missing directorate becomes 'Unknown'. */
  function StaffNodeOf(s: StaffMember): (r: GraphNode)
    ensures r.StaffNode? && r.id == StaffId(s.id) && r.name == s.name
    ensures r.directorate == (if s.directorate != "" then s.directorate else "Unknown")
    ensures r.directorate != ""
  {
    StaffNode(StaffId(s.id), s.name, if s.directorate != "" then s.directorate else "Unknown")
  }

  /** Some partner names `staffId` as its (truthy) main contact. */
  predicate NamesContact(ps: seq<Partner>, staffId: string)
  {
    exists i :: 0 <= i < |ps| && ps[i].mainContactPerson != "" && ps[i].mainContactPerson == staffId
  }

  /** `includedStaffIds`: the truthy contacts that some staff record has as id. */
  function IncludedStaffIds(ps: seq<Partner>, staff: seq<StaffMember>): set<string>
  {
    set i, s | 0 <= i < |ps| && s in staff && ps[i].mainContactPerson != "" && s.id == ps[i].mainContactPerson
      :: ps[i].mainContactPerson
  }

  function NodeIds(nodes: seq<GraphNode>): set<NodeId>
  {
    set n | n in nodes :: n.id
  }

  /** Partner-to-staff links, for contacts that are built nodes. */
  function ContactLinks(ps: seq<Partner>, ids: set<NodeId>): seq<Link>
  {
    if ps == [] then []
    else
      var p := ps[|ps| - 1];
      ContactLinks(ps[..|ps| - 1], ids)
        + (if p.mainContactPerson != "" && StaffId(p.mainContactPerson) in ids
           then [Link(PartnerId(p.id), StaffId(p.mainContactPerson), "contact")] else [])
  }

  function ConnectionLinksOf(p: Partner, ids: set<NodeId>): seq<Link>
  {
    Map(Filter(OrEmpty(p.connections), c => c in ids), c => Link(PartnerId(p.id), c, "partner-partner"))
  }

  /** Partner-to-partner links, for connections that are built nodes. */
  function ConnectionLinks(ps: seq<Partner>, ids: set<NodeId>): seq<Link>
  {
    if ps == [] then [] else ConnectionLinks(ps[..|ps| - 1], ids) + ConnectionLinksOf(ps[|ps| - 1], ids)
  }

  /** The staff records that become nodes. */
  function KeptStaff(ps: seq<Partner>, staff: seq<StaffMember>): seq<StaffMember>
  {
    var included := IncludedStaffIds(ps, staff);
    Filter(staff, (s: StaffMember) => s.id in included)
  }

  function BuildNodes(ps: seq<Partner>, staff: seq<StaffMember>): seq<GraphNode>
  {
    Map(ps, PartnerNodeOf) + Map(KeptStaff(ps, staff), StaffNodeOf)
  }

  /** A missing partner list gives the empty graph; a missing staff list counts
      as empty. */
  function ProcessNetworkData(partners: Option<seq<Partner>>, staff: Option<seq<StaffMember>>): Graph
  {
    if partners.None? then Graph([], [])
    else
      var ps := partners.value;
      var nodes := BuildNodes(ps, OrEmpty(staff));
      var ids := NodeIds(nodes);
      Graph(nodes, ContactLinks(ps, ids) + ConnectionLinks(ps, ids))
  }

  /** The nodes of a built graph are the partner nodes and then the kept staff
      nodes. */
  lemma GraphNodes(ps: seq<Partner>, staff: Option<seq<StaffMember>>)
    ensures ProcessNetworkData(Some(ps), staff).nodes
            == Map(ps, PartnerNodeOf) + Map(KeptStaff(ps, OrEmpty(staff)), StaffNodeOf)
  {
  }

  /** One partner node per partner record, in input order, ahead of every staff
      node. */
  lemma PartnerNodesFirst(ps: seq<Partner>, staff: Option<seq<StaffMember>>)
    ensures var g := ProcessNetworkData(Some(ps), staff);
      |g.nodes| >= |ps|
      && (forall i :: 0 <= i < |ps| ==> g.nodes[i] == PartnerNodeOf(ps[i]))
      && (forall k :: |ps| <= k < |g.nodes| ==> g.nodes[k].StaffNode?)
  {
    GraphNodes(ps, staff);
  }

  /** A named contact's staff record is kept. */
  lemma NamedStaffKept(ps: seq<Partner>, staff: seq<StaffMember>, s: StaffMember)
    requires s in staff && NamesContact(ps, s.id)
    ensures s in KeptStaff(ps, staff)
  {
    var i :| 0 <= i < |ps| && ps[i].mainContactPerson != "" && ps[i].mainContactPerson == s.id;
    assert s.id in IncludedStaffIds(ps, staff);
  }

  /** A kept staff record is named as contact by some partner. */
  lemma KeptStaffNamed(ps: seq<Partner>, staff: seq<StaffMember>, t: StaffMember)
    requires t in KeptStaff(ps, staff)
    ensures t in staff && NamesContact(ps, t.id)
  {
    assert t.id in IncludedStaffIds(ps, staff);
  }

  /** A staff node among the built nodes is the node of a kept record. */
  lemma StaffNodeKept(ps: seq<Partner>, staff: seq<StaffMember>, n: GraphNode)
    requires n in Map(ps, PartnerNodeOf) + Map(KeptStaff(ps, staff), StaffNodeOf) && n.StaffNode?
    ensures exists t :: t in KeptStaff(ps, staff) && n == StaffNodeOf(t)
  {
    var parts, kept := Map(ps, PartnerNodeOf), KeptStaff(ps, staff);
    assert n !in parts;
    var k :| 0 <= k < |kept| && Map(kept, StaffNodeOf)[k] == n;
    assert kept[k] in kept;
  }

  /** A staff record becomes a node exactly when some partner names it as main
      contact. */
  lemma StaffNodeIff(ps: seq<Partner>, staff: seq<StaffMember>, s: StaffMember)
    requires s in staff
    ensures StaffNodeOf(s) in ProcessNetworkData(Some(ps), Some(staff)).nodes <==> NamesContact(ps, s.id)
  {
    var kept := KeptStaff(ps, staff);
    GraphNodes(ps, Some(staff));
    if NamesContact(ps, s.id) {
      NamedStaffKept(ps, staff, s);
      var k :| 0 <= k < |kept| && kept[k] == s;
      assert Map(kept, StaffNodeOf)[k] == StaffNodeOf(s);
    }
    if StaffNodeOf(s) in Map(ps, PartnerNodeOf) + Map(kept, StaffNodeOf) {
      StaffNodeKept(ps, staff, StaffNodeOf(s));
      var t :| t in kept && StaffNodeOf(s) == StaffNodeOf(t);
      KeptStaffNamed(ps, staff, t);
    }
  }

  /** Every staff node is the node of a staff record that some partner names
      as main contact: there are no orphan staff nodes. */
  lemma NoOrphanStaff(ps: seq<Partner>, staff: Option<seq<StaffMember>>, n: GraphNode)
    requires n in ProcessNetworkData(Some(ps), staff).nodes && n.StaffNode?
    ensures exists s :: s in OrEmpty(staff) && n == StaffNodeOf(s) && NamesContact(ps, s.id)
  {
    GraphNodes(ps, staff);
    StaffNodeKept(ps, OrEmpty(staff), n);
    var t :| t in KeptStaff(ps, OrEmpty(staff)) && n == StaffNodeOf(t);
    KeptStaffNamed(ps, OrEmpty(staff), t);
  }

  lemma {:induction false} ContactLinksResolve(ps: seq<Partner>, ids: set<NodeId>)
    ensures forall l :: l in ContactLinks(ps, ids) ==>
      l.target in ids && exists i :: 0 <= i < |ps| && l.source == PartnerId(ps[i].id)
  {
    if ps != [] {
      var init := ps[..|ps| - 1];
      ContactLinksResolve(init, ids);
      forall l | l in ContactLinks(init, ids) ensures exists i :: 0 <= i < |ps| && l.source == PartnerId(ps[i].id) {
        var i :| 0 <= i < |init| && l.source == PartnerId(init[i].id);
        assert ps[i] == init[i];
      }
    }
  }

  lemma {:induction false} ConnectionLinksResolve(ps: seq<Partner>, ids: set<NodeId>)
    ensures forall l :: l in ConnectionLinks(ps, ids) ==>
      l.target in ids && exists i :: 0 <= i < |ps| && l.source == PartnerId(ps[i].id)
  {
    if ps != [] {
      var init, p := ps[..|ps| - 1], ps[|ps| - 1];
      ConnectionLinksResolve(init, ids);
      forall l | l in ConnectionLinks(ps, ids)
        ensures l.target in ids && exists i :: 0 <= i < |ps| && l.source == PartnerId(ps[i].id)
      {
        if l in ConnectionLinks(init, ids) {
          var i :| 0 <= i < |init| && l.source == PartnerId(init[i].id);
          assert ps[i] == init[i];
        } else {
          var kept := Filter(OrEmpty(p.connections), c => c in ids);
          assert l in Map(kept, c => Link(PartnerId(p.id), c, "partner-partner"));
          var k :| 0 <= k < |kept| && l == Link(PartnerId(p.id), kept[k], "partner-partner");
          assert kept[k] in kept;
          assert l.source == PartnerId(ps[|ps| - 1].id);
        }
      }
    }
  }

  /** Referential integrity: both ends of every link are built nodes. */
  lemma LinksResolve(partners: Option<seq<Partner>>, staff: Option<seq<StaffMember>>)
    ensures var g := ProcessNetworkData(partners, staff);
      forall l :: l in g.links ==> l.source in NodeIds(g.nodes) && l.target in NodeIds(g.nodes)
  {
    if partners.Some? {
      var ps := partners.value;
      var g := ProcessNetworkData(partners, staff);
      var ids := NodeIds(g.nodes);
      ContactLinksResolve(ps, ids);
      ConnectionLinksResolve(ps, ids);
      PartnerNodesFirst(ps, staff);
      forall l | l in g.links ensures l.source in ids && l.target in ids {
        assert l in ContactLinks(ps, ids) || l in ConnectionLinks(ps, ids);
        var i :| 0 <= i < |ps| && l.source == PartnerId(ps[i].id);
        assert g.nodes[i] == PartnerNodeOf(ps[i]);
      }
    }
  }

  // ---------------------------------------------------------------------------
  // Worked examples

  function SamplePartner(id: int, contact: string, connections: seq<NodeId>): Partner
  {
    Partner(id, "Partner", "NGO", "Energy", Some("Africa"), "Kenya", "Active", "", "", "", "", contact,
            None, None, None, None, None, None, Some(connections))
  }

  /** Two partners, the first naming a listed staff member as contact and
      connected to the second and to an id no node has; a second staff member
      nobody names. The graph has the two partner nodes and the one named staff
      node, one contact link and one partner link. */
  lemma ConnectedPair(p1: Partner, p2: Partner, s1: StaffMember, s2: StaffMember, dangling: NodeId)
    requires p1.id != p2.id && p1.mainContactPerson == s1.id && s1.id != "" && p2.mainContactPerson == ""
    requires s2.id != s1.id
    requires dangling != PartnerId(p1.id) && dangling != PartnerId(p2.id) && dangling != StaffId(s1.id)
    requires p1.connections == Some([PartnerId(p2.id), dangling]) && p2.connections == Some([])
    ensures var g := ProcessNetworkData(Some([p1, p2]), Some([s1, s2]));
      g.nodes == [PartnerNodeOf(p1), PartnerNodeOf(p2), StaffNodeOf(s1)]
      && g.links == [Link(PartnerId(p1.id), StaffId(s1.id), "contact"), Link(PartnerId(p1.id), PartnerId(p2.id), "partner-partner")]
  {
    PairNodes(p1, p2, s1, s2);
    var ids := NodeIds(BuildNodes([p1, p2], [s1, s2]));
    PairContactLinks(p1, p2, ids, s1.id);
    PairConnectionLinks(p1, p2, ids, dangling);
  }

  /** The nodes of the two-partner graph, and their ids. */
  lemma PairNodes(p1: Partner, p2: Partner, s1: StaffMember, s2: StaffMember)
    requires p1.mainContactPerson == s1.id && s1.id != "" && p2.mainContactPerson == "" && s2.id != s1.id
    ensures BuildNodes([p1, p2], [s1, s2]) == [PartnerNodeOf(p1), PartnerNodeOf(p2), StaffNodeOf(s1)]
    ensures NodeIds(BuildNodes([p1, p2], [s1, s2])) == {PartnerId(p1.id), PartnerId(p2.id), StaffId(s1.id)}
  {
    PairKeptStaff(p1, p2, s1, s2);
    var nodes := BuildNodes([p1, p2], [s1, s2]);
    assert nodes == [PartnerNodeOf(p1), PartnerNodeOf(p2), StaffNodeOf(s1)];
    assert nodes[0].id == PartnerId(p1.id) && nodes[1].id == PartnerId(p2.id) && nodes[2].id == StaffId(s1.id);
  }

  /** Only the named staff member of the two is kept. */
  lemma PairKeptStaff(p1: Partner, p2: Partner, s1: StaffMember, s2: StaffMember)
    requires p1.mainContactPerson == s1.id && s1.id != "" && p2.mainContactPerson == "" && s2.id != s1.id
    ensures KeptStaff([p1, p2], [s1, s2]) == [s1]
  {
    var ps, staff := [p1, p2], [s1, s2];
    var included := IncludedStaffIds(ps, staff);
    assert s1.id in included by { assert ps[0].mainContactPerson == s1.id; }
    assert s2.id !in included;
    assert staff[..1] == [s1];
    assert staff[..1][..0] == [];
  }

  /** Only the first partner has a contact link. */
  lemma PairContactLinks(p1: Partner, p2: Partner, ids: set<NodeId>, contact: string)
    requires p1.mainContactPerson == contact && contact != "" && StaffId(contact) in ids && p2.mainContactPerson == ""
    ensures ContactLinks([p1, p2], ids) == [Link(PartnerId(p1.id), StaffId(contact), "contact")]
  {
    var ps := [p1, p2];
    assert [p1][..0] == [];
    assert ContactLinks([p1], ids) == [Link(PartnerId(p1.id), StaffId(contact), "contact")];
    assert ps[..1] == [p1];
  }

  /** Only the first partner's connection to the second becomes a link. */
  lemma PairConnectionLinks(p1: Partner, p2: Partner, ids: set<NodeId>, dangling: NodeId)
    requires PartnerId(p2.id) in ids && dangling !in ids
    requires p1.connections == Some([PartnerId(p2.id), dangling]) && p2.connections == Some([])
    ensures ConnectionLinks([p1, p2], ids) == [Link(PartnerId(p1.id), PartnerId(p2.id), "partner-partner")]
  {
    OneOfTwoConnections(p1, ids, PartnerId(p2.id), dangling);
    assert ConnectionLinksOf(p2, ids) == [];
    assert [p1][..0] == [];
    assert ConnectionLinks([p1], ids) == ConnectionLinksOf(p1, ids);
    assert [p1, p2][..1] == [p1];
  }

  /** Of two connections, the one to a built node becomes a link. */
  lemma OneOfTwoConnections(p: Partner, ids: set<NodeId>, kept: NodeId, dropped: NodeId)
    requires p.connections == Some([kept, dropped]) && kept in ids && dropped !in ids
    ensures ConnectionLinksOf(p, ids) == [Link(PartnerId(p.id), kept, "partner-partner")]
  {
    var f := (c: NodeId) => c in ids;
    var cs := [kept, dropped];
    assert [kept][..0] == [];
    assert Filter([kept], f) == [kept];
    assert cs[..1] == [kept];
    assert Filter(cs, f) == [kept];
  }

  /** A named staff member without a directorate is drawn under 'Unknown'. */
  lemma UnknownDirectorateNode(ps: seq<Partner>, staff: seq<StaffMember>, s: StaffMember)
    requires s in staff && NamesContact(ps, s.id) && s.directorate == ""
    ensures StaffNode(StaffId(s.id), s.name, "Unknown") in ProcessNetworkData(Some(ps), Some(staff)).nodes
  {
    StaffNodeIff(ps, staff, s);
  }

  lemma OneContact(p: Partner, s: StaffMember)
    requires p.mainContactPerson == s.id && s.id != "" && p.connections == Some([])
    ensures var g := ProcessNetworkData(Some([p]), Some([s]));
      |g.nodes| == 2 && g.links == [Link(PartnerId(p.id), StaffId(s.id), "contact")]
  {
    var ps, staff := [p], [s];
    var included := IncludedStaffIds(ps, staff);
    assert s.id in included by { assert ps[0].mainContactPerson == s.id; }
    var kept := KeptStaff(ps, staff);
    assert kept == [s] by { assert staff[..0] == []; }
    var nodes := BuildNodes(ps, staff);
    assert nodes == [PartnerNodeOf(p), StaffNodeOf(s)];
    var ids := NodeIds(nodes);
    assert StaffId(s.id) in ids by { assert nodes[1].id == StaffId(s.id); }
    assert ps[..0] == [];
    assert ContactLinks(ps, ids) == [Link(PartnerId(p.id), StaffId(s.id), "contact")];
    assert ConnectionLinks(ps, ids) == [] by {
      assert Filter(OrEmpty(p.connections), c => c in ids) == [];
    }
  }

  /** One partner whose only connection names no built node: one node and no
      link. */
  lemma DanglingConnectionScenario()
    ensures var g := ProcessNetworkData(Some([SamplePartner(1, "", [PartnerId(2)])]), None);
      |g.nodes| == 1 && g.links == []
  {
    var p := SamplePartner(1, "", [PartnerId(2)]);
    var ps := [p];
    var nodes := BuildNodes(ps, []);
    assert nodes == [PartnerNodeOf(p)];
    var ids := NodeIds(nodes);
    assert ids == {PartnerId(1)};
    assert ps[..0] == [];
    var cs := [PartnerId(2)];
    assert Filter(cs, c => c in ids) == [] by { assert cs[..0] == []; }
  }

  // ===========================================================================
  // calculateTotalContributions

  /** 'Financial' counts its amount, anything else its estimated value. */
  function ContributionTotal(c: Contribution): int
  {
    if c.kind == "Financial" then c.amount else c.estimatedValue
  }

  function PartnerContributionTotal(p: Partner): int
  {
    SumBy(OrEmpty(p.contributions), ContributionTotal)
  }

  function TotalContributions(ps: seq<Partner>): int
  {
    SumBy(ps, PartnerContributionTotal)
  }

  method CalculateTotalContributions(partners: Option<seq<Partner>>) returns (total: int)
    ensures partners.None? ==> total == 0
    ensures partners.Some? ==> total == TotalContributions(partners.value)
  {
    total := 0;
    if partners.None? {
      return;
    }
    var ps := partners.value;
    for i := 0 to |ps|
      invariant total == TotalContributions(ps[..i])
    {
      var partner := ps[i];
      if partner.contributions.Some? {
        var cs := partner.contributions.value;
        for j := 0 to |cs|
          invariant total == TotalContributions(ps[..i]) + SumBy(cs[..j], ContributionTotal)
        {
          var contrib := cs[j];
          total := total + (if contrib.kind == "Financial" then contrib.amount else contrib.estimatedValue);
          assert cs[..j + 1][..j] == cs[..j];
        }
        assert cs[..|cs|] == cs;
      }
      assert ps[..i + 1][..i] == ps[..i];
    }
    assert ps[..|ps|] == ps;
  }

  /** The total over two partner lists is the sum of their totals. */
  lemma TotalContributionsAppend(a: seq<Partner>, b: seq<Partner>)
    ensures TotalContributions(a + b) == TotalContributions(a) + TotalContributions(b)
  {
    SumByAppend(a, b, PartnerContributionTotal);
  }

  // ===========================================================================
  // getContributionTypeData

  datatype NameValue = NameValue(name: string, value: int)

  function FinancialPart(c: Contribution): int
  {
    if c.kind == "Financial" then c.amount else 0
  }

  function InKindPart(c: Contribution): int
  {
    if c.kind == "In-kind" then c.estimatedValue else 0
  }

  function OtherPart(c: Contribution): int
  {
    if c.kind != "Financial" && c.kind != "In-kind" then c.estimatedValue else 0
  }

  function TypeTotal(ps: seq<Partner>, part: Contribution -> int): int
  {
    SumBy(ps, (p: Partner) => SumBy(OrEmpty(p.contributions), part))
  }

  method GetContributionTypeData(partners: Option<seq<Partner>>) returns (r: seq<NameValue>)
    ensures partners.None? ==> r == [NameValue("Financial", 0), NameValue("In-kind", 0), NameValue("Other", 0)]
    ensures partners.Some? ==> r == [NameValue("Financial", TypeTotal(partners.value, FinancialPart)),
                                     NameValue("In-kind", TypeTotal(partners.value, InKindPart)),
                                     NameValue("Other", TypeTotal(partners.value, OtherPart))]
  {
    var financial, inKind, other := 0, 0, 0;
    if partners.Some? {
      var ps := partners.value;
      for i := 0 to |ps|
        invariant financial == TypeTotal(ps[..i], FinancialPart)
        invariant inKind == TypeTotal(ps[..i], InKindPart)
        invariant other == TypeTotal(ps[..i], OtherPart)
      {
        var partner := ps[i];
        if partner.contributions.Some? {
          var cs := partner.contributions.value;
          for j := 0 to |cs|
            invariant financial == TypeTotal(ps[..i], FinancialPart) + SumBy(cs[..j], FinancialPart)
            invariant inKind == TypeTotal(ps[..i], InKindPart) + SumBy(cs[..j], InKindPart)
            invariant other == TypeTotal(ps[..i], OtherPart) + SumBy(cs[..j], OtherPart)
          {
            var contrib := cs[j];
            if contrib.kind == "Financial" {
              financial := financial + contrib.amount;
            } else if contrib.kind == "In-kind" {
              inKind := inKind + contrib.estimatedValue;
            } else {
              other := other + contrib.estimatedValue;
            }
            assert cs[..j + 1][..j] == cs[..j];
          }
          assert cs[..|cs|] == cs;
        }
        assert ps[..i + 1][..i] == ps[..i];
      }
      assert ps[..|ps|] == ps;
    }
    r := [NameValue("Financial", financial), NameValue("In-kind", inKind), NameValue("Other", other)];
  }

  lemma {:induction false} PartsAddUp(cs: seq<Contribution>)
    ensures SumBy(cs, FinancialPart) + SumBy(cs, InKindPart) + SumBy(cs, OtherPart) == SumBy(cs, ContributionTotal)
  {
    if cs != [] {
      PartsAddUp(cs[..|cs| - 1]);
    }
  }

  /** The three chart slices add up to the contribution total. */
  lemma {:induction false} TypeTotalsAddUp(ps: seq<Partner>)
    ensures TypeTotal(ps, FinancialPart) + TypeTotal(ps, InKindPart) + TypeTotal(ps, OtherPart)
            == TotalContributions(ps)
  {
    if ps != [] {
      TypeTotalsAddUp(ps[..|ps| - 1]);
      PartsAddUp(OrEmpty(ps[|ps| - 1].contributions));
    }
  }

  // ===========================================================================
  // calculateActiveProjects

  predicate IsActiveProject(pr: Project)
  {
    pr.status == "In Progress" || pr.status == "Active"
  }

  function ActiveProjectsOf(p: Partner): int
  {
    CountWhere(OrEmpty(p.projects), IsActiveProject)
  }

  function ActiveProjects(ps: seq<Partner>): int
  {
    SumBy(ps, ActiveProjectsOf)
  }

  function ProjectsOf(p: Partner): int
  {
    |OrEmpty(p.projects)|
  }

  function ActiveFilteredOf(p: Partner): int
  {
    |Filter(OrEmpty(p.projects), IsActiveProject)|
  }

  function ProjectCount(ps: seq<Partner>): int
  {
    SumBy(ps, ProjectsOf)
  }

  method CalculateActiveProjects(partners: Option<seq<Partner>>) returns (activeProjects: int)
    ensures partners.None? ==> activeProjects == 0
    ensures partners.Some? ==> activeProjects == ActiveProjects(partners.value)
  {
    activeProjects := 0;
    if partners.None? {
      return;
    }
    var ps := partners.value;
    for i := 0 to |ps|
      invariant activeProjects == ActiveProjects(ps[..i])
    {
      var partner := ps[i];
      assert ActiveProjects(ps[..i + 1]) == ActiveProjects(ps[..i]) + ActiveProjectsOf(partner) by {
        assert ps[..i + 1][..i] == ps[..i];
      }
      if partner.projects.Some? {
        var prs := partner.projects.value;
        for j := 0 to |prs|
          invariant activeProjects == ActiveProjects(ps[..i]) + CountWhere(prs[..j], IsActiveProject)
        {
          if prs[j].status == "In Progress" || prs[j].status == "Active" {
            activeProjects := activeProjects + 1;
          }
          assert prs[..j + 1][..j] == prs[..j];
        }
        assert prs[..|prs|] == prs;
      }
      assert ps[..i + 1][..i] == ps[..i];
    }
    assert ps[..|ps|] == ps;
  }

  /** The active projects are the projects kept by the status test, so there are
      never more of them than projects. */
  lemma {:induction false} ActiveProjectsBound(ps: seq<Partner>)
    ensures 0 <= ActiveProjects(ps) <= ProjectCount(ps)
    ensures ActiveProjects(ps) == SumBy(ps, ActiveFilteredOf)
  {
    if ps != [] {
      var p := ps[|ps| - 1];
      ActiveProjectsBound(ps[..|ps| - 1]);
      CountWhereBound(OrEmpty(p.projects), IsActiveProject);
      FilterLength(OrEmpty(p.projects), IsActiveProject);
    }
  }

  // ===========================================================================
  // getUniqueCountries

  function TrimAll(pieces: seq<string>): (r: seq<string>)
    ensures |r| == |pieces| && forall k :: 0 <= k < |pieces| ==> r[k] == Trim(pieces[k])
  {
    if pieces == [] then []
    else
      var init := TrimAll(pieces[..|pieces| - 1]);
      init + [Trim(pieces[|pieces| - 1])]
  }

  /** The trimmed comma-separated places of a project with a location. */
  function ProjectPlaces(pr: Project): seq<string>
  {
    if pr.location != "" then TrimAll(Split(pr.location, ',')) else []
  }

  function LocationPieces(prs: seq<Project>): seq<string>
  {
    FlatMap(prs, ProjectPlaces)
  }

  function CountryOf(p: Partner): seq<string>
  {
    if p.country != "" then [p.country] else []
  }

  /** The values one partner adds to the country set. */
  function PartnerPlaces(p: Partner): seq<string>
  {
    CountryOf(p) + LocationPieces(OrEmpty(p.projects))
  }

  /** Every value added to the country set, in the order of the additions. */
  function CountryCandidates(ps: seq<Partner>): seq<string>
  {
    FlatMap(ps, PartnerPlaces)
  }

  /** `locations.forEach(loc => countries.add(loc.trim()))` */
  method AddPlaces(countries0: seq<string>, locations: seq<string>) returns (countries: seq<string>)
    ensures countries == AddAll(countries0, TrimAll(locations))
  {
    countries := countries0;
    for k := 0 to |locations|
      invariant countries == AddAll(countries0, TrimAll(locations[..k]))
    {
      countries := AddUnique(countries, Trim(locations[k]));
      assert TrimAll(locations[..k + 1])[..k] == TrimAll(locations[..k]) by {
        assert locations[..k + 1][..k] == locations[..k];
      }
    }
    assert locations[..|locations|] == locations;
  }

  /** The places of one project, when it has a location. */
  method AddProjectPlace(countries0: seq<string>, project: Project) returns (countries: seq<string>)
    ensures countries == AddAll(countries0, ProjectPlaces(project))
  {
    countries := countries0;
    if project.location != "" {
      countries := AddPlaces(countries, Split(project.location, ','));
    }
  }

  /** `partner.projects.forEach(...)`: the places of every located project. */
  method AddProjectPlaces(countries0: seq<string>, projects: seq<Project>) returns (countries: seq<string>)
    ensures countries == AddAll(countries0, LocationPieces(projects))
  {
    countries := countries0;
    for j := 0 to |projects|
      invariant countries == AddAll(countries0, LocationPieces(projects[..j]))
    {
      ghost var places := ProjectPlaces(projects[j]);
      countries := AddProjectPlace(countries, projects[j]);
      assert LocationPieces(projects[..j + 1]) == LocationPieces(projects[..j]) + places by {
        assert projects[..j + 1][..j] == projects[..j];
      }
      AddAllAppend(countries0, LocationPieces(projects[..j]), places);
    }
    assert projects[..|projects|] == projects;
  }

  method GetUniqueCountries(partners: Option<seq<Partner>>) returns (countries: seq<string>)
    ensures partners.None? ==> countries == []
    ensures partners.Some? ==> countries == AddAll([], CountryCandidates(partners.value))
  {
    countries := [];
    if partners.None? {
      return;
    }
    var ps := partners.value;
    for i := 0 to |ps|
      invariant countries == AddAll([], CountryCandidates(ps[..i]))
    {
      var partner := ps[i];
      ghost var before := countries;
      if partner.country != "" {
        countries := AddUnique(countries, partner.country);
        assert [partner.country][..0] == [];
      }
      assert countries == AddAll(before, CountryOf(partner));
      ghost var afterCountry := countries;
      if partner.projects.Some? {
        countries := AddProjectPlaces(countries, partner.projects.value);
      }
      assert countries == AddAll(afterCountry, LocationPieces(OrEmpty(partner.projects)));
      assert CountryCandidates(ps[..i + 1]) == CountryCandidates(ps[..i]) + PartnerPlaces(partner) by {
        assert ps[..i + 1][..i] == ps[..i];
      }
      AddAllAppend([], CountryCandidates(ps[..i]), PartnerPlaces(partner));
      AddAllAppend(before, CountryOf(partner), LocationPieces(OrEmpty(partner.projects)));
    }
    assert ps[..|ps|] == ps;
  }

  /** A place of one of the partner's projects. */
  predicate IsProjectPlace(p: Partner, x: string)
  {
    exists pr :: pr in OrEmpty(p.projects) && x in ProjectPlaces(pr)
  }

  /** `x` is the partner's truthy country or one of its project places. */
  predicate IsCountryOf(p: Partner, x: string)
  {
    (p.country != "" && p.country == x) || IsProjectPlace(p, x)
  }

  lemma PartnerPlacesMembers(p: Partner, x: string)
    ensures x in PartnerPlaces(p) <==> IsCountryOf(p, x)
  {
    FlatMapMembers(OrEmpty(p.projects), ProjectPlaces, x);
  }

  lemma CountryCandidatesMembers(ps: seq<Partner>, x: string)
    ensures x in CountryCandidates(ps) <==> exists p :: p in ps && IsCountryOf(p, x)
  {
    FlatMapMembers(ps, PartnerPlaces, x);
    forall p | p in ps ensures x in PartnerPlaces(p) <==> IsCountryOf(p, x) {
      PartnerPlacesMembers(p, x);
    }
  }

  /** The unique countries hold no repeats, and hold exactly the truthy partner
      countries and the trimmed pieces of the truthy project locations. */
  lemma UniqueCountriesFacts(ps: seq<Partner>, x: string)
    ensures Distinct(AddAll([], CountryCandidates(ps)))
    ensures x in AddAll([], CountryCandidates(ps)) <==> exists p :: p in ps && IsCountryOf(p, x)
  {
    AddAllFacts([], CountryCandidates(ps));
    CountryCandidatesMembers(ps, x);
  }

  // ===========================================================================
  // getSDGAlignmentData

  function SdgsOf(p: Partner): seq<int>
  {
    OrEmpty(p.sdgAlignment)
  }

  /** Every SDG number of every partner, in visiting order. */
  function SdgList(ps: seq<Partner>): seq<int>
  {
    FlatMap(ps, SdgsOf)
  }

  /** A number whose property key is an array index: such keys come first in
      `Object.keys`, in ascending order; all other keys follow in insertion
      order. */
  predicate IsArrayIndex(k: int)
  {
    0 <= k < 4294967295
  }

  predicate NotArrayIndex(k: int)
  {
    !IsArrayIndex(k)
  }

  function NegKey(k: int): int
  {
    -k
  }

  /** `Object.keys` of an object whose numeric keys were added in the given order. */
  function ObjectKeyOrder(keys: seq<int>): seq<int>
  {
    SortDesc(Filter(keys, IsArrayIndex), NegKey) + Filter(keys, NotArrayIndex)
  }

  /** The keys of an object are its added keys. */
  lemma ObjectKeyOrderMembers(keys: seq<int>)
    ensures multiset(ObjectKeyOrder(keys)) == multiset(keys)
    ensures forall k :: k in ObjectKeyOrder(keys) <==> k in keys
  {
    var r := ObjectKeyOrder(keys);
    FilterPartition(keys, IsArrayIndex, NotArrayIndex);
    forall k ensures k in r <==> k in keys {
      assert k in r <==> k in multiset(r);
    }
  }

  lemma ObjectKeyOrderDistinct(keys: seq<int>)
    requires Distinct(keys)
    ensures Distinct(ObjectKeyOrder(keys))
  {
    var idx := Filter(keys, IsArrayIndex);
    var rest := Filter(keys, NotArrayIndex);
    var sorted := SortDesc(idx, NegKey);
    var r := sorted + rest;
    FilterDistinct(keys, IsArrayIndex);
    FilterDistinct(keys, NotArrayIndex);
    PermutationDistinct(sorted, idx);
    forall i, j | 0 <= i < j < |r| ensures r[i] != r[j] {
      if i < |sorted| <= j {
        assert r[i] in multiset(idx) && r[j] == rest[j - |sorted|];
        assert rest[j - |sorted|] in rest;
      }
    }
  }

  /** Sorting distinct numbers by their negation orders them ascending. */
  lemma AscendingByNegKey(sorted: seq<int>)
    requires Distinct(sorted) && NonIncreasing(sorted, NegKey)
    ensures forall i, j :: 0 <= i < j < |sorted| ==> sorted[i] < sorted[j]
  {
    forall i, j | 0 <= i < j < |sorted| ensures sorted[i] < sorted[j] {
      assert NegKey(sorted[i]) >= NegKey(sorted[j]);
    }
  }

  /** The array-index keys, sorted ascending. */
  lemma SortedIndices(keys: seq<int>)
    requires Distinct(keys)
    ensures var sorted := SortDesc(Filter(keys, IsArrayIndex), NegKey);
      (forall k :: k in sorted ==> IsArrayIndex(k))
      && forall i, j :: 0 <= i < j < |sorted| ==> sorted[i] < sorted[j]
  {
    var idx := Filter(keys, IsArrayIndex);
    var sorted := SortDesc(idx, NegKey);
    FilterDistinct(keys, IsArrayIndex);
    PermutationDistinct(sorted, idx);
    AscendingByNegKey(sorted);
    forall k | k in sorted ensures IsArrayIndex(k) {
      assert k in multiset(idx);
    }
  }

  /** Array-index keys come first, in ascending order; the other keys follow
      in the order they were added. */
  lemma ObjectKeyOrderIndicesFirst(keys: seq<int>)
    requires Distinct(keys)
    ensures var r := ObjectKeyOrder(keys);
      (forall i, j :: 0 <= i < j < |r| && IsArrayIndex(r[j]) ==> IsArrayIndex(r[i]) && r[i] < r[j])
      && r[|Filter(keys, IsArrayIndex)|..] == Filter(keys, NotArrayIndex)
  {
    var rest := Filter(keys, NotArrayIndex);
    var sorted := SortDesc(Filter(keys, IsArrayIndex), NegKey);
    var r := sorted + rest;
    SortedIndices(keys);
    forall i, j | 0 <= i < j < |r| && IsArrayIndex(r[j]) ensures IsArrayIndex(r[i]) && r[i] < r[j] {
      assert r[i] == sorted[i] && r[j] == sorted[j] && sorted[i] in sorted;
    }
    assert r[|sorted|..] == rest;
  }

  /** The chart label of an SDG number: `SDG ${sdg}`. */
  function SdgName(n: int): string
  {
    "SDG " + IntToString(n)
  }

  /** Different SDG numbers get different labels. */
  lemma SdgNameInjective(a: int, b: int)
    ensures SdgName(a) == SdgName(b) ==> a == b
  {
    if SdgName(a) == SdgName(b) {
      assert SdgName(a)[4..] == IntToString(a);
      assert SdgName(b)[4..] == IntToString(b);
      ParseIntOfIntToString(a);
      ParseIntOfIntToString(b);
    }
  }

  datatype SdgCount = SdgCount(sdg: string, count: nat)

  /** `Object.keys(sdgCounts).map(sdg => ({sdg: `SDG ${sdg}`, count: sdgCounts[sdg]}))` */
  function SdgRows(counts: seq<Entry<int>>): seq<SdgCount>
  {
    Map(ObjectKeyOrder(Keys(counts)), (k: int) => SdgCount(SdgName(k), Lookup(counts, k)))
  }

  /** The SDG numbers of one partner, counted into the tally. */
  method CountSdgs(counts0: seq<Entry<int>>, sdgs: seq<int>, ghost before: seq<int>)
    returns (counts: seq<Entry<int>>)
    requires counts0 == Tally(before)
    ensures counts == Tally(before + sdgs)
  {
    counts := counts0;
    assert before + sdgs[..0] == before;
    for j := 0 to |sdgs|
      invariant counts == Tally(before + sdgs[..j])
    {
      counts := Bump(counts, sdgs[j]);
      TallySnoc(before + sdgs[..j], sdgs[j]);
      assert before + sdgs[..j + 1] == before + sdgs[..j] + [sdgs[j]];
    }
    assert sdgs[..|sdgs|] == sdgs;
  }

  method GetSDGAlignmentData(partners: Option<seq<Partner>>) returns (r: seq<SdgCount>)
    ensures partners.None? ==> r == []
    ensures partners.Some? ==> r == SdgRows(Tally(SdgList(partners.value)))
  {
    if partners.None? {
      return [];
    }
    var ps := partners.value;
    var counts: seq<Entry<int>> := [];
    for i := 0 to |ps|
      invariant counts == Tally(SdgList(ps[..i]))
    {
      if ps[i].sdgAlignment.Some? {
        counts := CountSdgs(counts, ps[i].sdgAlignment.value, SdgList(ps[..i]));
      } else {
        assert SdgList(ps[..i]) + [] == SdgList(ps[..i]);
      }
      assert SdgList(ps[..i + 1]) == SdgList(ps[..i]) + SdgsOf(ps[i]) by {
        assert ps[..i + 1][..i] == ps[..i];
      }
    }
    assert ps[..|ps|] == ps;
    r := SdgRows(counts);
  }

  /** The SDG list holds exactly the SDG numbers of the partners. */
  lemma SdgListMembers(ps: seq<Partner>, n: int)
    ensures n in SdgList(ps) <==> exists p :: p in ps && n in OrEmpty(p.sdgAlignment)
  {
    FlatMapMembers(ps, SdgsOf, n);
  }

  /** Each row is labelled with an SDG number that occurs and counts its
      occurrences over all partners. */
  lemma SdgRowsCorrect(ps: seq<Partner>, i: nat)
    requires i < |SdgRows(Tally(SdgList(ps)))|
    ensures var list := SdgList(ps);
      exists n :: n in list && SdgRows(Tally(list))[i] == SdgCount(SdgName(n), Count(list, n))
  {
    var list := SdgList(ps);
    var t := Tally(list);
    var keys := ObjectKeyOrder(Keys(t));
    TallyFacts(list);
    ObjectKeyOrderMembers(Keys(t));
    assert SdgRows(t)[i] == SdgCount(SdgName(keys[i]), Lookup(t, keys[i]));
    assert keys[i] in keys;
  }

  /** Every SDG number that occurs has its row. */
  lemma SdgRowsComplete(ps: seq<Partner>, n: int)
    requires n in SdgList(ps)
    ensures var list := SdgList(ps); SdgCount(SdgName(n), Count(list, n)) in SdgRows(Tally(list))
  {
    var list := SdgList(ps);
    var t := Tally(list);
    var keys := ObjectKeyOrder(Keys(t));
    TallyFacts(list);
    ObjectKeyOrderMembers(Keys(t));
    assert n in Keys(t);
    var i :| 0 <= i < |keys| && keys[i] == n;
    assert SdgRows(t)[i] == SdgCount(SdgName(n), Count(list, n));
  }

  /** No label occurs twice. */
  lemma SdgRowsDistinct(ps: seq<Partner>)
    ensures var r := SdgRows(Tally(SdgList(ps)));
      forall i, j :: 0 <= i < j < |r| ==> r[i].sdg != r[j].sdg
  {
    var t := Tally(SdgList(ps));
    var keys := ObjectKeyOrder(Keys(t));
    TallyFacts(SdgList(ps));
    ObjectKeyOrderDistinct(Keys(t));
    var r := SdgRows(t);
    forall i, j | 0 <= i < j < |r| ensures r[i].sdg != r[j].sdg {
      SdgNameInjective(keys[i], keys[j]);
    }
  }

  // ===========================================================================
  // getRegionalDistributionData and getSectorDistributionData

  /** The region as a truthiness test reads it: a missing region is as falsy
      as an empty one. */
  function RegionOf(p: Partner): (r: string)
    ensures r != "" <==> p.region.Some? && p.region.value != ""
    ensures r != "" ==> p.region == Some(r)
  {
    if p.region.Some? then p.region.value else ""
  }

  function SectorOf(p: Partner): string
  {
    p.sector
  }

  /** `Object.keys(counts).map(k => ({name: k, value: counts[k]}))`, one entry at a time. */
  function EntryRow(e: Entry<string>): NameValue
  {
    NameValue(e.key, e.count)
  }

  function RowValue(row: NameValue): int
  {
    row.value
  }

  /** The rows of a counting object keyed by one text field of the partners,
      in the order `Object.keys` lists the keys. */
  function Distribution(ps: seq<Partner>, field: Partner -> string): seq<NameValue>
  {
    Map(ObjectEntries(Tally(TruthyKeys(ps, field))), EntryRow)
  }

  method GetRegionalDistributionData(partners: Option<seq<Partner>>) returns (r: seq<NameValue>)
    ensures partners.None? ==> r == []
    ensures partners.Some? ==> r == Distribution(partners.value, RegionOf)
  {
    if partners.None? {
      return [];
    }
    var ps := partners.value;
    var counts: seq<Entry<string>> := [];
    for i := 0 to |ps|
      invariant counts == Tally(TruthyKeys(ps[..i], RegionOf))
    {
      ghost var seen := TruthyKeys(ps[..i], RegionOf);
      assert TruthyKeys(ps[..i + 1], RegionOf)
          == seen + (if RegionOf(ps[i]) != "" then [RegionOf(ps[i])] else []) by {
        assert ps[..i + 1][..i] == ps[..i];
      }
      if RegionOf(ps[i]) != "" {
        counts := Bump(counts, RegionOf(ps[i]));
        TallySnoc(seen, RegionOf(ps[i]));
      } else {
        assert seen + [] == seen;
      }
    }
    assert ps[..|ps|] == ps;
    r := Map(ObjectEntries(counts), EntryRow);
  }

  /** One row per truthy field value, counting the partners that have it: each
      row names a value some partner has, every such value has its row, and no
      name occurs twice. */
  lemma DistributionFacts(ps: seq<Partner>, field: Partner -> string)
    ensures var r := Distribution(ps, field);
      (forall i :: 0 <= i < |r| ==>
         r[i].name != "" && r[i].value == CountKey(ps, field, r[i].name) && r[i].value > 0)
      && (forall p :: p in ps && field(p) != "" ==> NameValue(field(p), CountKey(ps, field, field(p))) in r)
      && (forall i, j :: 0 <= i < j < |r| ==> r[i].name != r[j].name)
  {
    var keys := TruthyKeys(ps, field);
    var t := ObjectEntries(Tally(keys));
    var r := Distribution(ps, field);
    ObjectEntriesOfTally(keys);
    forall i | 0 <= i < |r|
      ensures r[i].name != "" && r[i].value == CountKey(ps, field, r[i].name) && r[i].value > 0
    {
      var k := t[i].key;
      assert Keys(t)[i] == k;
      TruthyKeysMembers(ps, field, k);
      CountTruthyKeys(ps, field, k);
      CountPositive(keys, k);
      LookupOfEntry(t, i);
      assert r[i] == NameValue(k, t[i].count);
    }
    forall p | p in ps && field(p) != "" ensures NameValue(field(p), CountKey(ps, field, field(p))) in r {
      var k := field(p);
      TruthyKeysMembers(ps, field, k);
      assert k in Keys(t);
      var i :| 0 <= i < |t| && Keys(t)[i] == k;
      CountTruthyKeys(ps, field, k);
      LookupOfEntry(t, i);
      assert r[i] == NameValue(k, CountKey(ps, field, k));
    }
  }

  /** The rows list the names that are array indices first, in ascending
      numeric order, then the other names in the order partners first bring
      them up. */
  lemma DistributionOrder(ps: seq<Partner>, field: Partner -> string)
    ensures var r := Distribution(ps, field);
      forall i, j :: 0 <= i < j < |r| && IsIndexKey(r[j].name) ==>
        IsIndexKey(r[i].name) && DigitsValue(r[i].name, false) < DigitsValue(r[j].name, false)
  {
    var t := Tally(TruthyKeys(ps, field));
    var e := ObjectEntries(t);
    TallyFacts(TruthyKeys(ps, field));
    ObjectEntriesOrder(t);
    var r := Distribution(ps, field);
    assert forall i :: 0 <= i < |r| ==> r[i] == EntryRow(e[i]);
  }

  /** The six sectors with most partners, most first; ties keep the order in
      which `Object.keys` lists the sectors. */
  function GetSectorDistributionData(partners: Option<seq<Partner>>): seq<NameValue>
  {
    if partners.None? then []
    else Take(SortDesc(Distribution(partners.value, SectorOf), RowValue), 6)
  }

  /** At most six rows, by non-increasing count, each the true count of a
      sector. */
  lemma SectorRowsCorrect(ps: seq<Partner>)
    ensures var r := GetSectorDistributionData(Some(ps));
      |r| <= 6
      && NonIncreasing(r, RowValue)
      && forall i :: 0 <= i < |r| ==> r[i].name != "" && r[i].value == CountKey(ps, SectorOf, r[i].name)
  {
    var d := Distribution(ps, SectorOf);
    var r := Take(SortDesc(d, RowValue), 6);
    TopSorted(d, RowValue, 6);
    DistributionFacts(ps, SectorOf);
    forall i | 0 <= i < |r|
      ensures r[i].name != "" && r[i].value == CountKey(ps, SectorOf, r[i].name)
    {
      assert r[i] in r;
      var k :| 0 <= k < |d| && d[k] == r[i];
    }
  }

  /** No sector is shown twice. */
  lemma SectorRowsDistinct(ps: seq<Partner>)
    ensures var r := GetSectorDistributionData(Some(ps));
      forall i, j :: 0 <= i < j < |r| ==> r[i].name != r[j].name
  {
    var d := Distribution(ps, SectorOf);
    var sorted := SortDesc(d, RowValue);
    var r := Take(sorted, 6);
    DistributionFacts(ps, SectorOf);
    assert Distinct(d) by {
      forall a, b | 0 <= a < b < |d| ensures d[a] != d[b] {
        assert d[a].name != d[b].name;
      }
    }
    PermutationDistinct(sorted, d);
    forall i, j | 0 <= i < j < |r| ensures r[i].name != r[j].name {
      assert r[i] == sorted[i] && r[j] == sorted[j];
      assert r[i] in d && r[j] in d by {
        assert sorted[i] in multiset(d) && sorted[j] in multiset(d);
      }
    }
  }

  /** A sector left out has no more partners than the sixth row, and is left
      out only when six rows are shown. */
  lemma SectorTopSix(ps: seq<Partner>, p: Partner)
    requires p in ps && p.sector != ""
    requires NameValue(p.sector, CountKey(ps, SectorOf, p.sector)) !in GetSectorDistributionData(Some(ps))
    ensures var r := GetSectorDistributionData(Some(ps));
      |r| == 6 && CountKey(ps, SectorOf, p.sector) <= r[5].value
  {
    DistributionFacts(ps, SectorOf);
    TopOfSorted(Distribution(ps, SectorOf), RowValue, 6, NameValue(p.sector, CountKey(ps, SectorOf, p.sector)));
  }

  // ===========================================================================
  // enhanceLocalNetworkData

  datatype ColoredNode = ColoredNode(node: GraphNode, color: string)
  datatype ColoredGraph = ColoredGraph(nodes: seq<ColoredNode>, links: seq<Link>)

  /** `typeColors[node.nodeType] || '#999'`: every built node is a partner or a
      staff node, so the fallback colour is never used. */
  function NodeColor(n: GraphNode): (c: string)
    ensures n.PartnerNode? ==> c == "#009cdc"
    ensures n.StaffNode? ==> c == "#f47a42"
  {
    if n.PartnerNode? then "#009cdc" else "#f47a42"
  }

  function ColorNode(n: GraphNode): ColoredNode
  {
    ColoredNode(n, NodeColor(n))
  }

  function EnhanceLocalNetworkData(data: Option<Graph>): (r: ColoredGraph)
    ensures data.None? ==> r == ColoredGraph([], [])
    ensures data.Some? ==> r.links == data.value.links && |r.nodes| == |data.value.nodes|
    ensures data.Some? ==> forall i :: 0 <= i < |r.nodes| ==>
      r.nodes[i].node == data.value.nodes[i] && r.nodes[i].color == NodeColor(data.value.nodes[i])
  {
    if data.None? then ColoredGraph([], [])
    else ColoredGraph(Map(data.value.nodes, ColorNode), data.value.links)
  }

  // ===========================================================================
  // filterPartners

  /** The dashboard's filter selections; "all" switches a filter off. */
  datatype Filters = Filters(partnerType: string, status: string, sdg: string,
                             directorate: string, region: string, year: string)

  /** The selections used when no filter object is given. */
  const NoFilters: Filters := Filters("all", "all", "all", "all", "all", "all")

  /** An entry of the `directorates` list: an id and the sector name it stands for. */
  datatype DirectorateName = DirectorateName(id: string, name: string)

  /** `directorates.find(d => d.id === id)` */
  function FindDirectorate(ds: seq<DirectorateName>, id: string): (r: Option<DirectorateName>)
    ensures r.Some? ==> r.value in ds && r.value.id == id
    ensures r.None? <==> forall d :: d in ds ==> d.id != id
  {
    if ds == [] then None
    else if ds[0].id == id then Some(ds[0])
    else FindDirectorate(ds[1..], id)
  }

  /** `date ? new Date(date).getFullYear() : null`, with the calendar year of a
      date given by `yearOf`, None standing for both null and NaN. */
  function DateYear(date: string, yearOf: string -> Option<int>): Option<int>
  {
    if date != "" then yearOf(date) else None
  }

  /** A year value JavaScript treats as true: neither null, NaN nor 0. */
  predicate TruthyYear(y: Option<int>)
  {
    y.Some? && y.value != 0
  }

  /** `!y || y <= filterYear` (a comparison with NaN is false). */
  predicate NotAfter(y: Option<int>, filterYear: Option<int>)
  {
    !TruthyYear(y) || (filterYear.Some? && y.value <= filterYear.value)
  }

  /** `!y || y >= filterYear` */
  predicate NotBefore(y: Option<int>, filterYear: Option<int>)
  {
    !TruthyYear(y) || (filterYear.Some? && y.value >= filterYear.value)
  }

  predicate ProjectInYear(pr: Project, filterYear: Option<int>, yearOf: string -> Option<int>)
  {
    NotAfter(DateYear(pr.startDate, yearOf), filterYear) && NotBefore(DateYear(pr.endDate, yearOf), filterYear)
  }

  /** `contribYear === filterYear`: null and NaN equal nothing. */
  predicate ContributionInYear(c: Contribution, filterYear: Option<int>, yearOf: string -> Option<int>)
  {
    var y := DateYear(c.date, yearOf);
    y.Some? && filterYear.Some? && y.value == filterYear.value
  }

  predicate AgreementInYear(a: Agreement, filterYear: Option<int>, yearOf: string -> Option<int>)
  {
    NotAfter(DateYear(a.signDate, yearOf), filterYear) && NotBefore(DateYear(a.expiryDate, yearOf), filterYear)
  }

  /** Some project runs in the year, some contribution is dated in it, or some
      agreement is in force in it. */
  predicate HasActivityInYear(p: Partner, filterYear: Option<int>, yearOf: string -> Option<int>)
  {
    (exists pr :: pr in OrEmpty(p.projects) && ProjectInYear(pr, filterYear, yearOf))
    || (exists c :: c in OrEmpty(p.contributions) && ContributionInYear(c, filterYear, yearOf))
    || (exists a :: a in OrEmpty(p.agreements) && AgreementInYear(a, filterYear, yearOf))
  }

  predicate TypeMatches(p: Partner, f: Filters)
  {
    f.partnerType == "all" || p.partnerType == f.partnerType
  }

  predicate StatusMatches(p: Partner, f: Filters)
  {
    f.status == "all" || p.status == f.status
  }

  predicate RegionMatches(p: Partner, f: Filters)
  {
    f.region == "all" || p.region == Some(f.region)
  }

  predicate YearMatches(p: Partner, f: Filters, yearOf: string -> Option<int>)
  {
    f.year == "all" || HasActivityInYear(p, ParseInt(f.year), yearOf)
  }

  /** `partner.sdgAlignment.includes(parseInt(filters.sdg))`; a NaN selection
      is included in no list of SDG numbers. */
  predicate SdgMatches(p: Partner, f: Filters)
  {
    f.sdg == "all"
    || (p.sdgAlignment.Some? && ParseInt(f.sdg).Some? && ParseInt(f.sdg).value in p.sdgAlignment.value)
  }

  /** A selected directorate that is listed keeps only partners whose sector is
      its name; one that is not listed keeps everyone. */
  predicate DirectorateMatches(p: Partner, f: Filters, ds: seq<DirectorateName>)
  {
    f.directorate == "all"
    || (var m := FindDirectorate(ds, f.directorate); m.None? || p.sector == m.value.name)
  }

  predicate Matches(p: Partner, f: Filters, ds: seq<DirectorateName>, yearOf: string -> Option<int>)
  {
    TypeMatches(p, f) && StatusMatches(p, f) && RegionMatches(p, f) && YearMatches(p, f, yearOf)
    && SdgMatches(p, f) && DirectorateMatches(p, f, ds)
  }

  function OrNoFilters(filters: Option<Filters>): Filters
  {
    if filters.Some? then filters.value else NoFilters
  }

  function FilterPartners(partners: Option<seq<Partner>>, filters: Option<Filters>,
                          ds: seq<DirectorateName>, yearOf: string -> Option<int>): seq<Partner>
  {
    if partners.None? then []
    else
      var f := OrNoFilters(filters);
      Filter(partners.value, p => Matches(p, f, ds, yearOf))
  }

  /** The result keeps partners in their order, dropping some. */
  lemma FilterPartnersSubsequence(partners: Option<seq<Partner>>, filters: Option<Filters>,
                                  ds: seq<DirectorateName>, yearOf: string -> Option<int>)
    ensures IsSubsequence(FilterPartners(partners, filters, ds, yearOf), OrEmpty(partners))
  {
    if partners.Some? {
      var f := OrNoFilters(filters);
      FilterIsSubsequence(partners.value, p => Matches(p, f, ds, yearOf));
    }
  }

  /** A partner is kept exactly when it passes every selected filter. */
  lemma FilterPartnersMembers(ps: seq<Partner>, filters: Option<Filters>,
                              ds: seq<DirectorateName>, yearOf: string -> Option<int>, p: Partner)
    ensures p in FilterPartners(Some(ps), filters, ds, yearOf)
            <==> p in ps && Matches(p, OrNoFilters(filters), ds, yearOf)
  {
  }

  /** With no filter object, or with every selection "all", every partner is kept. */
  lemma FilterPartnersUnfiltered(ps: seq<Partner>, filters: Option<Filters>,
                                 ds: seq<DirectorateName>, yearOf: string -> Option<int>)
    requires filters.None? || filters == Some(NoFilters)
    ensures FilterPartners(Some(ps), filters, ds, yearOf) == ps
  {
    var f := OrNoFilters(filters);
    FilterAll(ps, p => Matches(p, f, ds, yearOf));
  }

  /** Selecting a directorate that is not listed filters exactly as selecting "all". */
  lemma UnlistedDirectorate(ps: seq<Partner>, f: Filters, ds: seq<DirectorateName>,
                            yearOf: string -> Option<int>)
    requires FindDirectorate(ds, f.directorate).None?
    ensures FilterPartners(Some(ps), Some(f), ds, yearOf)
            == FilterPartners(Some(ps), Some(f.(directorate := "all")), ds, yearOf)
  {
    var g := f.(directorate := "all");
    FilterEquiv(ps, p => Matches(p, f, ds, yearOf), p => Matches(p, g, ds, yearOf));
  }

  /** An undated agreement is in force in every year, even a selection that is
      not a number, so its partner passes any year filter. */
  lemma UndatedAgreementPassesYear(p: Partner, f: Filters, yearOf: string -> Option<int>, a: Agreement)
    requires a in OrEmpty(p.agreements) && a.signDate == "" && a.expiryDate == ""
    ensures YearMatches(p, f, yearOf)
  {
    assert AgreementInYear(a, ParseInt(f.year), yearOf);
  }

  /** With NaN as the year (a selection with no digits) every comparison
      fails, so a partner has activity in it exactly when it has a project or
      an agreement whose two years are both falsy; no contribution counts. */
  lemma NaNYearActivity(p: Partner, yearOf: string -> Option<int>)
    ensures HasActivityInYear(p, None, yearOf) <==>
      (exists pr :: pr in OrEmpty(p.projects)
         && !TruthyYear(DateYear(pr.startDate, yearOf)) && !TruthyYear(DateYear(pr.endDate, yearOf)))
      || (exists a :: a in OrEmpty(p.agreements)
           && !TruthyYear(DateYear(a.signDate, yearOf)) && !TruthyYear(DateYear(a.expiryDate, yearOf)))
  {
  }

  lemma NaNYearFilter(p: Partner, f: Filters, yearOf: string -> Option<int>)
    requires f.year != "all" && ParseInt(f.year).None?
    ensures YearMatches(p, f, yearOf) <==> HasActivityInYear(p, None, yearOf)
  {
  }

  /** A dated contribution passes exactly the year it is dated in. */
  lemma ContributionYearExact(c: Contribution, year: int, yearOf: string -> Option<int>)
    requires c.date != "" && yearOf(c.date) == Some(year)
    ensures forall y :: ContributionInYear(c, Some(y), yearOf) <==> y == year
  {
  }
}
