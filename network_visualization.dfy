/** The network view: the five organisational clusters and their anchors, the
    assignment of partner nodes to clusters, the clustering force, node sizes,
    the link styles, the node / unit / background click machine with the
    emphasis and force tables it derives, and the drag pin.

    Positions, velocities and the parameters handed to the force simulation are
    exact reals. The physics itself, `Math.random`, `Math.cos`, `Math.sin`,
    `Math.log10` and `Math.sqrt` are not modelled: random draws are parameters
    in [0, 1), and the four functions are function-typed parameters. */
module NetworkVisualization {
  import opened Common
  import opened Records
  import opened UnidoStaff

  // ===========================================================================
  // The clusters

  datatype ClusterUnit = ClusterUnit(id: string, name: string, color: string, x: real, y: real)

  const ClusterIds: seq<string> := ["odg", "spp", "iet", "glo", "tcs"]

  const ClusterNames: seq<string> := [
    "Office of the Director General",
    "Directorate of Strategic Planning, Programming and Policy",
    "Directorate of SDG Innovation and Economic Transformation",
    "Directorate of Global Partnerships and External Relations",
    "Technical Cooperation and Sustainable Industrial Development"
  ]

  const ClusterColors: seq<string> := ["#2c3e50", "#e74c3c", "#3498db", "#16a085", "#27ae60"]

  function Min(a: real, b: real): real
  {
    if a <= b then a else b
  }

  function Max(a: real, b: real): real
  {
    if a >= b then a else b
  }

  /** 35% of the smaller side of the view. */
  function Radius(width: real, height: real): real
  {
    Min(width, height) * 0.35
  }

  /** The clusters evenly spaced on a circle around the centre of the view;
      `cosTurn(t)` and `sinTurn(t)` are the cosine and sine of the fraction `t`
      of a full turn. */
  function Catalog(width: real, height: real, cosTurn: real -> real, sinTurn: real -> real): seq<ClusterUnit>
  {
    seq(5, i requires 0 <= i < 5 =>
      ClusterUnit(ClusterIds[i], ClusterNames[i], ClusterColors[i],
                  Anchor(width / 2.0, Radius(width, height), cosTurn(i as real / 5.0)),
                  Anchor(height / 2.0, Radius(width, height), sinTurn(i as real / 5.0))))
  }

  /** One coordinate of an anchor: the centre moved by the radius times the
      cosine or sine. */
  function Anchor(centre: real, radius: real, turn: real): real
  {
    centre + radius * turn
  }

  /** `unidoUnits.find(u => u.id === id)` */
  function FindCluster(catalog: seq<ClusterUnit>, id: string): (r: Option<ClusterUnit>)
    ensures r.Some? ==> r.value in catalog && r.value.id == id
    ensures r.None? <==> forall u :: u in catalog ==> u.id != id
  {
    if catalog == [] then None
    else if catalog[0].id == id then Some(catalog[0])
    else FindCluster(catalog[1..], id)
  }

  /** Exactly the five lower-case ids name a cluster, each with its own colour. */
  lemma CatalogLookup(width: real, height: real, cosTurn: real -> real, sinTurn: real -> real, id: string)
    ensures var c := FindCluster(Catalog(width, height, cosTurn, sinTurn), id);
      (c.Some? <==> id in ClusterIds)
      && forall i :: 0 <= i < 5 && id == ClusterIds[i] ==> c.Some? && c.value.color == ClusterColors[i]
  {
    var cat := Catalog(width, height, cosTurn, sinTurn);
    assert forall i :: 0 <= i < 5 ==> cat[i].id == ClusterIds[i] && cat[i].color == ClusterColors[i];
    FindInCatalog(cat, id);
  }

  /** The lookup in any five clusters that carry the listed ids and colours. */
  lemma FindInCatalog(cat: seq<ClusterUnit>, id: string)
    requires |cat| == 5 && forall i :: 0 <= i < 5 ==> cat[i].id == ClusterIds[i] && cat[i].color == ClusterColors[i]
    ensures var c := FindCluster(cat, id);
      (c.Some? <==> id in ClusterIds)
      && forall i :: 0 <= i < 5 && id == ClusterIds[i] ==> c.Some? && c.value.color == ClusterColors[i]
  {
    forall i | 0 <= i < 5 && id == ClusterIds[i]
      ensures FindCluster(cat, id).Some? && FindCluster(cat, id).value.color == ClusterColors[i]
    {
      assert cat[i].id == id;
      var c := FindCluster(cat, id).value;
      var k :| 0 <= k < 5 && cat[k] == c;
    }
    if FindCluster(cat, id).Some? {
      var k :| 0 <= k < 5 && cat[k] == FindCluster(cat, id).value;
      assert ClusterIds[k] == id;
    }
  }

  lemma AnchorBound(centre: real, radius: real, turn: real)
    requires radius >= 0.0 && -1.0 <= turn <= 1.0
    ensures centre - radius <= Anchor(centre, radius, turn) <= centre + radius
  {
    if turn >= 0.0 { assert radius * turn <= radius * 1.0; } else { assert radius * turn >= radius * -1.0; }
  }

  /** With cosine and sine in [-1, 1], every anchor lies within the radius of
      the view's centre on each axis. */
  lemma AnchorsInBox(width: real, height: real, cosTurn: real -> real, sinTurn: real -> real, i: nat)
    requires width > 0.0 && height > 0.0 && i < 5
    requires -1.0 <= cosTurn(i as real / 5.0) <= 1.0 && -1.0 <= sinTurn(i as real / 5.0) <= 1.0
    ensures var u := Catalog(width, height, cosTurn, sinTurn)[i]; var r := Radius(width, height);
      width / 2.0 - r <= u.x <= width / 2.0 + r && height / 2.0 - r <= u.y <= height / 2.0 + r
  {
    var r := Radius(width, height);
    AnchorBound(width / 2.0, r, cosTurn(i as real / 5.0));
    AnchorBound(height / 2.0, r, sinTurn(i as real / 5.0));
  }

  // ===========================================================================
  // Nodes and links of the view

  /** A node of the simulation. `unit` and `unitColor` are "" until assigned;
      `fx`/`fy` are the drag pins, None when the node is free. */
  datatype SimNode = SimNode(
    id: NodeId,
    nodeType: string,      // "partner" or "staff"
    sector: string,
    contactPerson: string,
    directorate: string,   // staff nodes
    division: string,
    contributions: real,
    projects: real,
    unit: string,
    unitColor: string,
    x: real, y: real, vx: real, vy: real,
    fx: Option<real>, fy: Option<real>)

  /** A link, with `strength` 0 when absent. */
  datatype SimLink = SimLink(source: NodeId, target: NodeId, kind: string, strength: real)

  // ===========================================================================
  // Cluster assignment (the first pass over the nodes)

  /** The contact's staff member, looked up by id in `directory` (the staff
      directory `getStaffById` searches), when it has a directorate. */
  function ContactStaff(n: SimNode, directory: seq<StaffMember>): (r: Option<StaffMember>)
    ensures r.Some? ==> r.value in directory && r.value.id == n.contactPerson && r.value.directorate != ""
    ensures r.None? <==> n.contactPerson == "" || FindStaff(directory, n.contactPerson).None?
                         || FindStaff(directory, n.contactPerson).value.directorate == ""
  {
    if n.contactPerson == "" then None
    else
      match FindStaff(directory, n.contactPerson)
      case None => None
      case Some(s) =>
        assert exists i :: 0 <= i < |directory| && directory[i] == s;
        if s.directorate != "" then Some(s) else None
  }

  /** The sector tests of the assignment in their order: a sector spelled
      like the full name of the cluster 'iet', 'tcs', 'spp', 'glo' or 'odg'
      goes to that cluster. */
  const SectorTable: seq<(string, string)> := [
    (ClusterNames[2], ClusterIds[2]),
    (ClusterNames[4], ClusterIds[4]),
    (ClusterNames[1], ClusterIds[1]),
    (ClusterNames[3], ClusterIds[3]),
    (ClusterNames[0], ClusterIds[0])
  ]

  /** The test of `SectorTable` that names cluster `i`. */
  function SectorTest(i: nat): (k: nat)
    requires i < 5
    ensures k < 5 && SectorTable[k] == (ClusterNames[i], ClusterIds[i])
  {
    [4, 2, 0, 3, 1][i]
  }

  /** The first test of `table` that `sector` passes, else 'glo'. */
  function SectorLookup(table: seq<(string, string)>, sector: string): (r: string)
    ensures (exists i :: 0 <= i < |table| && table[i].0 == sector) ==>
              exists i :: 0 <= i < |table| && table[i].0 == sector && table[i].1 == r
    ensures (forall i :: 0 <= i < |table| ==> table[i].0 != sector) ==> r == "glo"
  {
    if table == [] then "glo"
    else if table[0].0 == sector then table[0].1
    else
      var r := SectorLookup(table[1..], sector);
      assert (exists i :: 1 <= i < |table| && table[i].0 == sector) ==>
               exists i :: 1 <= i < |table| && table[i].0 == sector && table[i].1 == r;
      r
  }

  function SectorCluster(sector: string): (r: string)
  {
    SectorLookup(SectorTable, sector)
  }

  lemma ClusterNamesDistinct()
    ensures forall i, j :: 0 <= i < 5 && 0 <= j < 5 && i != j ==> ClusterNames[i] != ClusterNames[j]
  {
    assert ClusterNames[0][16] == 'r' && ClusterNames[1][16] == 't' && ClusterNames[2][16] == 'D';
    assert ClusterNames[3][16] == 'l' && ClusterNames[4][16] == 'a';
  }

  /** A sector spelled like a cluster's name goes to that cluster, any other
      sector to 'glo': every sector lands in one of the five clusters. */
  lemma SectorClusterByName(sector: string)
    ensures SectorCluster(sector) in ClusterIds
    ensures forall i :: 0 <= i < 5 && ClusterNames[i] == sector ==> SectorCluster(sector) == ClusterIds[i]
    ensures (forall i :: 0 <= i < 5 ==> ClusterNames[i] != sector) ==> SectorCluster(sector) == "glo"
  {
    var r := SectorCluster(sector);
    ClusterNamesDistinct();
    forall i | 0 <= i < 5 && ClusterNames[i] == sector ensures r == ClusterIds[i] {
      assert SectorTable[SectorTest(i)].0 == sector;
      var m :| 0 <= m < 5 && SectorTable[m].0 == sector && SectorTable[m].1 == r;
      assert SectorTable[m] == (ClusterNames[[2, 4, 1, 3, 0][m]], ClusterIds[[2, 4, 1, 3, 0][m]]);
    }
    if forall i :: 0 <= i < 5 ==> ClusterNames[i] != sector {
      assert SectorTable == [(ClusterNames[2], ClusterIds[2]), (ClusterNames[4], ClusterIds[4]),
        (ClusterNames[1], ClusterIds[1]), (ClusterNames[3], ClusterIds[3]), (ClusterNames[0], ClusterIds[0])];
    } else {
      var i :| 0 <= i < 5 && ClusterNames[i] == sector;
      assert ClusterIds[i] in ClusterIds;
    }
  }

  /** `(Math.random() - 0.5) * spread` for a draw `r` in [0, 1). */
  function Jitter(r: real, spread: real): real
  {
    (r - 0.5) * spread
  }

  /** One partner node after the assignment pass: its unit from the contact's
      directorate, else from its sector; a unit that names a cluster also
      gives the colour and a start position near the anchor. */
  function AssignPartner(n: SimNode, directory: seq<StaffMember>, catalog: seq<ClusterUnit>, rx: real, ry: real): SimNode
  {
    var n1 := match ContactStaff(n, directory)
      case Some(s) => n.(unit := s.directorate, division := s.division)
      case None => n.(unit := SectorCluster(n.sector));
    match FindCluster(catalog, n1.unit)
    case None => n1
    case Some(u) => n1.(unitColor := u.color, x := u.x + Jitter(rx, 100.0), y := u.y + Jitter(ry, 100.0))
  }

  /** Partner nodes are assigned, every other node is left alone. */
  function AssignNode(n: SimNode, directory: seq<StaffMember>, catalog: seq<ClusterUnit>, rx: real, ry: real): SimNode
  {
    if n.nodeType == "partner" then AssignPartner(n, directory, catalog, rx, ry) else n
  }

  /** The assignment pass, node by node in place; the view passes the
      directory `Staff`. */
  method AssignUnits(nodes: array<SimNode>, directory: seq<StaffMember>, catalog: seq<ClusterUnit>, rx: seq<real>, ry: seq<real>)
    requires |rx| == nodes.Length && |ry| == nodes.Length
    modifies nodes
    ensures forall i :: 0 <= i < nodes.Length ==> nodes[i] == AssignNode(old(nodes[i]), directory, catalog, rx[i], ry[i])
  {
    for i := 0 to nodes.Length
      invariant forall j :: 0 <= j < i ==> nodes[j] == AssignNode(old(nodes[j]), directory, catalog, rx[j], ry[j])
      invariant forall j :: i <= j < nodes.Length ==> nodes[j] == old(nodes[j])
    {
      nodes[i] := AssignNode(nodes[i], directory, catalog, rx[i], ry[i]);
    }
  }

  predicate UpperInitial(d: string)
  {
    |d| > 0 && 'A' <= d[0] <= 'Z'
  }

  /** The directorate codes of the staff directory: all upper case. */
  const StaffDirectorates: set<string> := {"DG", "SPP", "GLO", "TCS", "DTI", "EAE", "TCB", "SDG"}

  lemma StaffDirectoratesListed()
    ensures forall s :: s in Staff ==> s.directorate in StaffDirectorates
  {
    forall i | 0 <= i < |Staff| ensures Staff[i].directorate in StaffDirectorates {
      StaffDirectoryAt(i);
    }
  }

  /** The directorate of entry `i` of the directory is one of the codes. */
  lemma StaffDirectoryAt(i: nat)
    requires i < |Staff|
    ensures Staff[i].directorate in StaffDirectorates
  {
  }

  lemma StaffDirectoratesUpper()
    ensures forall d :: d in StaffDirectorates ==> UpperInitial(d)
  {
  }

  /** The priority of the assignment: the contact's directorate, or else the
      sector table; every partner gets a non-empty unit, and only the unit,
      division, colour and position can change. */
  lemma AssignPriority(n: SimNode, directory: seq<StaffMember>, catalog: seq<ClusterUnit>, rx: real, ry: real)
    ensures var a := AssignPartner(n, directory, catalog, rx, ry); var c := ContactStaff(n, directory);
      (c.Some? ==> a.unit == c.value.directorate && a.division == c.value.division)
      && (c.None? ==> a.unit == SectorCluster(n.sector) && a.division == n.division)
      && a.unit != ""
      && a == n.(unit := a.unit, division := a.division, unitColor := a.unitColor, x := a.x, y := a.y)
  {
  }

  /** A partner assigned through its contact gets an upper-case directorate
      code, which names no cluster: it keeps its colour and position and is
      one the cluster force would not pull. */
  lemma ContactAssignedHasNoCluster(n: SimNode, width: real, height: real, cosTurn: real -> real,
                                    sinTurn: real -> real, rx: real, ry: real)
    requires ContactStaff(n, Staff).Some?
    ensures var cat := Catalog(width, height, cosTurn, sinTurn);
      var a := AssignPartner(n, Staff, cat, rx, ry);
      FindCluster(cat, a.unit).None? && a.x == n.x && a.y == n.y && a.unitColor == n.unitColor
  {
    var s := ContactStaff(n, Staff).value;
    StaffDirectoratesListed();
    StaffDirectoratesUpper();
    assert s.directorate in StaffDirectorates;
    assert forall id :: id in ClusterIds ==> !UpperInitial(id);
    CatalogLookup(width, height, cosTurn, sinTurn, s.directorate);
  }

  /** A partner assigned by sector always joins a cluster and starts within 50
      of its anchor on each axis. */
  lemma SectorAssignedJoinsCluster(n: SimNode, width: real, height: real, cosTurn: real -> real,
                                   sinTurn: real -> real, rx: real, ry: real)
    requires ContactStaff(n, Staff).None? && 0.0 <= rx < 1.0 && 0.0 <= ry < 1.0
    ensures var cat := Catalog(width, height, cosTurn, sinTurn);
      var a := AssignPartner(n, Staff, cat, rx, ry);
      var c := FindCluster(cat, a.unit);
      c.Some? && a.unitColor == c.value.color
      && c.value.x - 50.0 <= a.x < c.value.x + 50.0 && c.value.y - 50.0 <= a.y < c.value.y + 50.0
  {
    SectorClusterByName(n.sector);
    CatalogLookup(width, height, cosTurn, sinTurn, SectorCluster(n.sector));
  }

  // ===========================================================================
  // Units and colours fixed while the nodes are drawn

  /** Staff nodes take their directorate in lower case as unit. */
  function StaffUnit(n: SimNode): (r: string)
    ensures |r| == |n.directorate|
  {
    Lower(n.directorate)
  }

  /** The unit colour a drawn node keeps, the fill of a staff circle and the
      stroke of a partner rectangle: a staff node its cluster's colour or
      '#95a5a6'; a partner the colour of its unit (or of 'glo' when it has
      none), or '#fff'. */
  function DrawnNode(n: SimNode, catalog: seq<ClusterUnit>): SimNode
  {
    if n.nodeType == "staff" then
      var unit := StaffUnit(n);
      n.(unit := unit,
         unitColor := match FindCluster(catalog, unit) case Some(u) => u.color case None => "#95a5a6")
    else
      var unitId := if n.unit != "" then n.unit else "glo";
      n.(unitColor := match FindCluster(catalog, unitId) case Some(u) => u.color case None => "#fff")
  }

  method DrawNodes(nodes: array<SimNode>, catalog: seq<ClusterUnit>)
    modifies nodes
    ensures forall i :: 0 <= i < nodes.Length ==> nodes[i] == DrawnNode(old(nodes[i]), catalog)
  {
    for i := 0 to nodes.Length
      invariant forall j :: 0 <= j < i ==> nodes[j] == DrawnNode(old(nodes[j]), catalog)
      invariant forall j :: i <= j < nodes.Length ==> nodes[j] == old(nodes[j])
    {
      nodes[i] := DrawnNode(nodes[i], catalog);
    }
  }

  /** A staff node is coloured by a cluster exactly when its directorate in
      lower case is a cluster id; otherwise it is grey. */
  lemma StaffColor(n: SimNode, width: real, height: real, cosTurn: real -> real, sinTurn: real -> real)
    requires n.nodeType == "staff"
    ensures var cat := Catalog(width, height, cosTurn, sinTurn); var d := DrawnNode(n, cat);
      d.unit == Lower(n.directorate)
      && (d.unit !in ClusterIds ==> d.unitColor == "#95a5a6")
      && forall i :: 0 <= i < 5 && d.unit == ClusterIds[i] ==> d.unitColor == ClusterColors[i]
  {
    CatalogLookup(width, height, cosTurn, sinTurn, Lower(n.directorate));
  }

  /** "SPP" staff join the 'spp' cluster; the Director General's "DG" and the
      builder's "Unknown" join none, since the office's cluster id is 'odg'. */
  lemma StaffClusterExamples(n: SimNode, width: real, height: real, cosTurn: real -> real, sinTurn: real -> real)
    requires n.nodeType == "staff"
    ensures var d := DrawnNode(n, Catalog(width, height, cosTurn, sinTurn));
      (n.directorate == "SPP" ==> d.unitColor == "#e74c3c")
      && (n.directorate == "DG" || n.directorate == "Unknown" ==> d.unitColor == "#95a5a6")
  {
    StaffColor(n, width, height, cosTurn, sinTurn);
    var u := Lower(n.directorate);
    if n.directorate == "SPP" {
      assert u[0] == 's' && u[1] == 'p' && u[2] == 'p';
      assert u == ClusterIds[1];
    }
    if n.directorate == "DG" || n.directorate == "Unknown" {
      assert |u| != 3;
      assert forall id :: id in ClusterIds ==> |id| == 3;
    }
  }

  // ===========================================================================
  // The clustering force

  /** One node under the clustering force: a node whose unit names a cluster
      is pushed towards its anchor in proportion to `alpha`. */
  function Pulled(n: SimNode, catalog: seq<ClusterUnit>, alpha: real): SimNode
  {
    match FindCluster(catalog, n.unit)
    case None => n
    case Some(u) => n.(vx := n.vx + (u.x - n.x) * alpha * 0.2, vy := n.vy + (u.y - n.y) * alpha * 0.2)
  }

  /** One application of the clustering force, node by node in place. The
      view defines it for every tick, but the tick listener that calls it is
      replaced by the drawing one, so it never runs. */
  method UnitForce(nodes: array<SimNode>, catalog: seq<ClusterUnit>, alpha: real)
    modifies nodes
    ensures forall i :: 0 <= i < nodes.Length ==> nodes[i] == Pulled(old(nodes[i]), catalog, alpha)
  {
    for i := 0 to nodes.Length
      invariant forall j :: 0 <= j < i ==> nodes[j] == Pulled(old(nodes[j]), catalog, alpha)
      invariant forall j :: i <= j < nodes.Length ==> nodes[j] == old(nodes[j])
    {
      var node := nodes[i];
      var unit := FindCluster(catalog, node.unit);
      if unit.Some? {
        var u := unit.value;
        var pulled := node.(vx := node.vx + (u.x - node.x) * alpha * 0.2,
                            vy := node.vy + (u.y - node.y) * alpha * 0.2);
        assert Pulled(node, catalog, alpha).vx == pulled.vx && Pulled(node, catalog, alpha).vy == pulled.vy;
        nodes[i] := pulled;
      }
    }
  }

  /** The force moves no position, and leaves nodes outside the clusters
      alone; a node sitting on its anchor, or a cold simulation, feels nothing. */
  lemma PullFacts(n: SimNode, catalog: seq<ClusterUnit>, alpha: real)
    ensures var m := Pulled(n, catalog, alpha);
      m == n.(vx := m.vx, vy := m.vy)
      && (FindCluster(catalog, n.unit).None? || alpha == 0.0 ==> m == n)
      && (FindCluster(catalog, n.unit).Some? && FindCluster(catalog, n.unit).value.x == n.x ==> m.vx == n.vx)
  {
    if FindCluster(catalog, n.unit).Some? && alpha == 0.0 {
      var u := FindCluster(catalog, n.unit).value;
      assert (u.x - n.x) * alpha == 0.0 && (u.y - n.y) * alpha == 0.0;
    }
  }

  /** The pull points towards the anchor: with a positive alpha, a node left
      of its anchor gains velocity to the right, and one on the right loses it. */
  lemma PullTowardsAnchor(n: SimNode, catalog: seq<ClusterUnit>, alpha: real)
    requires alpha > 0.0 && FindCluster(catalog, n.unit).Some?
    ensures var u := FindCluster(catalog, n.unit).value; var m := Pulled(n, catalog, alpha);
      (n.x < u.x ==> m.vx > n.vx) && (n.x > u.x ==> m.vx < n.vx)
      && (n.y < u.y ==> m.vy > n.vy) && (n.y > u.y ==> m.vy < n.vy)
  {
    var u := FindCluster(catalog, n.unit).value;
    assert (u.x - n.x) * alpha * 0.2 == (u.x - n.x) * (alpha * 0.2);
    assert (u.y - n.y) * alpha * 0.2 == (u.y - n.y) * (alpha * 0.2);
  }

  // ===========================================================================
  // Node size

  /** Staff: 8 at directorate level (no division), 6 at division level.
      Partners: 6 plus a contribution and a project term, clamped to [6, 22];
      `log10` and `sqrt` are left abstract. */
  function NodeSize(n: SimNode, log10: real -> real, sqrt: real -> real): (r: real)
    ensures n.nodeType == "staff" ==> r == (if n.division == "" then 8.0 else 6.0)
    ensures 6.0 <= r <= 22.0
  {
    if n.nodeType == "staff" then (if n.division == "" then 8.0 else 6.0)
    else
      var contributionFactor := if n.contributions > 0.0 then log10(n.contributions + 1.0) * 2.5 else 0.0;
      var projectFactor := if n.projects > 0.0 then sqrt(n.projects) * 1.2 else 0.0;
      Max(6.0, Min(6.0 + contributionFactor + projectFactor, 22.0))
  }

  /** Without positive contributions or projects a partner has the base size. */
  lemma BaseSize(n: SimNode, log10: real -> real, sqrt: real -> real)
    requires n.nodeType != "staff" && n.contributions <= 0.0 && n.projects <= 0.0
    ensures NodeSize(n, log10, sqrt) == 6.0
  {
  }

  /** Within the bounds, a partner's size is the unclamped sum itself. */
  lemma SizeUnclamped(n: SimNode, log10: real -> real, sqrt: real -> real)
    requires n.nodeType != "staff"
    ensures var s := 6.0 + (if n.contributions > 0.0 then log10(n.contributions + 1.0) * 2.5 else 0.0)
                         + (if n.projects > 0.0 then sqrt(n.projects) * 1.2 else 0.0);
      6.0 <= s <= 22.0 ==> NodeSize(n, log10, sqrt) == s
  {
  }

  // ===========================================================================
  // Link styles

  /** `d.strength || 1` */
  function LinkStrength(l: SimLink): real
  {
    if l.strength != 0.0 then l.strength else 1.0
  }

  function LinkColor(l: SimLink): string
  {
    if l.kind == "contact-relationship" then "#e74c3c"
    else if l.kind == "staff-division" then "#3498db"
    else if l.kind == "staff-directorate" then "#95a5a6"
    else "#999"
  }

  function DefaultLinkOpacity(l: SimLink): real
  {
    if l.kind == "contact-relationship" then 0.8 else if l.kind == "staff-division" then 0.7 else 0.5
  }

  function DefaultLinkWidth(l: SimLink): real
  {
    1.0 + LinkStrength(l) * 0.5
  }

  /** The graph builder names its partner-to-staff links "contact", which the
      style table does not know: they are drawn like partner-to-partner links,
      grey at opacity 0.5, not in the staff-partner red. */
  lemma BuiltLinksDefaultStyle(l: SimLink)
    requires l.kind == "contact" || l.kind == "partner-partner"
    ensures LinkColor(l) == "#999" && DefaultLinkOpacity(l) == 0.5
  {
  }

  // ===========================================================================
  // Neighbours, unit members and the tables derived from a selection

  /** The node a link leads to from `sel`: its target when `sel` is the
      source, else its source when `sel` is the target. */
  function Neighbour(l: SimLink, sel: NodeId): set<NodeId>
  {
    if l.source == sel then {l.target} else if l.target == sel then {l.source} else {}
  }

  /** The neighbours of the selected node over all links. */
  function Connected(links: seq<SimLink>, sel: NodeId): set<NodeId>
  {
    set i, x | 0 <= i < |links| && x in Neighbour(links[i], sel) :: x
  }

  lemma ConnectedSnoc(links: seq<SimLink>, sel: NodeId, l: SimLink)
    ensures Connected(links + [l], sel) == Connected(links, sel) + Neighbour(l, sel)
  {
    var s := links + [l];
    forall x | x in Connected(s, sel) ensures x in Connected(links, sel) + Neighbour(l, sel) {
      var i :| 0 <= i < |s| && x in Neighbour(s[i], sel);
      if i < |links| { assert s[i] == links[i]; } else { assert s[i] == l; }
    }
    forall x | x in Connected(links, sel) + Neighbour(l, sel) ensures x in Connected(s, sel) {
      if x in Connected(links, sel) {
        var i :| 0 <= i < |links| && x in Neighbour(links[i], sel);
        assert s[i] == links[i];
      } else {
        assert s[|links|] == l;
      }
    }
  }

  /** `connectedNodeIds`, built link by link. */
  method ConnectedNodeIds(links: seq<SimLink>, sel: NodeId) returns (ids: set<NodeId>)
    ensures ids == Connected(links, sel)
  {
    ids := {};
    for k := 0 to |links|
      invariant ids == Connected(links[..k], sel)
    {
      var link := links[k];
      assert links[..k + 1] == links[..k] + [link];
      ConnectedSnoc(links[..k], sel, link);
      if link.source == sel {
        ids := ids + {link.target};
      } else if link.target == sel {
        ids := ids + {link.source};
      }
    }
    assert links[..|links|] == links;
  }

  /** `x` is connected to `sel` exactly when some link joins the two, in
      either direction. */
  lemma ConnectedIff(links: seq<SimLink>, sel: NodeId, x: NodeId)
    ensures x in Connected(links, sel) <==>
      exists i :: 0 <= i < |links| && ((links[i].source == sel && links[i].target == x)
                                       || (links[i].target == sel && links[i].source == x))
  {
    if exists i :: 0 <= i < |links| && ((links[i].source == sel && links[i].target == x)
                                        || (links[i].target == sel && links[i].source == x)) {
      var i :| 0 <= i < |links| && ((links[i].source == sel && links[i].target == x)
                                    || (links[i].target == sel && links[i].source == x));
      assert x in Neighbour(links[i], sel);
    }
  }

  /** The ids of the nodes whose unit is `unitId`. */
  function UnitMembers(nodes: seq<SimNode>, unitId: string): set<NodeId>
  {
    set i | 0 <= i < |nodes| && nodes[i].unit == unitId :: nodes[i].id
  }

  /** The indices of the links with both endpoints among `members`. */
  function UnitLinks(links: seq<SimLink>, members: set<NodeId>): set<int>
  {
    set i | 0 <= i < |links| && links[i].source in members && links[i].target in members
  }

  method UnitNodeIds(nodes: array<SimNode>, unitId: string) returns (ids: set<NodeId>)
    ensures ids == UnitMembers(nodes[..], unitId)
  {
    ids := {};
    for i := 0 to nodes.Length
      invariant ids == UnitMembers(nodes[..i], unitId)
    {
      if nodes[i].unit == unitId {
        ids := ids + {nodes[i].id};
      }
      assert forall j :: 0 <= j < i ==> nodes[..i + 1][j] == nodes[..i][j];
    }
    assert nodes[..nodes.Length] == nodes[..];
  }

  method UnitLinkIds(links: seq<SimLink>, members: set<NodeId>) returns (ids: set<int>)
    ensures ids == UnitLinks(links, members)
  {
    ids := {};
    for i := 0 to |links|
      invariant ids == set j | 0 <= j < i && links[j].source in members && links[j].target in members
    {
      if links[i].source in members && links[i].target in members {
        ids := ids + {i};
      }
    }
  }

  /** What the last visual update drew. */
  datatype Visuals =
    | Plain
    | NodeHighlight(sel: NodeId, connected: set<NodeId>)
    | UnitHighlight(unitId: string, members: set<NodeId>, memberLinks: set<int>)

  function NodeOpacity(v: Visuals, n: SimNode): real
  {
    match v
    case Plain => 1.0
    case NodeHighlight(sel, connected) => if n.id == sel || n.id in connected then 1.0 else 0.3
    case UnitHighlight(_, members, _) => if n.id in members then 1.0 else 0.2
  }

  function NodeStrokeWidth(v: Visuals, n: SimNode): real
  {
    var plain := if n.nodeType == "staff" then 1.5 else 2.0;
    match v
    case Plain => plain
    case NodeHighlight(sel, connected) => if n.id == sel then 4.0 else if n.id in connected then 3.0 else plain
    case UnitHighlight(_, members, _) => if n.id in members then 3.0 else 1.0
  }

  function LinkOpacity(v: Visuals, links: seq<SimLink>, i: nat): real
    requires i < |links|
  {
    match v
    case Plain => DefaultLinkOpacity(links[i])
    case NodeHighlight(sel, _) => if links[i].source == sel || links[i].target == sel then 1.0 else 0.1
    case UnitHighlight(_, _, memberLinks) => if i in memberLinks then 1.0 else 0.1
  }

  function LinkWidth(v: Visuals, links: seq<SimLink>, i: nat): real
    requires i < |links|
  {
    match v
    case Plain => DefaultLinkWidth(links[i])
    case NodeHighlight(sel, _) =>
      if links[i].source == sel || links[i].target == sel then 2.0 + LinkStrength(links[i]) * 0.5 else 0.5
    case UnitHighlight(_, _, memberLinks) => if i in memberLinks then 2.0 else 0.5
  }

  /** The forces handed to the simulation. */
  datatype Forces =
    | DefaultForces
    | NodeForces(sel: NodeId, connected: set<NodeId>)
    | UnitForces(members: set<NodeId>, anchorX: real, anchorY: real)

  function Strength(f: Forces, id: NodeId): real
  {
    match f
    case DefaultForces => 0.01
    case NodeForces(sel, connected) => if id == sel then 0.2 else if id in connected then 0.1 else 0.05
    case UnitForces(members, _, _) => if id in members then 0.2 else 0.05
  }

  function Charge(f: Forces, id: NodeId): real
  {
    match f
    case DefaultForces => -150.0
    case NodeForces(sel, connected) => if id == sel then -200.0 else if id in connected then -150.0 else -100.0
    case UnitForces(members, _, _) => if id in members then -100.0 else -30.0
  }

  /** The x target of the position force before its random spread. */
  function TargetX(f: Forces, id: NodeId, width: real): real
  {
    match f
    case UnitForces(members, ax, _) => if id in members then ax else width / 2.0
    case _ => width / 2.0
  }

  /** The width of the random spread around the target: `(random - 0.5) * spread`. */
  function Spread(f: Forces, id: NodeId): real
  {
    match f
    case DefaultForces => 0.0
    case NodeForces(sel, connected) => if id == sel then 0.0 else if id in connected then 100.0 else 200.0
    case UnitForces(members, _, _) => if id in members then 100.0 else 200.0
  }

  /** A falsy id (the number 0 or the empty string) switches the node
      highlight off. */
  predicate FalsyId(id: NodeId)
  {
    id == PartnerId(0) || id == StaffId("")
  }

  /** Under a node highlight, the selected node and its neighbours are drawn
      fully opaque and every other node at 0.3; exactly the links touching the
      selected node are opaque. */
  lemma NodeHighlightTable(links: seq<SimLink>, sel: NodeId, n: SimNode, i: nat)
    requires i < |links|
    ensures var v := NodeHighlight(sel, Connected(links, sel));
      (NodeOpacity(v, n) == 1.0 <==>
         n.id == sel || exists k :: 0 <= k < |links| && ((links[k].source == sel && links[k].target == n.id)
                                                        || (links[k].target == sel && links[k].source == n.id)))
      && (NodeOpacity(v, n) != 1.0 ==> NodeOpacity(v, n) == 0.3)
      && (LinkOpacity(v, links, i) == 1.0 <==> links[i].source == sel || links[i].target == sel)
      && (LinkOpacity(v, links, i) != 1.0 ==> LinkOpacity(v, links, i) == 0.1)
  {
    ConnectedIff(links, sel, n.id);
  }

  /** Under a unit highlight, exactly the nodes of the unit are opaque, and
      exactly the links between two of them. */
  lemma UnitHighlightTable(nodes: seq<SimNode>, links: seq<SimLink>, unitId: string, n: SimNode, i: nat)
    requires i < |links|
    ensures var members := UnitMembers(nodes, unitId);
      var v := UnitHighlight(unitId, members, UnitLinks(links, members));
      (NodeOpacity(v, n) == 1.0 <==> exists j :: 0 <= j < |nodes| && nodes[j].unit == unitId && nodes[j].id == n.id)
      && (LinkOpacity(v, links, i) == 1.0 <==> links[i].source in members && links[i].target in members)
  {
  }

  /** Focusing a node pulls it hardest to the centre and makes it repel most;
      its neighbours come next, every other node last. */
  lemma NodeForcesOrder(links: seq<SimLink>, sel: NodeId, a: NodeId, b: NodeId)
    requires a != sel && a in Connected(links, sel) && b != sel && b !in Connected(links, sel)
    ensures var f := NodeForces(sel, Connected(links, sel));
      Strength(f, sel) > Strength(f, a) > Strength(f, b)
      && Charge(f, sel) < Charge(f, a) < Charge(f, b)
      && Spread(f, sel) < Spread(f, a) < Spread(f, b)
  {
  }

  /** Focusing a unit pulls its members towards the unit's anchor, harder,
      with more repulsion and less spread than the other nodes, which stay
      around the centre; the default forces treat every node alike. */
  lemma UnitForcesOrder(members: set<NodeId>, ax: real, ay: real, width: real, a: NodeId, b: NodeId)
    requires a in members && b !in members
    ensures var f := UnitForces(members, ax, ay);
      TargetX(f, a, width) == ax && TargetX(f, b, width) == width / 2.0
      && Strength(f, a) > Strength(f, b) && Charge(f, a) < Charge(f, b) && Spread(f, a) < Spread(f, b)
    ensures Strength(DefaultForces, a) == Strength(DefaultForces, b) && Charge(DefaultForces, a) == Charge(DefaultForces, b)
      && TargetX(DefaultForces, a, width) == TargetX(DefaultForces, b, width) == width / 2.0
      && Spread(DefaultForces, a) == Spread(DefaultForces, b) == 0.0
  {
  }

  // ===========================================================================
  // The click machine

  class NetworkView {
    var selectedNode: Option<NodeId>
    var selectedUnit: Option<string>
    var forces: Forces
    var visuals: Visuals
    var alpha: real
    var alphaTarget: real
    /** Whether the parent passed an `onNodeClick` handler. */
    const hasNodeClick: bool
    /** The nodes handed to `onNodeClick`, in click order. */
    var nodeClicks: seq<NodeId>

    constructor(hasNodeClick: bool)
      ensures this.hasNodeClick == hasNodeClick
      ensures selectedNode == None && selectedUnit == None
      ensures forces == DefaultForces && visuals == Plain
      ensures alpha == 1.0 && alphaTarget == 0.0 && nodeClicks == []
    {
      selectedNode := None;
      selectedUnit := None;
      forces := DefaultForces;
      visuals := Plain;
      alpha := 1.0;
      alphaTarget := 0.0;
      this.hasNodeClick := hasNodeClick;
      nodeClicks := [];
    }

    /** A click on node `k`: the same node again clears the selection, any
        other selects it; the parent is told when it passed a handler; the
        unit selection is kept. */
    method ClickNode(nodes: array<SimNode>, k: nat, links: seq<SimLink>)
      requires k < nodes.Length
      modifies this
      ensures var id := nodes[k].id;
        selectedNode == (if old(selectedNode) == Some(id) then None else Some(id))
      ensures selectedUnit == old(selectedUnit) && alphaTarget == old(alphaTarget)
      ensures nodeClicks == old(nodeClicks) + (if hasNodeClick then [nodes[k].id] else [])
      ensures selectedNode.Some? ==>
        var id := nodes[k].id;
        forces == NodeForces(id, Connected(links, id)) && alpha == 0.3
        && visuals == (if FalsyId(id) then Plain else NodeHighlight(id, Connected(links, id)))
      ensures selectedNode.None? ==> forces == DefaultForces && alpha == 0.2 && visuals == Plain
    {
      var d := nodes[k];
      var newSelectedNode := if selectedNode.Some? && selectedNode.value == d.id then None else Some(d.id);
      selectedNode := newSelectedNode;
      if hasNodeClick {
        nodeClicks := nodeClicks + [d.id];
      }
      if newSelectedNode.Some? {
        var connected := ConnectedNodeIds(links, d.id);
        forces := NodeForces(d.id, connected);
        alpha := 0.3;
        if FalsyId(d.id) {
          visuals := Plain;
        } else {
          visuals := NodeHighlight(d.id, connected);
        }
      } else {
        forces := DefaultForces;
        alpha := 0.2;
        visuals := Plain;
      }
    }

    /** A click on a cluster's circle or label: the same unit again clears the
        unit selection, any other selects it; the node selection is always
        cleared. */
    method ClickUnit(catalog: seq<ClusterUnit>, u: ClusterUnit, nodes: array<SimNode>, links: seq<SimLink>)
      requires u in catalog && u.id != ""
      modifies this
      ensures selectedUnit == (if old(selectedUnit) == Some(u.id) then None else Some(u.id))
      ensures selectedNode == None
      ensures nodeClicks == old(nodeClicks) && alphaTarget == old(alphaTarget)
      ensures selectedUnit.None? ==> visuals == Plain && forces == DefaultForces && alpha == 0.3
      ensures selectedUnit.Some? ==>
        var members := UnitMembers(nodes[..], u.id);
        var c := FindCluster(catalog, u.id).value;
        visuals == UnitHighlight(u.id, members, UnitLinks(links, members))
        && forces == UnitForces(members, c.x, c.y) && alpha == 0.5
    {
      var newSelectedUnit := if selectedUnit == Some(u.id) then None else Some(u.id);
      selectedUnit := newSelectedUnit;
      selectedNode := None;
      if newSelectedUnit.None? {
        visuals := Plain;
        forces := DefaultForces;
        alpha := 0.3;
      } else {
        var members := UnitNodeIds(nodes, u.id);
        var memberLinks := UnitLinkIds(links, members);
        visuals := UnitHighlight(u.id, members, memberLinks);
        var selectedUnitInfo := FindCluster(catalog, u.id);
        assert selectedUnitInfo.Some?;
        forces := UnitForces(members, selectedUnitInfo.value.x, selectedUnitInfo.value.y);
        alpha := 0.5;
      }
    }

    /** A click on the background clears both selections and restores the
        default forces; the unit reset runs last, so alpha ends at 0.3. */
    method ClickBackground()
      modifies this
      ensures selectedNode == None && selectedUnit == None
      ensures forces == DefaultForces && visuals == Plain && alpha == 0.3
      ensures nodeClicks == old(nodeClicks) && alphaTarget == old(alphaTarget)
    {
      selectedNode := None;
      selectedUnit := None;
      forces := DefaultForces;
      alpha := 0.2;
      visuals := Plain;
      forces := DefaultForces;
      alpha := 0.3;
    }

    /** Drag start pins the node where it is and, for the first active drag,
        warms the simulation. */
    method DragStarted(nodes: array<SimNode>, k: nat, active: bool)
      requires k < nodes.Length
      modifies this, nodes
      ensures nodes[k] == old(nodes[k]).(fx := Some(old(nodes[k]).x), fy := Some(old(nodes[k]).y))
      ensures forall j :: 0 <= j < nodes.Length && j != k ==> nodes[j] == old(nodes[j])
      ensures alphaTarget == (if active then old(alphaTarget) else 0.3)
      ensures selectedNode == old(selectedNode) && selectedUnit == old(selectedUnit)
      ensures forces == old(forces) && visuals == old(visuals) && alpha == old(alpha)
      ensures nodeClicks == old(nodeClicks)
    {
      if !active {
        alphaTarget := 0.3;
      }
      nodes[k] := nodes[k].(fx := Some(nodes[k].x), fy := Some(nodes[k].y));
    }

    /** Dragging moves the pin to the pointer. */
    method Dragged(nodes: array<SimNode>, k: nat, px: real, py: real)
      requires k < nodes.Length
      modifies nodes
      ensures nodes[k] == old(nodes[k]).(fx := Some(px), fy := Some(py))
      ensures forall j :: 0 <= j < nodes.Length && j != k ==> nodes[j] == old(nodes[j])
    {
      nodes[k] := nodes[k].(fx := Some(px), fy := Some(py));
    }

    /** Drag end releases the pin and, when no drag is active, cools the
        simulation. */
    method DragEnded(nodes: array<SimNode>, k: nat, active: bool)
      requires k < nodes.Length
      modifies this, nodes
      ensures nodes[k] == old(nodes[k]).(fx := None, fy := None)
      ensures forall j :: 0 <= j < nodes.Length && j != k ==> nodes[j] == old(nodes[j])
      ensures alphaTarget == (if active then old(alphaTarget) else 0.0)
      ensures selectedNode == old(selectedNode) && selectedUnit == old(selectedUnit)
      ensures forces == old(forces) && visuals == old(visuals) && alpha == old(alpha)
      ensures nodeClicks == old(nodeClicks)
    {
      if !active {
        alphaTarget := 0.0;
      }
      nodes[k] := nodes[k].(fx := None, fy := None);
    }
  }
}
