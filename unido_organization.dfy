/** The UNIDO organisation chart (the Director General, the offices reporting
    to the DG, the directorates with their divisions), its two flattenings for
    lookups and drop-down menus, and the mapping of a partner to the UNIDO
    units it works with. */
module UnidoOrganization {
  import opened Common
  import opened Records
  import opened UnidoStaff

  datatype Division = Division(id: string, name: string)
  /** An office; its own divisions (the evaluation office has some) are not
      flattened by either helper. */
  datatype Office = Office(id: string, name: string, divisions: seq<Division>)
  datatype Directorate = Directorate(id: string, name: string, divisions: seq<Division>)
  datatype Organization = Organization(
    dgId: string, dgName: string, offices: seq<Office>, directorates: seq<Directorate>)

  /** Divisions of the chart whose name is their id. */
  function SameNamed(ids: seq<string>): (r: seq<Division>)
    ensures |r| == |ids| && forall k :: 0 <= k < |ids| ==> r[k] == Division(ids[k], ids[k])
  {
    seq(|ids|, k requires 0 <= k < |ids| => Division(ids[k], ids[k]))
  }

  const Unido: Organization := Organization(
    "ODG", "Office of the Director General",
    [
    Office("ODG/ODG", "Office of the Director General", []),
    Office("ODG/COC", "Office of the Chief of Cabinet", []),
    Office("ODG/LEG", "Legal Office", []),
    Office("ODG/CCM", "Communications and Media", []),
    Office("EIO", "Office of Evaluation & Internal Oversight", SameNamed(["EIO/IEU", "EIO/IOU"]))
    ],
    [
    Directorate("GLO", "Directorate of Global Partnerships and External Relations", SameNamed([
      "GLO/OMD", "GLO/BRO", "GLO/GVO", "GLO/NYO", "GLO/PMO", "GLO/FPR", "GLO/FPR/GEF",
      "GLO/ITP", "GLO/ITP/BAH", "GLO/ITP/BEI", "GLO/ITP/BER", "GLO/ITP/GER", "GLO/ITP/ITA",
      "GLO/ITP/JPN", "GLO/ITP/ROK", "GLO/ITP/RUS", "GLO/RFO", "GLO/RFO/AFR", "GLO/RFO/ARB",
      "GLO/RFO/ASP", "GLO/RFO/EUR", "GLO/RFO/LAC", "GLO/RFO/FLD/AFR/ETH",
      "GLO/RFO/FLD/AFR/NIR", "GLO/RFO/FLD/AFR/IVC", "GLO/RFO/FLD/AFR/SAF",
      "GLO/RFO/FLD/AFR/BKF", "GLO/RFO/FLD/AFR/CMR", "GLO/RFO/FLD/AFR/COD",
      "GLO/RFO/FLD/AFR/GHA", "GLO/RFO/FLD/AFR/GUI", "GLO/RFO/FLD/AFR/KEN",
      "GLO/RFO/FLD/AFR/MAG", "GLO/RFO/FLD/AFR/MOZ", "GLO/RFO/FLD/AFR/SEN",
      "GLO/RFO/FLD/AFR/SIL", "GLO/RFO/FLD/AFR/UGA", "GLO/RFO/FLD/AFR/URT",
      "GLO/RFO/FLD/ARB/EGY", "GLO/RFO/FLD/ARB/ALG", "GLO/RFO/FLD/ARB/JOR",
      "GLO/RFO/FLD/ARB/LEB", "GLO/RFO/FLD/ARB/MOR", "GLO/RFO/FLD/ARB/SUD",
      "GLO/RFO/FLD/ARB/TUN", "GLO/RFO/FLD/ASP/THA", "GLO/RFO/FLD/ASP/CPR",
      "GLO/RFO/FLD/ASP/IND", "GLO/RFO/FLD/ASP/BGD", "GLO/RFO/FLD/ASP/CMB",
      "GLO/RFO/FLD/ASP/INS", "GLO/RFO/FLD/ASP/IRA", "GLO/RFO/FLD/ASP/LAO",
      "GLO/RFO/FLD/ASP/PAK", "GLO/RFO/FLD/ASP/PHI", "GLO/RFO/FLD/ASP/VIE",
      "GLO/RFO/FLD/EUR/ARM", "GLO/RFO/FLD/EUR/KYR", "GLO/RFO/FLD/EUR/TUR",
      "GLO/RFO/FLD/LAC/MEX", "GLO/RFO/FLD/LAC/BAR", "GLO/RFO/FLD/LAC/URU",
      "GLO/RFO/FLD/LAC/BOL", "GLO/RFO/FLD/LAC/BRA", "GLO/RFO/FLD/LAC/COL",
      "GLO/RFO/FLD/LAC/ECU", "GLO/RFO/FLD/LAC/NIC"
    ])),
    Directorate("TCS", "Directorate of Technical Cooperation and Sustainable Industrial Development", SameNamed([
      "TCS/OMD", "TCS/IPC", "TCS/CEG", "TCS/CEG/CRE", "TCS/CEG/RMC", "TCS/ECA", "TCS/ECA/ESD",
      "TCS/ECA/JET", "TCS/CMP", "TCS/CMP/CTI", "TCS/CMP/MPU", "TCS/SME", "TCS/SME/MDJ",
      "TCS/SME/CQC", "TCS/DAI"
    ])),
    Directorate("IET", "Directorate of SDG Innovation and Economic Transformation", SameNamed([
      "IET/OMD", "IET/AGR", "IET/AGR/FSS", "IET/AGR/RAP", "IET/AGR/AIB", "IET/PST",
      "IET/PST/SEF", "IET/PST/SIB", "IET/CTP", "IET/IFI", "IET/PPP"
    ])),
    Directorate("SPP", "Directorate of Strategic Planning, Programming and Policy", SameNamed([
      "SPP/OMD", "SPP/SSC", "SPP/SSC/SPN", "SPP/SEC", "SPP/SPM", "SPP/SPM/SPR", "SPP/SPM/QAS",
      "SPP/IPS/ISR", "SPP/IPS/IPR", "SPP/GEW", "SPP/KMG"
    ]))
    ])

  // ---------------------------------------------------------------------------
  // getAllDivisions: every division, tagged with its directorate

  datatype DirectorateRef = DirectorateRef(id: string, name: string)
  datatype FlatDivision = FlatDivision(id: string, name: string, directorate: DirectorateRef)

  function Tagged(d: Directorate): (r: seq<FlatDivision>)
    ensures |r| == |d.divisions|
  {
    seq(|d.divisions|, k requires 0 <= k < |d.divisions| =>
      FlatDivision(d.divisions[k].id, d.divisions[k].name, DirectorateRef(d.id, d.name)))
  }

  /** The flat division list, directorate by directorate. */
  function FlatDivisions(ds: seq<Directorate>): seq<FlatDivision>
  {
    if ds == [] then [] else FlatDivisions(ds[..|ds| - 1]) + Tagged(ds[|ds| - 1])
  }

  function DivisionCount(ds: seq<Directorate>): nat
  {
    if ds == [] then 0 else DivisionCount(ds[..|ds| - 1]) + |ds[|ds| - 1].divisions|
  }

  method GetAllDivisions(org: Organization) returns (divisions: seq<FlatDivision>)
    ensures divisions == FlatDivisions(org.directorates)
  {
    var ds := org.directorates;
    divisions := [];
    for i := 0 to |ds|
      invariant divisions == FlatDivisions(ds[..i])
    {
      var d := ds[i];
      for j := 0 to |d.divisions|
        invariant divisions == FlatDivisions(ds[..i]) + Tagged(d)[..j]
      {
        var division := d.divisions[j];
        divisions := divisions + [FlatDivision(division.id, division.name, DirectorateRef(d.id, d.name))];
      }
      assert ds[..i + 1][..i] == ds[..i];
      assert Tagged(d)[..|d.divisions|] == Tagged(d);
    }
    assert ds[..|ds|] == ds;
  }

  /** One entry per division: division `j` of directorate `i` sits after all
      divisions of the earlier directorates and carries its own directorate's
      id and name. */
  lemma {:induction false} FlatDivisionsIndex(ds: seq<Directorate>, i: nat, j: nat)
    requires i < |ds| && j < |ds[i].divisions|
    ensures |FlatDivisions(ds)| == DivisionCount(ds)
    ensures DivisionCount(ds[..i]) + j < DivisionCount(ds)
    ensures FlatDivisions(ds)[DivisionCount(ds[..i]) + j]
         == FlatDivision(ds[i].divisions[j].id, ds[i].divisions[j].name, DirectorateRef(ds[i].id, ds[i].name))
  {
    var init := ds[..|ds| - 1];
    FlatDivisionsLength(init);
    if i < |ds| - 1 {
      assert init[..i] == ds[..i];
      FlatDivisionsIndex(init, i, j);
    } else {
      assert ds[..i] == init;
    }
  }

  lemma {:induction false} FlatDivisionsLength(ds: seq<Directorate>)
    ensures |FlatDivisions(ds)| == DivisionCount(ds)
  {
    if ds != [] {
      FlatDivisionsLength(ds[..|ds| - 1]);
    }
  }

  // ---------------------------------------------------------------------------
  // getAllUnits: the DG, the offices and directorates under it, then every
  // division under its directorate

  datatype UnitKind = OfficeUnit | DirectorateUnit | DivisionUnit
  datatype Unit = Unit(id: string, name: string, kind: UnitKind, parentId: Option<string>)

  function OfficeUnits(org: Organization): (r: seq<Unit>)
    ensures |r| == |org.offices|
  {
    seq(|org.offices|, k requires 0 <= k < |org.offices| =>
      Unit(org.offices[k].id, org.offices[k].name, OfficeUnit, Some(org.dgId)))
  }

  function DirectorateUnits(org: Organization): (r: seq<Unit>)
    ensures |r| == |org.directorates|
  {
    seq(|org.directorates|, k requires 0 <= k < |org.directorates| =>
      Unit(org.directorates[k].id, org.directorates[k].name, DirectorateUnit, Some(org.dgId)))
  }

  function DivisionUnitsOf(d: Directorate): (r: seq<Unit>)
    ensures |r| == |d.divisions|
  {
    seq(|d.divisions|, k requires 0 <= k < |d.divisions| =>
      Unit(d.divisions[k].id, d.divisions[k].name, DivisionUnit, Some(d.id)))
  }

  function DivisionUnits(ds: seq<Directorate>): seq<Unit>
  {
    if ds == [] then [] else DivisionUnits(ds[..|ds| - 1]) + DivisionUnitsOf(ds[|ds| - 1])
  }

  function AllUnits(org: Organization): seq<Unit>
  {
    [Unit(org.dgId, org.dgName, OfficeUnit, None)] + OfficeUnits(org) + DirectorateUnits(org)
      + DivisionUnits(org.directorates)
  }

  method GetAllUnits(org: Organization) returns (units: seq<Unit>)
    ensures units == AllUnits(org)
  {
    units := [Unit(org.dgId, org.dgName, OfficeUnit, None)] + OfficeUnits(org) + DirectorateUnits(org);
    ghost var header := units;
    var ds := org.directorates;
    for i := 0 to |ds|
      invariant units == header + DivisionUnits(ds[..i])
    {
      var d := ds[i];
      for j := 0 to |d.divisions|
        invariant units == header + DivisionUnits(ds[..i]) + DivisionUnitsOf(d)[..j]
      {
        var division := d.divisions[j];
        units := units + [Unit(division.id, division.name, DivisionUnit, Some(d.id))];
      }
      assert ds[..i + 1][..i] == ds[..i];
      assert DivisionUnitsOf(d)[..|d.divisions|] == DivisionUnitsOf(d);
    }
    assert ds[..|ds|] == ds;
  }

  /** The division units are the flat divisions again, each with its
      directorate as parent. */
  lemma {:induction false} DivisionUnitsMatchDivisions(ds: seq<Directorate>)
    ensures |DivisionUnits(ds)| == |FlatDivisions(ds)|
    ensures forall k :: 0 <= k < |DivisionUnits(ds)| ==>
      DivisionUnits(ds)[k] == Unit(FlatDivisions(ds)[k].id, FlatDivisions(ds)[k].name, DivisionUnit,
                                   Some(FlatDivisions(ds)[k].directorate.id))
  {
    if ds != [] {
      DivisionUnitsMatchDivisions(ds[..|ds| - 1]);
    }
  }

  /** The DG comes first with no parent; the offices and then the directorates
      follow with the DG as parent; every division has its own directorate as
      parent; nothing else is listed. */
  lemma UnitsShape(org: Organization)
    ensures |AllUnits(org)| == 1 + |org.offices| + |org.directorates| + DivisionCount(org.directorates)
    ensures AllUnits(org)[0] == Unit(org.dgId, org.dgName, OfficeUnit, None)
    ensures forall k :: 0 <= k < |org.offices| ==>
      AllUnits(org)[1 + k] == Unit(org.offices[k].id, org.offices[k].name, OfficeUnit, Some(org.dgId))
    ensures forall k :: 0 <= k < |org.directorates| ==>
      AllUnits(org)[1 + |org.offices| + k]
        == Unit(org.directorates[k].id, org.directorates[k].name, DirectorateUnit, Some(org.dgId))
  {
    DivisionUnitsMatchDivisions(org.directorates);
    FlatDivisionsLength(org.directorates);
  }

  /** Division `j` of directorate `i` is listed after the DG, the offices, the
      directorates and the earlier directorates' divisions, with directorate
      `i` as parent. */
  lemma DivisionUnitAt(org: Organization, i: nat, j: nat)
    requires i < |org.directorates| && j < |org.directorates[i].divisions|
    ensures 1 + |org.offices| + |org.directorates| + DivisionCount(org.directorates[..i]) + j < |AllUnits(org)|
    ensures AllUnits(org)[1 + |org.offices| + |org.directorates| + DivisionCount(org.directorates[..i]) + j]
        == Unit(org.directorates[i].divisions[j].id, org.directorates[i].divisions[j].name,
                DivisionUnit, Some(org.directorates[i].id))
  {
    UnitsShape(org);
    DivisionUnitsMatchDivisions(org.directorates);
    FlatDivisionsIndex(org.directorates, i, j);
    var header := [Unit(org.dgId, org.dgName, OfficeUnit, None)] + OfficeUnits(org) + DirectorateUnits(org);
    assert AllUnits(org) == header + DivisionUnits(org.directorates);
  }

  // ---------------------------------------------------------------------------
  // mapPartnerToUnidoUnits

  /** A directorate and a division id; "" stands for `null`. */
  datatype UnitRef = UnitRef(directorate: string, division: string)
  datatype UnitAssignment = UnitAssignment(primary: UnitRef, secondary: seq<UnitRef>)

  /** Focus area, sector or partner type to the unit that handles it. */
  const SectorToUnit: map<string, UnitRef> := map[
    "Energy" := UnitRef("SDG", "CRE"),
    "Renewable Energy" := UnitRef("SDG", "CRE"),
    "Clean Energy" := UnitRef("SDG", "CRE"),
    "Agriculture" := UnitRef("TCB", "AISD"),
    "Food Processing" := UnitRef("GPR", "FSN"),
    "Nutrition" := UnitRef("GPR", "FSN"),
    "Environment" := UnitRef("TCB", "CEEP"),
    "Waste Management" := UnitRef("TCB", "CEEP"),
    "Water Management" := UnitRef("TCB", "CEEP"),
    "ICT" := UnitRef("SDG", "DTI"),
    "Technology" := UnitRef("SDG", "DTI"),
    "Digitalization" := UnitRef("SDG", "DTI"),
    "Gender" := UnitRef("SDG", "GEE"),
    "Women Empowerment" := UnitRef("SDG", "GEE"),
    "SME Development" := UnitRef("TCB", "SMEDE"),
    "Entrepreneurship" := UnitRef("TCB", "SMEDE"),
    "Climate" := UnitRef("TCB", "CTI"),
    "Climate Change" := UnitRef("TCB", "CTI"),
    "Research" := UnitRef("SPP", "SPP/IPS/IPR"),
    "Policy" := UnitRef("SPP", "SPP/SPM"),
    "Strategic Planning" := UnitRef("SPP", "SPP/OMD"),
    "Coordination" := UnitRef("SPP", "SPP/OMD"),
    "Organizational Development" := UnitRef("SPP", "SPP/OMD"),
    "Standards" := UnitRef("TCB", "QISP"),
    "Quality" := UnitRef("TCB", "QISP"),
    "UN Agency" := UnitRef("GLO", "GLO/UNR"),
    "International Organization" := UnitRef("GLO", "GLO/MEA"),
    "Academic" := UnitRef("SPP", "SPP/KMG"),
    "Government" := UnitRef("GPR", "RAS"),
    "Private Sector" := UnitRef("TCS", "TCS/DAI"),
    "NGO" := UnitRef("GPR", "CISD")
  ]

  const DefaultUnit: UnitRef := UnitRef("SPP", "SPP/IPS")

  /** The unit of the partner's main contact, when that contact is a listed
      staff member with a directorate. */
  function ContactUnit(p: Partner): Option<UnitRef>
  {
    if p.mainContactPerson == "" then None
    else match GetStaffById(p.mainContactPerson)
      case None => None
      case Some(s) => if s.directorate != "" then Some(UnitRef(s.directorate, s.division)) else None
  }

  /** The focus areas' units, in focus-area order, that differ from `primary`. */
  function SecondaryUnits(areas: seq<string>, primary: UnitRef): (r: seq<UnitRef>)
    ensures |r| <= |areas|
    ensures forall u :: u in r ==> u != primary && exists a :: a in areas && a in SectorToUnit && SectorToUnit[a] == u
    ensures forall a :: a in areas && a in SectorToUnit && SectorToUnit[a] != primary ==> SectorToUnit[a] in r
  {
    if areas == [] then []
    else
      var init, area := areas[..|areas| - 1], areas[|areas| - 1];
      var rest := SecondaryUnits(init, primary);
      assert forall a :: a in areas ==> a in init || a == area;
      if area in SectorToUnit && SectorToUnit[area] != primary then rest + [SectorToUnit[area]] else rest
  }

  /** The sector's unit, else the partner type's unit, else the default. */
  method FallbackUnit(p: Partner) returns (primary: UnitRef)
    ensures p.sector in SectorToUnit ==> primary == SectorToUnit[p.sector]
    ensures p.sector !in SectorToUnit && p.partnerType in SectorToUnit ==> primary == SectorToUnit[p.partnerType]
    ensures p.sector !in SectorToUnit && p.partnerType !in SectorToUnit ==> primary == DefaultUnit
  {
    if p.sector != "" && p.sector in SectorToUnit {
      primary := SectorToUnit[p.sector];
    } else if p.partnerType != "" && p.partnerType in SectorToUnit {
      primary := SectorToUnit[p.partnerType];
    } else {
      primary := DefaultUnit;
    }
  }

  /** The `focusAreas.forEach` of mapPartnerToUnidoUnits. */
  method CollectSecondary(areas: seq<string>, primary: UnitRef) returns (secondary: seq<UnitRef>)
    ensures secondary == SecondaryUnits(areas, primary)
  {
    secondary := [];
    for i := 0 to |areas|
      invariant secondary == SecondaryUnits(areas[..i], primary)
    {
      var area := areas[i];
      if area in SectorToUnit {
        var u := SectorToUnit[area];
        if u.directorate != primary.directorate || u.division != primary.division {
          secondary := secondary + [u];
        }
      }
      assert areas[..i + 1][..i] == areas[..i];
    }
    assert areas[..|areas|] == areas;
  }

  /** The contact's unit wins and ends the search with no secondary units;
      otherwise the sector's unit, else the partner type's unit, else the
      default is primary, and the focus areas give the secondary units. */
  method MapPartnerToUnidoUnits(p: Partner) returns (r: UnitAssignment)
    ensures ContactUnit(p).Some? ==> r == UnitAssignment(ContactUnit(p).value, [])
    ensures ContactUnit(p).None? && p.sector in SectorToUnit ==> r.primary == SectorToUnit[p.sector]
    ensures ContactUnit(p).None? && p.sector !in SectorToUnit && p.partnerType in SectorToUnit ==>
      r.primary == SectorToUnit[p.partnerType]
    ensures ContactUnit(p).None? && p.sector !in SectorToUnit && p.partnerType !in SectorToUnit ==>
      r.primary == DefaultUnit
    ensures ContactUnit(p).None? ==> r.secondary == SecondaryUnits(OrEmpty(p.focusAreas), r.primary)
    ensures r.primary.directorate != ""
  {
    var primary := UnitRef("", "");
    if p.mainContactPerson != "" {
      var staff := GetStaffById(p.mainContactPerson);
      if staff.Some? {
        primary := primary.(directorate := staff.value.directorate);
        if staff.value.division != "" {
          primary := primary.(division := staff.value.division);
        }
        if primary.directorate != "" {
          return UnitAssignment(primary, []);
        }
      }
    }
    primary := FallbackUnit(p);
    UnitTableHasDirectorates();
    var secondary := [];
    if p.focusAreas.Some? {
      secondary := CollectSecondary(p.focusAreas.value, primary);
    }
    r := UnitAssignment(primary, secondary);
  }

  /** Every unit in the mapping table names a directorate. */
  lemma UnitTableHasDirectorates()
    ensures forall k :: k in SectorToUnit ==> SectorToUnit[k].directorate != ""
  {
  }

  /** The UNIDO chart flattens to 104 divisions and 114 units. */
  lemma UnidoSizes()
    ensures DivisionCount(Unido.directorates) == 104
    ensures |AllUnits(Unido)| == 114
  {
    var ds := Unido.directorates;
    assert |ds[0].divisions| == 67 && |ds[1].divisions| == 15;
    assert |ds[2].divisions| == 11 && |ds[3].divisions| == 11;
    assert DivisionCount(ds[..1]) == 67 by { assert ds[..1][..0] == []; }
    assert DivisionCount(ds[..2]) == 82 by { assert ds[..2][..1] == ds[..1]; }
    assert DivisionCount(ds[..3]) == 93 by { assert ds[..3][..2] == ds[..2]; }
    assert ds[..4][..3] == ds[..3] && ds[..4] == ds;
    UnitsShape(Unido);
  }
}
