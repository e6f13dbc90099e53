/** The UNIDO staff directory: who works in which directorate and division,
    the first-match lookup by id, and the choice of a recommended contact for a
    partner from its sector or partner type. */
module UnidoStaff {
  import opened Common
  import opened Records

  /** The staff directory in its listed order. */
  const Staff: seq<StaffMember> := [
    StaffMember("staff_001", "Gerd Müller", "DG", ""),
    StaffMember("staff_101", "Fatou Haidara", "SPP", "SPP/SPM"),
    StaffMember("staff_102", "Johannes Dobinger", "GLO", "GLO/FPR"),
    StaffMember("staff_103", "Matteo Fachin", "TCS", "TCS/DAI"),
    StaffMember("staff_104", "Caroline Neubauer", "GLO", "GLO/PMO"),
    StaffMember("staff_201", "Manuel Albaladejo", "SPP", "SPP/OMD"),
    StaffMember("staff_202", "Cecilia Ugaz Estrada", "SPP", "SPP/SPM"),
    StaffMember("staff_203", "Alejandro Lavopa", "SPP", "SPP/IPS/IPR"),
    StaffMember("staff_204", "Nobuya Haraguchi", "SPP", "SPP/SSC"),
    StaffMember("staff_205", "Fernando Santiago", "SPP", "SPP/GEW"),
    StaffMember("staff_301", "Bernardo Calzadilla-Sarmiento", "DTI", ""),
    StaffMember("staff_302", "Nilgun Tas", "DTI", "IRE"),
    StaffMember("staff_303", "Valentin Todorov", "DTI", "BIDA"),
    StaffMember("staff_304", "Fernando Santiago", "DTI", "ID"),
    StaffMember("staff_305", "Alejandro Rivera", "DTI", "SQI"),
    StaffMember("staff_401", "Tareq Emtairah", "EAE", ""),
    StaffMember("staff_402", "Petra Schwager", "EAE", "ICE"),
    StaffMember("staff_403", "Emma Watson", "TCB", "CEEP"),
    StaffMember("staff_404", "Samuel Okafor", "TCB", "AISD"),
    StaffMember("staff_405", "Anna Petrov", "TCB", "CTI"),
    StaffMember("staff_501", "Hiroshi Tanaka", "SDG", ""),
    StaffMember("staff_502", "Maria Gonzalez", "SDG", "IPR"),
    StaffMember("staff_503", "Leila Ibrahim", "SDG", "GEE"),
    StaffMember("staff_504", "Thomas Berg", "SDG", "CRE"),
    StaffMember("staff_505", "Priya Sharma", "SDG", "DTI"),
    StaffMember("staff_506", "Luis Vasquez", "SDG", "SDCA")
  ]

  /** Sector or partner-type name to the id of the staff member to contact. */
  const SectorToStaff: map<string, string> := map[
    "Energy" := "staff_504",
    "Renewable Energy" := "staff_504",
    "Clean Energy" := "staff_504",
    "Agriculture" := "staff_404",
    "Food Processing" := "staff_305",
    "Nutrition" := "staff_305",
    "Environment" := "staff_403",
    "Waste Management" := "staff_403",
    "Water Management" := "staff_403",
    "ICT" := "staff_505",
    "Technology" := "staff_505",
    "Digitalization" := "staff_505",
    "Gender" := "staff_503",
    "Women Empowerment" := "staff_503",
    "Climate" := "staff_405",
    "Climate Change" := "staff_405",
    "Research" := "staff_203",
    "Policy" := "staff_502",
    "Standards" := "staff_402",
    "Quality" := "staff_402",
    "UN Agency" := "staff_204",
    "International Organization" := "staff_204",
    "Academic" := "staff_203",
    "Government" := "staff_303",
    "Private Sector" := "staff_202",
    "NGO" := "staff_304"
  ]

  /** The default contact: the strategic partnerships officer. */
  const DefaultContact: string := "staff_202"

  /** `table.find(s => s.id === id) || null` */
  function FindStaff(table: seq<StaffMember>, id: string): (r: Option<StaffMember>)
    ensures r.Some? ==> exists i :: 0 <= i < |table| && table[i] == r.value
                          && forall j :: 0 <= j < i ==> table[j].id != id
    ensures r.Some? ==> r.value.id == id
    ensures r.None? <==> forall i :: 0 <= i < |table| ==> table[i].id != id
  {
    if table == [] then None
    else if table[0].id == id then Some(table[0])
    else
      var r := FindStaff(table[1..], id);
      assert r.Some? ==> exists i :: 1 <= i < |table| && table[i] == r.value
                           && forall j :: 1 <= j < i ==> table[j].id != id;
      r
  }

  function GetStaffById(id: string): Option<StaffMember>
  {
    FindStaff(Staff, id)
  }

  predicate DistinctIds(table: seq<StaffMember>)
  {
    forall i, j :: 0 <= i < j < |table| ==> table[i].id != table[j].id
  }

  /** In a directory without repeated ids, looking up a member's own id finds
      that very member. */
  lemma {:induction false} FindOwnId(table: seq<StaffMember>, k: nat)
    requires DistinctIds(table) && k < |table|
    ensures FindStaff(table, table[k].id) == Some(table[k])
  {
    if k > 0 {
      assert table[1..][k - 1] == table[k];
      assert DistinctIds(table[1..]);
      FindOwnId(table[1..], k - 1);
    }
  }

  /** The numeric part of an id of the form "staff_ddd", compared digit by digit. */
  function IdCode(id: string): int
  {
    if |id| == 9 then (id[6] as int) * 10000 + (id[7] as int) * 100 + id[8] as int else -1
  }

  /** Ids whose codes increase along the table are pairwise distinct. */
  lemma {:induction false} IncreasingCodesDistinct(table: seq<StaffMember>)
    requires forall i :: 0 <= i < |table| - 1 ==> IdCode(table[i].id) < IdCode(table[i + 1].id)
    ensures forall i, j :: 0 <= i < j < |table| ==> IdCode(table[i].id) < IdCode(table[j].id)
    ensures DistinctIds(table)
  {
    if |table| > 1 {
      var tail := table[1..];
      IncreasingCodesDistinct(tail);
      forall i, j | 0 <= i < j < |table| ensures IdCode(table[i].id) < IdCode(table[j].id) {
        if i == 0 {
          if j > 1 {
            assert tail[0] == table[1] && tail[j - 1] == table[j];
          }
        } else {
          assert tail[i - 1] == table[i] && tail[j - 1] == table[j];
        }
      }
    }
  }

  /** No id occurs twice in the directory. */
  lemma StaffIdsDistinct()
    ensures DistinctIds(Staff)
  {
    assert IdCode(Staff[0].id) < IdCode(Staff[1].id);
    assert IdCode(Staff[1].id) < IdCode(Staff[2].id);
    assert IdCode(Staff[2].id) < IdCode(Staff[3].id);
    assert IdCode(Staff[3].id) < IdCode(Staff[4].id);
    assert IdCode(Staff[4].id) < IdCode(Staff[5].id);
    assert IdCode(Staff[5].id) < IdCode(Staff[6].id);
    assert IdCode(Staff[6].id) < IdCode(Staff[7].id);
    assert IdCode(Staff[7].id) < IdCode(Staff[8].id);
    assert IdCode(Staff[8].id) < IdCode(Staff[9].id);
    assert IdCode(Staff[9].id) < IdCode(Staff[10].id);
    assert IdCode(Staff[10].id) < IdCode(Staff[11].id);
    assert IdCode(Staff[11].id) < IdCode(Staff[12].id);
    assert IdCode(Staff[12].id) < IdCode(Staff[13].id);
    assert IdCode(Staff[13].id) < IdCode(Staff[14].id);
    assert IdCode(Staff[14].id) < IdCode(Staff[15].id);
    assert IdCode(Staff[15].id) < IdCode(Staff[16].id);
    assert IdCode(Staff[16].id) < IdCode(Staff[17].id);
    assert IdCode(Staff[17].id) < IdCode(Staff[18].id);
    assert IdCode(Staff[18].id) < IdCode(Staff[19].id);
    assert IdCode(Staff[19].id) < IdCode(Staff[20].id);
    assert IdCode(Staff[20].id) < IdCode(Staff[21].id);
    assert IdCode(Staff[21].id) < IdCode(Staff[22].id);
    assert IdCode(Staff[22].id) < IdCode(Staff[23].id);
    assert IdCode(Staff[23].id) < IdCode(Staff[24].id);
    assert IdCode(Staff[24].id) < IdCode(Staff[25].id);
    IncreasingCodesDistinct(Staff);
  }

  /** Every member of the directory is what `getStaffById` returns for its id. */
  lemma GetStaffByOwnId(k: nat)
    requires k < |Staff|
    ensures GetStaffById(Staff[k].id) == Some(Staff[k])
  {
    StaffIdsDistinct();
    FindOwnId(Staff, k);
  }

  /** Sector first, then partner type, then the default contact. */
  function FindAppropriateContact(p: Partner): (r: string)
    ensures p.sector in SectorToStaff ==> r == SectorToStaff[p.sector]
    ensures p.sector !in SectorToStaff && p.partnerType in SectorToStaff ==> r == SectorToStaff[p.partnerType]
    ensures p.sector !in SectorToStaff && p.partnerType !in SectorToStaff ==> r == DefaultContact
    ensures r in SectorToStaff.Values || r == DefaultContact
  {
    if p.sector != "" && p.sector in SectorToStaff then SectorToStaff[p.sector]
    else if p.partnerType != "" && p.partnerType in SectorToStaff then SectorToStaff[p.partnerType]
    else DefaultContact
  }

  /** The staff ids the contact table names, in two halves. */
  const ContactIdsA: set<string> := {"staff_504", "staff_404", "staff_305", "staff_403", "staff_505", "staff_503", "staff_405"}
  const ContactIdsB: set<string> := {"staff_203", "staff_502", "staff_402", "staff_204", "staff_303", "staff_202", "staff_304"}

  lemma ContactTableValues()
    ensures forall k :: k in SectorToStaff ==> SectorToStaff[k] in ContactIdsA + ContactIdsB
  {
  }

  lemma ContactIdsAListed(id: string)
    requires id in ContactIdsA
    ensures GetStaffById(id).Some?
  {
    if id == "staff_504" { assert Staff[23].id == id; }
    else if id == "staff_404" { assert Staff[18].id == id; }
    else if id == "staff_305" { assert Staff[14].id == id; }
    else if id == "staff_403" { assert Staff[17].id == id; }
    else if id == "staff_505" { assert Staff[24].id == id; }
    else if id == "staff_503" { assert Staff[22].id == id; }
    else { assert Staff[19].id == id; }
  }

  lemma ContactIdsBListed(id: string)
    requires id in ContactIdsB
    ensures GetStaffById(id).Some?
  {
    if id == "staff_203" { assert Staff[7].id == id; }
    else if id == "staff_502" { assert Staff[21].id == id; }
    else if id == "staff_402" { assert Staff[16].id == id; }
    else if id == "staff_204" { assert Staff[8].id == id; }
    else if id == "staff_303" { assert Staff[12].id == id; }
    else if id == "staff_202" { assert Staff[6].id == id; }
    else { assert Staff[13].id == id; }
  }

  /** Every recommended contact is a member of the directory. */
  lemma ContactIsListed(p: Partner)
    ensures GetStaffById(FindAppropriateContact(p)).Some?
  {
    var r := FindAppropriateContact(p);
    ContactTableValues();
    if r in ContactIdsA { ContactIdsAListed(r); } else { ContactIdsBListed(r); }
  }
}
