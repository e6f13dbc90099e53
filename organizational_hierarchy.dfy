/** The organisational-structure panel: the directorates of the chart, each
    with its divisions as buckets of partners, plus the Director General's
    office; every partner is put into the bucket of its main contact's
    division, or into a "Directorate Office" bucket created on first use for
    staff who sit directly in a directorate. Also the per-directorate partner
    count and the expand/collapse toggles.

    The result object is keyed by directorate id; its keys are not array
    indices, so `Object.values` visits them in insertion order, which is the
    order of the sequence here. */
module OrganizationalHierarchy {
  import opened Common
  import opened Collections
  import opened Records
  import opened UnidoStaff
  import opened UnidoOrganization

  /** The summary of a partner kept in a bucket. */
  datatype PartnerEntry = PartnerEntry(
    id: int, name: string, partnerType: string, contactPersonName: string,
    contactPerson: StaffMember, projects: nat, status: string)

  datatype Bucket = Bucket(id: string, name: string, partners: seq<PartnerEntry>)

  datatype DirectorateBucket = DirectorateBucket(id: string, name: string, divisions: seq<Bucket>)

  /** The name of the bucket made for directorate-level staff. */
  const VirtualName: string := "Directorate Office"

  function VirtualId(directorateId: string): string
  {
    directorateId + "_DIR"
  }

  function EntryOf(p: Partner, s: StaffMember): PartnerEntry
  {
    PartnerEntry(p.id, p.name, p.partnerType, p.contactPerson, s, |OrEmpty(p.projects)|, p.status)
  }

  // ===========================================================================
  // Lookups in the result

  /** `result[key]`: the position of the directorate stored under `key`. */
  function KeyIndex(r: seq<DirectorateBucket>, key: string): (i: Option<nat>)
    ensures i.Some? ==> i.value < |r| && r[i.value].id == key && forall k :: 0 <= k < i.value ==> r[k].id != key
    ensures i.None? <==> forall k :: 0 <= k < |r| ==> r[k].id != key
  {
    if r == [] then None
    else if r[0].id == key then Some(0)
    else match KeyIndex(r[1..], key)
      case None => None
      case Some(i) => Some(i + 1)
  }

  /** `divisions.find(d => d.id === id)`, as a position. */
  function FindBucket(divisions: seq<Bucket>, id: string): (j: Option<nat>)
    ensures j.Some? ==> j.value < |divisions| && divisions[j.value].id == id
                        && forall k :: 0 <= k < j.value ==> divisions[k].id != id
    ensures j.None? <==> forall k :: 0 <= k < |divisions| ==> divisions[k].id != id
  {
    if divisions == [] then None
    else if divisions[0].id == id then Some(0)
    else match FindBucket(divisions[1..], id)
      case None => None
      case Some(j) => Some(j + 1)
  }

  /** `findDivision`: the first division with that id, over the directorates
      from position `from` on, in result order. */
  function FindDivision(r: seq<DirectorateBucket>, id: string, from: nat): (found: Option<(nat, nat)>)
    requires from <= |r|
    ensures found.Some? ==>
      var (i, j) := found.value;
      from <= i < |r| && FindBucket(r[i].divisions, id) == Some(j)
      && forall k :: from <= k < i ==> FindBucket(r[k].divisions, id).None?
    ensures found.None? <==> forall k :: from <= k < |r| ==> FindBucket(r[k].divisions, id).None?
    decreases |r| - from
  {
    if from == |r| then None
    else match FindBucket(r[from].divisions, id)
      case Some(j) => Some((from, j))
      case None => FindDivision(r, id, from + 1)
  }

  // ===========================================================================
  // Building the result

  /** `result[d.id] = d`: overwrite the entry under that key, or add it last. */
  function Assign(r: seq<DirectorateBucket>, d: DirectorateBucket): seq<DirectorateBucket>
  {
    match KeyIndex(r, d.id)
    case Some(i) => r[i := d]
    case None => r + [d]
  }

  /** A directorate of the chart with every division bucket empty. */
  function EmptyBuckets(d: Directorate): DirectorateBucket
  {
    DirectorateBucket(d.id, d.name, Map(d.divisions, (v: Division) => Bucket(v.id, v.name, [])))
  }

  const DGBucket: DirectorateBucket := DirectorateBucket("DG", "Director General's Office", [])

  /** The buckets after the first `forEach` over the directorates. */
  function Initialized(ds: seq<Directorate>): seq<DirectorateBucket>
  {
    if ds == [] then [] else Assign(Initialized(ds[..|ds| - 1]), EmptyBuckets(ds[|ds| - 1]))
  }

  function InitialResult(org: Organization): seq<DirectorateBucket>
  {
    Assign(Initialized(org.directorates), DGBucket)
  }

  /** Push `e` onto bucket `j` of directorate `i`. */
  function AddTo(r: seq<DirectorateBucket>, i: nat, j: nat, e: PartnerEntry): seq<DirectorateBucket>
    requires i < |r| && j < |r[i].divisions|
  {
    var b := r[i].divisions[j];
    r[i := r[i].(divisions := r[i].divisions[j := b.(partners := b.partners + [e])])]
  }

  /** Into the directorate's own bucket, made (once) when missing. */
  function AddToVirtual(r: seq<DirectorateBucket>, i: nat, e: PartnerEntry): seq<DirectorateBucket>
    requires i < |r|
  {
    var vid := VirtualId(r[i].id);
    match FindBucket(r[i].divisions, vid)
    case Some(j) => AddTo(r, i, j, e)
    case None => r[i := r[i].(divisions := r[i].divisions + [Bucket(vid, VirtualName, [e])])]
  }

  /** One partner of the `forEach`, with `directory` the staff directory that
      `getStaffById` searches. */
  function Place(r: seq<DirectorateBucket>, p: Partner, directory: seq<StaffMember>): seq<DirectorateBucket>
  {
    if p.mainContactPerson == "" then r
    else match FindStaff(directory, p.mainContactPerson)
      case None => r
      case Some(s) =>
        if s.division != "" then
          match FindDivision(r, s.division, 0)
          case None => r
          case Some((i, j)) => AddTo(r, i, j, EntryOf(p, s))
        else if s.directorate != "" then
          match KeyIndex(r, s.directorate)
          case None => r
          case Some(i) => AddToVirtual(r, i, EntryOf(p, s))
        else r
  }

  function PlaceAll(r: seq<DirectorateBucket>, ps: seq<Partner>, directory: seq<StaffMember>): seq<DirectorateBucket>
  {
    if ps == [] then r else Place(PlaceAll(r, ps[..|ps| - 1], directory), ps[|ps| - 1], directory)
  }

  /** `organizationData`: the two passes of the memo, the view passing the
      directory `Staff`. */
  method OrganizationData(org: Organization, partners: seq<Partner>, directory: seq<StaffMember>)
    returns (result: seq<DirectorateBucket>)
    ensures result == PlaceAll(InitialResult(org), partners, directory)
  {
    result := [];
    for k := 0 to |org.directorates|
      invariant result == Initialized(org.directorates[..k])
    {
      assert org.directorates[..k + 1][..k] == org.directorates[..k];
      result := Assign(result, EmptyBuckets(org.directorates[k]));
    }
    assert org.directorates[..|org.directorates|] == org.directorates;
    result := Assign(result, DGBucket);
    ghost var start := result;
    for k := 0 to |partners|
      invariant result == PlaceAll(start, partners[..k], directory)
    {
      assert partners[..k + 1][..k] == partners[..k];
      result := Place(result, partners[k], directory);
    }
    assert partners[..|partners|] == partners;
  }

  // ===========================================================================
  // countDirectoratePartners and the total

  function BucketSize(b: Bucket): int
  {
    |b.partners|
  }

  /** The sum of the directorate's bucket sizes. */
  function CountDirectoratePartners(d: DirectorateBucket): int
  {
    SumBy(d.divisions, BucketSize)
  }

  /** All partners placed anywhere. */
  function TotalPlaced(r: seq<DirectorateBucket>): int
  {
    SumBy(r, CountDirectoratePartners)
  }

  function Keys(r: seq<DirectorateBucket>): seq<(string, string)>
  {
    Map(r, (d: DirectorateBucket) => (d.id, d.name))
  }

  // ===========================================================================
  // Properties of one placement

  /** Pushing onto one bucket adds exactly that entry to it, one to its
      directorate's count and one to the total, and keeps the keys. */
  lemma AddToFacts(r: seq<DirectorateBucket>, i: nat, j: nat, e: PartnerEntry)
    requires i < |r| && j < |r[i].divisions|
    ensures var t := AddTo(r, i, j, e);
      |t| == |r| && Keys(t) == Keys(r)
      && t[i].divisions[j].partners == r[i].divisions[j].partners + [e]
      && CountDirectoratePartners(t[i]) == CountDirectoratePartners(r[i]) + 1
      && TotalPlaced(t) == TotalPlaced(r) + 1
      && (forall k :: 0 <= k < |r| && k != i ==> t[k] == r[k])
      && (forall k :: 0 <= k < |r[i].divisions| && k != j ==> t[i].divisions[k] == r[i].divisions[k])
      && |t[i].divisions| == |r[i].divisions|
      && forall k :: 0 <= k < |r[i].divisions| ==> t[i].divisions[k].id == r[i].divisions[k].id
  {
    var t := AddTo(r, i, j, e);
    var b := r[i].divisions[j];
    SumByUpdate(r[i].divisions, j, b.(partners := b.partners + [e]), BucketSize);
    SumByUpdate(r, i, t[i], CountDirectoratePartners);
  }

  /** Adding to the directorate's own bucket: one more partner, and at most one
      new bucket, made only when none with that id existed. */
  lemma AddToVirtualFacts(r: seq<DirectorateBucket>, i: nat, e: PartnerEntry)
    requires i < |r|
    ensures var t := AddToVirtual(r, i, e); var vid := VirtualId(r[i].id);
      |t| == |r| && Keys(t) == Keys(r)
      && TotalPlaced(t) == TotalPlaced(r) + 1
      && CountDirectoratePartners(t[i]) == CountDirectoratePartners(r[i]) + 1
      && (forall k :: 0 <= k < |r| && k != i ==> t[k] == r[k])
      && FindBucket(t[i].divisions, vid).Some?
      && e in t[i].divisions[FindBucket(t[i].divisions, vid).value].partners
      && (FindBucket(r[i].divisions, vid).Some? ==> |t[i].divisions| == |r[i].divisions|)
      && (FindBucket(r[i].divisions, vid).None? ==>
            t[i].divisions == r[i].divisions + [Bucket(vid, VirtualName, [e])])
  {
    var vid := VirtualId(r[i].id);
    match FindBucket(r[i].divisions, vid)
    case Some(j) =>
      AddToFacts(r, i, j, e);
      var t := AddTo(r, i, j, e);
      assert t[i].divisions[j].id == vid;
      assert FindBucket(t[i].divisions, vid) == Some(j);
    case None =>
      AddToNewBucket(r, i, e);
  }

  /** The case of AddToVirtualFacts where the directorate's own bucket is made. */
  lemma AddToNewBucket(r: seq<DirectorateBucket>, i: nat, e: PartnerEntry)
    requires i < |r| && FindBucket(r[i].divisions, VirtualId(r[i].id)).None?
    ensures var t := AddToVirtual(r, i, e); var vid := VirtualId(r[i].id);
      |t| == |r| && Keys(t) == Keys(r)
      && TotalPlaced(t) == TotalPlaced(r) + 1
      && CountDirectoratePartners(t[i]) == CountDirectoratePartners(r[i]) + 1
      && (forall k :: 0 <= k < |r| && k != i ==> t[k] == r[k])
      && t[i].divisions == r[i].divisions + [Bucket(vid, VirtualName, [e])]
      && FindBucket(t[i].divisions, vid) == Some(|r[i].divisions|)
  {
    var vid := VirtualId(r[i].id);
    var t := AddToVirtual(r, i, e);
    var d := r[i].divisions + [Bucket(vid, VirtualName, [e])];
    assert t == r[i := r[i].(divisions := d)];
    SumByAppend(r[i].divisions, [Bucket(vid, VirtualName, [e])], BucketSize);
    assert SumBy([Bucket(vid, VirtualName, [e])], BucketSize) == 1;
    SumByUpdate(r, i, t[i], CountDirectoratePartners);
    assert d[|r[i].divisions|].id == vid;
    assert forall k :: 0 <= k < |r[i].divisions| ==> d[k] == r[i].divisions[k];
  }

  /** No contact, or a contact not in the directory (or with no unit): the
      partner is placed nowhere. */
  lemma PlaceNowhere(r: seq<DirectorateBucket>, p: Partner, directory: seq<StaffMember>)
    requires p.mainContactPerson == "" || FindStaff(directory, p.mainContactPerson).None?
             || (FindStaff(directory, p.mainContactPerson).value.division == ""
                 && FindStaff(directory, p.mainContactPerson).value.directorate == "")
    ensures Place(r, p, directory) == r
  {
  }

  /** A contact with a division: the partner goes into the first division with
      that id, directorate by directorate in result order; with no such
      division it is dropped. */
  lemma PlaceByDivision(r: seq<DirectorateBucket>, p: Partner, directory: seq<StaffMember>)
    requires p.mainContactPerson != "" && FindStaff(directory, p.mainContactPerson).Some?
    requires FindStaff(directory, p.mainContactPerson).value.division != ""
    ensures var s := FindStaff(directory, p.mainContactPerson).value; var t := Place(r, p, directory);
      match FindDivision(r, s.division, 0)
      case None => t == r && forall k :: 0 <= k < |r| ==> FindBucket(r[k].divisions, s.division).None?
      case Some((i, j)) =>
        r[i].divisions[j].id == s.division
        && (forall k :: 0 <= k < i ==> FindBucket(r[k].divisions, s.division).None?)
        && t[i].divisions[j].partners == r[i].divisions[j].partners + [EntryOf(p, s)]
        && TotalPlaced(t) == TotalPlaced(r) + 1
  {
    var s := FindStaff(directory, p.mainContactPerson).value;
    match FindDivision(r, s.division, 0)
    case None =>
    case Some((i, j)) => AddToFacts(r, i, j, EntryOf(p, s));
  }

  /** A contact directly in a directorate: the partner goes into that
      directorate's own bucket when the directorate is a key, else nowhere. */
  lemma PlaceByDirectorate(r: seq<DirectorateBucket>, p: Partner, directory: seq<StaffMember>)
    requires p.mainContactPerson != "" && FindStaff(directory, p.mainContactPerson).Some?
    requires FindStaff(directory, p.mainContactPerson).value.division == ""
    requires FindStaff(directory, p.mainContactPerson).value.directorate != ""
    ensures var s := FindStaff(directory, p.mainContactPerson).value; var t := Place(r, p, directory);
      match KeyIndex(r, s.directorate)
      case None => t == r
      case Some(i) =>
        var vid := VirtualId(s.directorate);
        FindBucket(t[i].divisions, vid).Some?
        && EntryOf(p, s) in t[i].divisions[FindBucket(t[i].divisions, vid).value].partners
        && |t[i].divisions| <= |r[i].divisions| + 1
        && TotalPlaced(t) == TotalPlaced(r) + 1
  {
    var s := FindStaff(directory, p.mainContactPerson).value;
    match KeyIndex(r, s.directorate)
    case None =>
    case Some(i) => AddToVirtualFacts(r, i, EntryOf(p, s));
  }

  /** Every placement keeps the keys and places the partner at most once. */
  lemma PlaceKeepsKeys(r: seq<DirectorateBucket>, p: Partner, directory: seq<StaffMember>)
    ensures var t := Place(r, p, directory);
      Keys(t) == Keys(r) && TotalPlaced(r) <= TotalPlaced(t) <= TotalPlaced(r) + 1
  {
    if p.mainContactPerson != "" && FindStaff(directory, p.mainContactPerson).Some? {
      var s := FindStaff(directory, p.mainContactPerson).value;
      if s.division != "" {
        PlaceByDivision(r, p, directory);
        match FindDivision(r, s.division, 0)
        case None =>
        case Some((i, j)) => AddToFacts(r, i, j, EntryOf(p, s));
      } else if s.directorate != "" {
        match KeyIndex(r, s.directorate)
        case None =>
        case Some(i) => AddToVirtualFacts(r, i, EntryOf(p, s));
      }
    }
  }

  // ===========================================================================
  // Properties of the whole result

  /** The directorate holds at most one bucket named after it as its own. */
  predicate OneVirtual(d: DirectorateBucket)
  {
    forall a, b :: 0 <= a < b < |d.divisions| ==>
      !(d.divisions[a].id == VirtualId(d.id) && d.divisions[b].id == VirtualId(d.id))
  }

  predicate OneVirtualEach(r: seq<DirectorateBucket>)
  {
    forall i :: 0 <= i < |r| ==> OneVirtual(r[i])
  }

  lemma AddToOneVirtual(r: seq<DirectorateBucket>, i: nat, j: nat, e: PartnerEntry)
    requires i < |r| && j < |r[i].divisions| && OneVirtualEach(r)
    ensures OneVirtualEach(AddTo(r, i, j, e))
  {
    AddToFacts(r, i, j, e);
    var t := AddTo(r, i, j, e);
    assert OneVirtual(t[i]) by {
      assert t[i].id == r[i].id;
    }
  }

  lemma AddToVirtualOneVirtual(r: seq<DirectorateBucket>, i: nat, e: PartnerEntry)
    requires i < |r| && OneVirtualEach(r)
    ensures OneVirtualEach(AddToVirtual(r, i, e))
  {
    var vid := VirtualId(r[i].id);
    match FindBucket(r[i].divisions, vid)
    case Some(j) => AddToOneVirtual(r, i, j, e);
    case None =>
      var t := AddToVirtual(r, i, e);
      assert OneVirtual(t[i]) by {
        assert t[i].id == r[i].id;
        assert t[i].divisions == r[i].divisions + [Bucket(vid, VirtualName, [e])];
      }
  }

  lemma PlaceOneVirtual(r: seq<DirectorateBucket>, p: Partner, directory: seq<StaffMember>)
    requires OneVirtualEach(r)
    ensures OneVirtualEach(Place(r, p, directory))
  {
    if p.mainContactPerson != "" && FindStaff(directory, p.mainContactPerson).Some? {
      var s := FindStaff(directory, p.mainContactPerson).value;
      if s.division != "" {
        match FindDivision(r, s.division, 0)
        case None =>
        case Some((i, j)) => AddToOneVirtual(r, i, j, EntryOf(p, s));
      } else if s.directorate != "" {
        match KeyIndex(r, s.directorate)
        case None =>
        case Some(i) => AddToVirtualOneVirtual(r, i, EntryOf(p, s));
      }
    }
  }

  /** The partner pass keeps the keys, never makes a second own bucket for a
      directorate, and places each partner at most once. */
  lemma {:induction false} PlaceAllFacts(r: seq<DirectorateBucket>, ps: seq<Partner>, directory: seq<StaffMember>)
    requires OneVirtualEach(r)
    ensures var t := PlaceAll(r, ps, directory);
      Keys(t) == Keys(r) && OneVirtualEach(t) && TotalPlaced(r) <= TotalPlaced(t) <= TotalPlaced(r) + |ps|
  {
    if ps != [] {
      var before := PlaceAll(r, ps[..|ps| - 1], directory);
      PlaceAllFacts(r, ps[..|ps| - 1], directory);
      PlaceKeepsKeys(before, ps[|ps| - 1], directory);
      PlaceOneVirtual(before, ps[|ps| - 1], directory);
    }
  }

  /** Every bucket of every directorate is empty. */
  predicate AllEmpty(r: seq<DirectorateBucket>)
  {
    forall i, j :: 0 <= i < |r| && 0 <= j < |r[i].divisions| ==> r[i].divisions[j].partners == []
  }

  lemma {:induction false} ZeroBuckets(bs: seq<Bucket>)
    requires forall j :: 0 <= j < |bs| ==> bs[j].partners == []
    ensures SumBy(bs, BucketSize) == 0
  {
    if bs != [] {
      ZeroBuckets(bs[..|bs| - 1]);
    }
  }

  /** Empty buckets hold no partner in total. */
  lemma {:induction false} AllEmptyTotal(r: seq<DirectorateBucket>)
    requires AllEmpty(r)
    ensures TotalPlaced(r) == 0
  {
    if r != [] {
      AllEmptyTotal(r[..|r| - 1]);
      ZeroBuckets(r[|r| - 1].divisions);
    }
  }

  /** The first pass leaves every bucket empty. */
  lemma {:induction false} InitializedEmpty(ds: seq<Directorate>)
    ensures AllEmpty(Initialized(ds))
  {
    if ds != [] {
      InitializedEmpty(ds[..|ds| - 1]);
    }
  }

  /** With distinct directorate ids, none of them "DG", the keys are the
      directorates in chart order followed by the DG office. */
  lemma {:induction false} InitializedKeys(ds: seq<Directorate>)
    requires forall a, b :: 0 <= a < b < |ds| ==> ds[a].id != ds[b].id
    ensures Initialized(ds) == Map(ds, EmptyBuckets)
  {
    if ds != [] {
      var init := ds[..|ds| - 1];
      InitializedKeys(init);
      var m := Map(init, EmptyBuckets);
      var d := EmptyBuckets(ds[|ds| - 1]);
      assert forall k :: 0 <= k < |m| ==> m[k].id == ds[k].id;
      AssignNew(m, d);
      assert Map(ds, EmptyBuckets) == m + [d];
    }
  }

  /** A key no entry has yet is added last. */
  lemma AssignNew(r: seq<DirectorateBucket>, d: DirectorateBucket)
    requires forall k :: 0 <= k < |r| ==> r[k].id != d.id
    ensures Assign(r, d) == r + [d]
  {
    assert KeyIndex(r, d.id).None?;
  }

  lemma InitialResultKeys(org: Organization)
    requires forall a, b :: 0 <= a < b < |org.directorates| ==> org.directorates[a].id != org.directorates[b].id
    requires forall a :: 0 <= a < |org.directorates| ==> org.directorates[a].id != "DG"
    ensures InitialResult(org) == Map(org.directorates, EmptyBuckets) + [DGBucket]
    ensures TotalPlaced(InitialResult(org)) == 0
  {
    InitializedKeys(org.directorates);
    InitializedEmpty(org.directorates);
    var init := Initialized(org.directorates);
    assert forall k :: 0 <= k < |init| ==> init[k].id == org.directorates[k].id;
    assert KeyIndex(init, "DG").None?;
    AllEmptyTotal(init + [DGBucket]);
  }

  /** The chart as shipped: four directorates with distinct ids, then the DG
      office, all buckets empty. */
  lemma UnidoInitial()
    ensures InitialResult(Unido) == Map(Unido.directorates, EmptyBuckets) + [DGBucket]
    ensures |InitialResult(Unido)| == 5 && InitialResult(Unido)[4] == DGBucket
    ensures TotalPlaced(InitialResult(Unido)) == 0
  {
    var ds := Unido.directorates;
    assert |ds| == 4;
    assert ds[0].id == "GLO" && ds[1].id == "TCS" && ds[2].id == "IET" && ds[3].id == "SPP";
    InitialResultKeys(Unido);
  }

  /** The DG office is the last key of the initial result. */
  lemma DGIsLastKey(org: Organization)
    requires forall a, b :: 0 <= a < b < |org.directorates| ==> org.directorates[a].id != org.directorates[b].id
    requires forall a :: 0 <= a < |org.directorates| ==> org.directorates[a].id != "DG"
    ensures var r := InitialResult(org); |r| > 0 && r[|r| - 1] == DGBucket && KeyIndex(r, "DG") == Some(|r| - 1)
  {
    InitialResultKeys(org);
    var m := Map(org.directorates, EmptyBuckets);
    assert forall k :: 0 <= k < |m| ==> m[k].id == org.directorates[k].id;
    KeyIndexLast(m, DGBucket);
  }

  /** A key that no earlier entry has is found at the end. */
  lemma KeyIndexLast(r: seq<DirectorateBucket>, d: DirectorateBucket)
    requires forall k :: 0 <= k < |r| ==> r[k].id != d.id
    ensures KeyIndex(r + [d], d.id) == Some(|r|)
  {
    var t := r + [d];
    assert t[|r|].id == d.id;
    assert forall k :: 0 <= k < |r| ==> t[k] == r[k];
  }

  /** A partner whose contact sits in the Director General's office (no
      division) goes into a new "DG_DIR" bucket of the DG office. */
  lemma DirectorGeneralContact(org: Organization, p: Partner, directory: seq<StaffMember>, s: StaffMember)
    requires forall a, b :: 0 <= a < b < |org.directorates| ==> org.directorates[a].id != org.directorates[b].id
    requires forall a :: 0 <= a < |org.directorates| ==> org.directorates[a].id != "DG"
    requires p.mainContactPerson != "" && FindStaff(directory, p.mainContactPerson) == Some(s)
    requires s.division == "" && s.directorate == "DG"
    ensures var r := InitialResult(org);
      Place(r, p, directory) == r[|r| - 1 := DGBucket.(divisions := [Bucket("DG_DIR", VirtualName, [EntryOf(p, s)])])]
  {
    DGIsLastKey(org);
    PlaceIntoDG(InitialResult(org), p, directory, s);
  }

  lemma PlaceIntoDG(r: seq<DirectorateBucket>, p: Partner, directory: seq<StaffMember>, s: StaffMember)
    requires |r| > 0 && r[|r| - 1] == DGBucket && KeyIndex(r, "DG") == Some(|r| - 1)
    requires p.mainContactPerson != "" && FindStaff(directory, p.mainContactPerson) == Some(s)
    requires s.division == "" && s.directorate == "DG"
    ensures Place(r, p, directory) == r[|r| - 1 := DGBucket.(divisions := [Bucket("DG_DIR", VirtualName, [EntryOf(p, s)])])]
  {
    assert VirtualId(r[|r| - 1].id) == "DG_DIR";
    PlaceIntoBare(r, |r| - 1, p, directory, s);
  }

  /** Into a directorate with no buckets yet: its own bucket is its only one. */
  lemma PlaceIntoBare(r: seq<DirectorateBucket>, i: nat, p: Partner, directory: seq<StaffMember>, s: StaffMember)
    requires i < |r| && r[i].divisions == []
    requires p.mainContactPerson != "" && FindStaff(directory, p.mainContactPerson) == Some(s)
    requires s.division == "" && s.directorate != "" && KeyIndex(r, s.directorate) == Some(i)
    ensures Place(r, p, directory) == r[i := r[i].(divisions := [Bucket(VirtualId(r[i].id), VirtualName, [EntryOf(p, s)])])]
  {
    var e := EntryOf(p, s);
    assert Place(r, p, directory) == AddToVirtual(r, i, e);
    assert FindBucket(r[i].divisions, VirtualId(r[i].id)).None?;
    assert r[i].divisions + [Bucket(VirtualId(r[i].id), VirtualName, [e])] == [Bucket(VirtualId(r[i].id), VirtualName, [e])];
  }

  /** A partner whose contact sits directly in a directorate the chart does
      not list is placed nowhere. */
  lemma UnlistedDirectorateDropped(org: Organization, p: Partner, directory: seq<StaffMember>, s: StaffMember)
    requires forall a, b :: 0 <= a < b < |org.directorates| ==> org.directorates[a].id != org.directorates[b].id
    requires forall a :: 0 <= a < |org.directorates| ==> org.directorates[a].id != "DG"
    requires p.mainContactPerson != "" && FindStaff(directory, p.mainContactPerson) == Some(s)
    requires s.division == "" && s.directorate != "DG"
    requires forall a :: 0 <= a < |org.directorates| ==> org.directorates[a].id != s.directorate
    ensures Place(InitialResult(org), p, directory) == InitialResult(org)
  {
    InitialResultKeys(org);
    var r := InitialResult(org);
    assert forall k :: 0 <= k < |r| - 1 ==> r[k].id == org.directorates[k].id;
    assert KeyIndex(r, s.directorate).None?;
  }

  // ===========================================================================
  // The expand toggles

  /** `!prev[id]`: an absent key reads as collapsed. */
  function Expanded(m: map<string, bool>, id: string): bool
  {
    id in m && m[id]
  }

  function Toggled(m: map<string, bool>, id: string): (t: map<string, bool>)
    ensures Expanded(t, id) == !Expanded(m, id)
    ensures forall k :: k != id ==> Expanded(t, k) == Expanded(m, k) && (k in t <==> k in m)
  {
    m[id := !Expanded(m, id)]
  }

  /** Toggling twice restores what every key reads as. */
  lemma ToggleTwice(m: map<string, bool>, id: string, k: string)
    ensures Expanded(Toggled(Toggled(m, id), id), k) == Expanded(m, k)
  {
  }

  class HierarchyView {
    var expandedDirectorates: map<string, bool>
    var expandedDivisions: map<string, bool>

    constructor()
      ensures expandedDirectorates == map[] && expandedDivisions == map[]
    {
      expandedDirectorates := map[];
      expandedDivisions := map[];
    }

    method ToggleDirectorate(id: string)
      modifies this
      ensures expandedDirectorates == Toggled(old(expandedDirectorates), id)
      ensures expandedDivisions == old(expandedDivisions)
    {
      expandedDirectorates := expandedDirectorates[id := !Expanded(expandedDirectorates, id)];
    }

    method ToggleDivision(id: string)
      modifies this
      ensures expandedDivisions == Toggled(old(expandedDivisions), id)
      ensures expandedDirectorates == old(expandedDirectorates)
    {
      expandedDivisions := expandedDivisions[id := !Expanded(expandedDivisions, id)];
    }
  }
}
