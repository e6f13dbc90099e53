/** The dashboard's headline figures: partners per status, per type, region
    and sector, the five most cited SDGs, and the five newest logged
    engagements across all partners. */
module Dashboard {
  import opened Common
  import opened Collections
  import opened Records
  import opened DashboardUtils

  /** An engagement carried to the dashboard with its partner's name. */
  datatype Activity = Activity(engagement: Engagement, partnerName: string)

  datatype Metrics = Metrics(
    active: nat, planning: nat, onHold: nat, inactive: nat, total: nat,
    byType: seq<Entry<string>>, byRegion: seq<Entry<string>>, bySector: seq<Entry<string>>,
    bySDG: seq<Entry<string>>, recentActivities: seq<Activity>)

  function HasStatus(s: string): Partner -> bool
  {
    (p: Partner) => p.status == s
  }

  /** `partners.filter(p => p.status === s).length` */
  function StatusCount(ps: seq<Partner>, s: string): nat
  {
    |Filter(ps, HasStatus(s))|
  }

  function TypeOf(p: Partner): string
  {
    p.partnerType
  }

  /** `acc[partner.region]`: a missing region is the key "undefined". */
  function RegionKey(p: Partner): (r: string)
    ensures p.region.Some? ==> r == p.region.value
    ensures p.region.None? ==> r == "undefined"
  {
    if p.region.Some? then p.region.value else "undefined"
  }

  /** The `SDG n` label of every SDG entry of every partner, in visiting order. */
  function SdgLabels(ps: seq<Partner>): seq<string>
  {
    Map(SdgList(ps), SdgName)
  }

  function EntryCount(e: Entry<string>): int
  {
    e.count
  }

  function ActivitiesOf(p: Partner): seq<Activity>
  {
    Map(OrEmpty(p.engagements), (e: Engagement) => Activity(e, p.name))
  }

  /** `time(date)` stands for `new Date(date)` in milliseconds. */
  function ActivityTime(time: string -> int): Activity -> int
  {
    (a: Activity) => time(a.engagement.date)
  }

  function DashboardMetrics(ps: seq<Partner>, time: string -> int): Metrics
  {
    Metrics(
      StatusCount(ps, "Active"), StatusCount(ps, "Planning"), StatusCount(ps, "On Hold"),
      StatusCount(ps, "Inactive"), |ps|,
      ObjectEntries(Tally(Map(ps, TypeOf))), ObjectEntries(Tally(Map(ps, RegionKey))),
      ObjectEntries(Tally(Map(ps, SectorOf))),
      Take(SortDesc(Tally(SdgLabels(ps)), EntryCount), 5),
      Take(SortDesc(FlatMap(ps, ActivitiesOf), ActivityTime(time)), 5))
  }

  // ===========================================================================
  // Status counts

  function EitherStatus(a: string, b: string): Partner -> bool
  {
    (p: Partner) => p.status == a || p.status == b
  }

  /** Two different statuses count no partner twice. */
  lemma {:induction false} StatusDisjoint(ps: seq<Partner>, a: string, b: string)
    requires a != b
    ensures StatusCount(ps, a) + StatusCount(ps, b) == CountWhere(ps, EitherStatus(a, b))
  {
    FilterLength(ps, HasStatus(a));
    FilterLength(ps, HasStatus(b));
    if ps != [] {
      StatusDisjoint(ps[..|ps| - 1], a, b);
      FilterLength(ps[..|ps| - 1], HasStatus(a));
      FilterLength(ps[..|ps| - 1], HasStatus(b));
    }
  }

  lemma {:induction false} DisjointBound(ps: seq<Partner>, f: Partner -> bool, g: Partner -> bool)
    requires forall p :: !(f(p) && g(p))
    ensures CountWhere(ps, f) + CountWhere(ps, g) <= |ps|
  {
    if ps != [] {
      DisjointBound(ps[..|ps| - 1], f, g);
    }
  }

  /** Each status figure counts the partners with exactly that status; as the
      four statuses differ, together they count no partner twice. */
  lemma StatusCountsFacts(ps: seq<Partner>)
    ensures StatusCount(ps, "Active") == CountWhere(ps, HasStatus("Active"))
    ensures StatusCount(ps, "Planning") == CountWhere(ps, HasStatus("Planning"))
    ensures StatusCount(ps, "On Hold") == CountWhere(ps, HasStatus("On Hold"))
    ensures StatusCount(ps, "Inactive") == CountWhere(ps, HasStatus("Inactive"))
    ensures StatusCount(ps, "Active") + StatusCount(ps, "Planning") + StatusCount(ps, "On Hold")
            + StatusCount(ps, "Inactive") <= |ps|
  {
    StatusDisjoint(ps, "Active", "Planning");
    StatusDisjoint(ps, "On Hold", "Inactive");
    DisjointBound(ps, EitherStatus("Active", "Planning"), EitherStatus("On Hold", "Inactive"));
    FilterLength(ps, HasStatus("Active"));
    FilterLength(ps, HasStatus("Planning"));
    FilterLength(ps, HasStatus("On Hold"));
    FilterLength(ps, HasStatus("Inactive"));
  }

  // ===========================================================================
  // Distributions

  /** A count object built over `keys`: one entry per distinct key, counting
      its occurrences, the counts adding up to the number of keys. */
  ghost predicate IsTallyOf(t: seq<Entry<string>>, keys: seq<string>)
  {
    DistinctKeys(t) && (forall k :: k in Keys(t) <==> k in keys)
    && (forall k :: Lookup(t, k) == Count(keys, k)) && TotalCount(t) == |keys|
  }

  /** The entries `Object.entries` lists for a count object are a tally. */
  lemma EntriesAreTally(keys: seq<string>)
    ensures IsTallyOf(ObjectEntries(Tally(keys)), keys)
  {
    ObjectEntriesOfTally(keys);
  }

  /** The type, region and sector counts are tallies of the partners' values,
      each adding up to the number of partners. */
  lemma DistributionsFacts(ps: seq<Partner>)
    ensures var m := DashboardMetrics(ps, _ => 0);
      IsTallyOf(m.byType, Map(ps, TypeOf)) && TotalCount(m.byType) == |ps|
      && IsTallyOf(m.byRegion, Map(ps, RegionKey)) && TotalCount(m.byRegion) == |ps|
      && IsTallyOf(m.bySector, Map(ps, SectorOf)) && TotalCount(m.bySector) == |ps|
  {
    EntriesAreTally(Map(ps, TypeOf));
    EntriesAreTally(Map(ps, RegionKey));
    EntriesAreTally(Map(ps, SectorOf));
  }

  // ===========================================================================
  // The SDG counter

  lemma {:induction false} CountLabels(list: seq<int>, n: int)
    ensures Count(Map(list, SdgName), SdgName(n)) == Count(list, n)
  {
    if list != [] {
      var init := list[..|list| - 1];
      CountLabels(init, n);
      assert Map(list, SdgName)[..|list| - 1] == Map(init, SdgName);
      SdgNameInjective(list[|list| - 1], n);
    }
  }

  function SdgCountOf(n: int): Partner -> int
  {
    (p: Partner) => Count(OrEmpty(p.sdgAlignment), n)
  }

  lemma {:induction false} CountSdgList(ps: seq<Partner>, n: int)
    ensures Count(SdgList(ps), n) == SumBy(ps, SdgCountOf(n))
  {
    if ps != [] {
      CountSdgList(ps[..|ps| - 1], n);
      CountAppend(SdgList(ps[..|ps| - 1]), SdgsOf(ps[|ps| - 1]), n);
    }
  }

  /** The label `SDG n` counts one for every entry n of every partner's
      alignment. */
  lemma SdgCounterFacts(ps: seq<Partner>, n: int)
    ensures Lookup(Tally(SdgLabels(ps)), SdgName(n)) == SumBy(ps, SdgCountOf(n))
    ensures TotalCount(Tally(SdgLabels(ps))) == |SdgList(ps)|
  {
    TallyFacts(SdgLabels(ps));
    CountLabels(SdgList(ps), n);
    CountSdgList(ps, n);
  }

  /** The top five SDGs: at most five counted labels, by non-increasing
      count; a label left out is cited no more often than the last one shown. */
  lemma TopSdgsFacts(ps: seq<Partner>, time: string -> int, e: Entry<string>)
    ensures var top := DashboardMetrics(ps, time).bySDG;
      |top| <= 5 && NonIncreasing(top, EntryCount)
      && (forall x :: x in top ==> x in Tally(SdgLabels(ps)))
      && (e in Tally(SdgLabels(ps)) && e !in top ==> |top| == 5 && e.count <= top[4].count)
  {
    var t := Tally(SdgLabels(ps));
    TopSorted(t, EntryCount, 5);
    if e in t && e !in Take(SortDesc(t, EntryCount), 5) {
      TopOfSorted(t, EntryCount, 5, e);
    }
  }

  // ===========================================================================
  // Recent activities

  lemma ActivityMembers(ps: seq<Partner>, a: Activity)
    requires a in FlatMap(ps, ActivitiesOf)
    ensures exists p :: p in ps && a.engagement in OrEmpty(p.engagements) && a.partnerName == p.name
  {
    FlatMapMembers(ps, ActivitiesOf, a);
    var p :| p in ps && a in ActivitiesOf(p);
    var i :| 0 <= i < |ActivitiesOf(p)| && ActivitiesOf(p)[i] == a;
    assert OrEmpty(p.engagements)[i] == a.engagement;
  }

  /** At most five engagements, newest first, each an engagement of the
      partner whose name it carries; any engagement left out is no newer than
      the last one shown. */
  lemma RecentActivitiesFacts(ps: seq<Partner>, time: string -> int, a: Activity)
    ensures var recent := DashboardMetrics(ps, time).recentActivities;
      |recent| <= 5 && NonIncreasing(recent, ActivityTime(time))
      && (forall x :: x in recent ==> exists p :: p in ps && x.engagement in OrEmpty(p.engagements) && x.partnerName == p.name)
      && (a in FlatMap(ps, ActivitiesOf) && a !in recent ==>
            |recent| == 5 && time(a.engagement.date) <= time(recent[4].engagement.date))
  {
    var all := FlatMap(ps, ActivitiesOf);
    var recent := Take(SortDesc(all, ActivityTime(time)), 5);
    TopSorted(all, ActivityTime(time), 5);
    forall x | x in recent
      ensures exists p :: p in ps && x.engagement in OrEmpty(p.engagements) && x.partnerName == p.name
    {
      ActivityMembers(ps, x);
    }
    if a in all && a !in recent {
      TopOfSorted(all, ActivityTime(time), 5, a);
    }
  }
}
