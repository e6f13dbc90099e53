/** The partner table: a free-text search and five multiple selections
    (regions, sectors, types, statuses, SDGs) plus a start-date range narrow
    the partner list, and one page of the result is shown. */
module PartnerList {
  import opened Common
  import opened Collections
  import opened Records

  // ===========================================================================
  // The filter predicate

  /** `field.toLowerCase().includes(term.toLowerCase())`. */
  predicate Mentions(field: string, term: string)
  {
    Includes(Lower(field), Lower(term))
  }

  predicate MatchesSearch(p: Partner, term: string)
  {
    Mentions(p.name, term) || Mentions(p.country, term) || Mentions(p.sector, term)
    || Mentions(p.partnerType, term) || (p.description != "" && Mentions(p.description, term))
  }

  /** An empty selection lets everything through. */
  predicate Selected(selection: seq<string>, value: string)
  {
    |selection| == 0 || value in selection
  }

  /** The region test: a missing region is in no selection. */
  predicate SelectedRegion(selection: seq<string>, region: Option<string>)
  {
    |selection| == 0 || (region.Some? && region.value in selection)
  }

  predicate MatchesSdg(selection: seq<int>, p: Partner)
  {
    |selection| == 0 || exists k :: 0 <= k < |selection| && p.sdgAlignment.Some? && selection[k] in p.sdgAlignment.value
  }

  /** The two bounds of the date range; "" is no bound. */
  datatype DateRange = DateRange(start: string, end: string)

  /** Everything the filter reads besides the partner. The two date tests
      stand for `new Date(a) >= new Date(b)` and `new Date(a) <= new Date(b)`. */
  datatype Criteria = Criteria(
    term: string,
    regions: seq<string>, sectors: seq<string>, types: seq<string>, statuses: seq<string>,
    sdgs: seq<int>, dates: DateRange,
    notBefore: (string, string) -> bool, notAfter: (string, string) -> bool)

  predicate MatchesDates(c: Criteria, p: Partner)
  {
    (c.dates.start == "" || c.notBefore(p.startDate, c.dates.start))
    && (c.dates.end == "" || c.notAfter(p.startDate, c.dates.end))
  }

  predicate Matches(c: Criteria, p: Partner)
  {
    MatchesSearch(p, c.term) && SelectedRegion(c.regions, p.region) && Selected(c.sectors, p.sector)
    && Selected(c.types, p.partnerType) && Selected(c.statuses, p.status)
    && MatchesSdg(c.sdgs, p) && MatchesDates(c, p)
  }

  function Filtered(ps: seq<Partner>, c: Criteria): seq<Partner>
  {
    Filter(ps, p => Matches(c, p))
  }

  /** `filteredPartners.slice(page * n, page * n + n)`, with slice's clamping
      to the list's end. */
  function Page(list: seq<Partner>, page: nat, n: nat): (r: seq<Partner>)
    ensures |r| <= n
    ensures page * n + |r| <= |list| || r == []
    ensures forall i :: 0 <= i < |r| ==> r[i] == list[page * n + i]
    ensures page * n + n <= |list| ==> |r| == n
    ensures page * n < |list| ==> |r| == (if page * n + n <= |list| then n else |list| - page * n)
  {
    var from := if page * n <= |list| then page * n else |list|;
    var to := if page * n + n <= |list| then page * n + n else |list|;
    list[from..to]
  }

  // ===========================================================================
  // Properties of the filter

  /** Case does not matter: the search term folded to lower case finds the same. */
  lemma LowerIdempotent(s: string)
    ensures Lower(Lower(s)) == Lower(s)
  {
  }

  lemma SearchIgnoresCase(p: Partner, term: string)
    ensures MatchesSearch(p, Lower(term)) == MatchesSearch(p, term)
  {
    LowerIdempotent(term);
  }

  /** An empty search term matches every partner. */
  lemma EmptySearchMatches(p: Partner)
    ensures MatchesSearch(p, "")
  {
    IncludesEmpty(Lower(p.name));
  }

  /** A selection test on an empty selection, or an SDG filter with nothing
      picked, passes every partner; a non-empty selection passes exactly its
      members. */
  lemma SelectionFacts(selection: seq<string>, sdgs: seq<int>, p: Partner, value: string)
    ensures selection == [] ==> Selected(selection, value) && SelectedRegion(selection, p.region)
    ensures selection != [] ==> (Selected(selection, value) <==> value in selection)
    ensures selection != [] ==> (SelectedRegion(selection, p.region) <==> exists v :: p.region == Some(v) && v in selection)
    ensures sdgs == [] ==> MatchesSdg(sdgs, p)
    ensures sdgs != [] ==> (MatchesSdg(sdgs, p) <==>
      p.sdgAlignment.Some? && exists g :: g in sdgs && g in p.sdgAlignment.value)
  {
    if sdgs != [] && p.sdgAlignment.Some? && exists g :: g in sdgs && g in p.sdgAlignment.value {
      var g :| g in sdgs && g in p.sdgAlignment.value;
      var k :| 0 <= k < |sdgs| && sdgs[k] == g;
    }
  }

  /** The filtered list keeps the partners' order and holds exactly the
      matching ones. */
  lemma FilteredFacts(ps: seq<Partner>, c: Criteria)
    ensures IsSubsequence(Filtered(ps, c), ps)
    ensures forall p :: p in Filtered(ps, c) <==> p in ps && Matches(c, p)
  {
    FilterIsSubsequence(ps, p => Matches(c, p));
  }

  function Cleared(term: string, notBefore: (string, string) -> bool, notAfter: (string, string) -> bool): Criteria
  {
    Criteria(term, [], [], [], [], [], DateRange("", ""), notBefore, notAfter)
  }

  /** With the filters cleared and no search term, every partner is listed. */
  lemma ClearedListsAll(ps: seq<Partner>, notBefore: (string, string) -> bool, notAfter: (string, string) -> bool)
    ensures Filtered(ps, Cleared("", notBefore, notAfter)) == ps
  {
    var c := Cleared("", notBefore, notAfter);
    forall p | p in ps ensures Matches(c, p) {
      EmptySearchMatches(p);
    }
    FilterAll(ps, p => Matches(c, p));
  }

  /** Every row of the filtered list is on exactly one page: row k is row
      k % n of page k / n. */
  lemma PagesCover(list: seq<Partner>, n: nat, k: nat)
    requires n > 0 && k < |list|
    ensures k / n * n < |list|
    ensures k % n < |Page(list, k / n, n)| && Page(list, k / n, n)[k % n] == list[k]
  {
    assert k / n * n + k % n == k;
  }

  // ===========================================================================
  // The view's state

  /** A multiple selection's new value: typed text is split at commas. */
  datatype SelectValue = Typed(text: string) | Picked(items: seq<string>)

  function SelectionOf(v: SelectValue): (r: seq<string>)
    ensures v.Picked? ==> r == v.items
    ensures v.Typed? ==> |r| >= 1 && Join(r, ',') == v.text
  {
    match v
    case Typed(text) => JoinSplit(text, ','); Split(text, ',')
    case Picked(items) => items
  }

  class PartnerListView {
    var page: nat
    var rowsPerPage: nat
    var searchTerm: string
    var filterOpen: bool
    var regions: seq<string>
    var sectors: seq<string>
    var types: seq<string>
    var statuses: seq<string>
    var sdgs: seq<int>
    var dates: DateRange

    constructor()
      ensures page == 0 && rowsPerPage == 10 && searchTerm == "" && !filterOpen
      ensures regions == [] && sectors == [] && types == [] && statuses == [] && sdgs == []
      ensures dates == DateRange("", "")
    {
      page, rowsPerPage, searchTerm, filterOpen := 0, 10, "", false;
      regions, sectors, types, statuses, sdgs := [], [], [], [], [];
      dates := DateRange("", "");
    }

    function CriteriaOf(notBefore: (string, string) -> bool, notAfter: (string, string) -> bool): Criteria
      reads this
    {
      Criteria(searchTerm, regions, sectors, types, statuses, sdgs, dates, notBefore, notAfter)
    }

    /** The rows on screen. */
    function Displayed(ps: seq<Partner>, notBefore: (string, string) -> bool, notAfter: (string, string) -> bool): seq<Partner>
      reads this
    {
      Page(Filtered(ps, CriteriaOf(notBefore, notAfter)), page, rowsPerPage)
    }

    method ChangePage(newPage: nat)
      modifies this
      ensures page == newPage
      ensures rowsPerPage == old(rowsPerPage) && searchTerm == old(searchTerm) && filterOpen == old(filterOpen)
      ensures regions == old(regions) && sectors == old(sectors) && types == old(types)
      ensures statuses == old(statuses) && sdgs == old(sdgs) && dates == old(dates)
    {
      page := newPage;
    }

    method ChangeRowsPerPage(n: nat)
      modifies this
      ensures rowsPerPage == n && page == 0
      ensures searchTerm == old(searchTerm) && filterOpen == old(filterOpen)
      ensures regions == old(regions) && sectors == old(sectors) && types == old(types)
      ensures statuses == old(statuses) && sdgs == old(sdgs) && dates == old(dates)
    {
      rowsPerPage := n;
      page := 0;
    }

    method Search(term: string)
      modifies this
      ensures searchTerm == term && page == 0
      ensures rowsPerPage == old(rowsPerPage) && filterOpen == old(filterOpen)
      ensures regions == old(regions) && sectors == old(sectors) && types == old(types)
      ensures statuses == old(statuses) && sdgs == old(sdgs) && dates == old(dates)
    {
      searchTerm := term;
      page := 0;
    }

    method ToggleFilterPanel()
      modifies this
      ensures filterOpen == !old(filterOpen)
      ensures page == old(page) && rowsPerPage == old(rowsPerPage) && searchTerm == old(searchTerm)
      ensures regions == old(regions) && sectors == old(sectors) && types == old(types)
      ensures statuses == old(statuses) && sdgs == old(sdgs) && dates == old(dates)
    {
      filterOpen := !filterOpen;
    }

    method SelectRegions(v: SelectValue)
      modifies this
      ensures regions == SelectionOf(v)
      ensures page == old(page) && rowsPerPage == old(rowsPerPage) && searchTerm == old(searchTerm)
      ensures filterOpen == old(filterOpen) && sectors == old(sectors) && types == old(types)
      ensures statuses == old(statuses) && sdgs == old(sdgs) && dates == old(dates)
    {
      regions := SelectionOf(v);
    }

    method SelectSectors(v: SelectValue)
      modifies this
      ensures sectors == SelectionOf(v)
      ensures page == old(page) && rowsPerPage == old(rowsPerPage) && searchTerm == old(searchTerm)
      ensures filterOpen == old(filterOpen) && regions == old(regions) && types == old(types)
      ensures statuses == old(statuses) && sdgs == old(sdgs) && dates == old(dates)
    {
      sectors := SelectionOf(v);
    }

    method SelectTypes(v: SelectValue)
      modifies this
      ensures types == SelectionOf(v)
      ensures page == old(page) && rowsPerPage == old(rowsPerPage) && searchTerm == old(searchTerm)
      ensures filterOpen == old(filterOpen) && regions == old(regions) && sectors == old(sectors)
      ensures statuses == old(statuses) && sdgs == old(sdgs) && dates == old(dates)
    {
      types := SelectionOf(v);
    }

    method SelectStatuses(v: SelectValue)
      modifies this
      ensures statuses == SelectionOf(v)
      ensures page == old(page) && rowsPerPage == old(rowsPerPage) && searchTerm == old(searchTerm)
      ensures filterOpen == old(filterOpen) && regions == old(regions) && sectors == old(sectors)
      ensures types == old(types) && sdgs == old(sdgs) && dates == old(dates)
    {
      statuses := SelectionOf(v);
    }

    method SelectSdgs(v: seq<int>)
      modifies this
      ensures sdgs == v
      ensures page == old(page) && rowsPerPage == old(rowsPerPage) && searchTerm == old(searchTerm)
      ensures filterOpen == old(filterOpen) && regions == old(regions) && sectors == old(sectors)
      ensures types == old(types) && statuses == old(statuses) && dates == old(dates)
    {
      sdgs := v;
    }

    method ChangeDates(d: DateRange)
      modifies this
      ensures dates == d
      ensures page == old(page) && rowsPerPage == old(rowsPerPage) && searchTerm == old(searchTerm)
      ensures filterOpen == old(filterOpen) && regions == old(regions) && sectors == old(sectors)
      ensures types == old(types) && statuses == old(statuses) && sdgs == old(sdgs)
    {
      dates := d;
    }

    /** Empties every selection and the date range; the search term, page and
        page size stay. */
    method ClearFilters()
      modifies this
      ensures regions == [] && sectors == [] && types == [] && statuses == [] && sdgs == []
      ensures dates == DateRange("", "")
      ensures page == old(page) && rowsPerPage == old(rowsPerPage) && searchTerm == old(searchTerm)
      ensures filterOpen == old(filterOpen)
    {
      regions, sectors, types, statuses, sdgs := [], [], [], [], [];
      dates := DateRange("", "");
    }
  }
}
