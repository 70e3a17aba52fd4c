/**
 * The read-only views' selections: the home page's urgent and recent
 * cases, the case list and the search page as conjunctions of the supplied
 * filters, and a case page's verified sightings.  Rendering and pagination
 * are presentation and are not modelled.
 */
module Listings {
  import opened Wrappers
  import opened Strings
  import opened Models
  import opened Query
  import opened Forms

  // ---- home (lines 11-17) ------------------------------------------------

  predicate IsMissing(c: MissingChild) {
    c.status == Missing
  }

  predicate IsUrgent(c: MissingChild) {
    c.status == Missing && c.isAbducted
  }

  /** `.filter(p).order_by('-reported_date')[:n]`. */
  function Newest(cases: seq<MissingChild>, p: MissingChild -> bool, n: nat): (r: seq<MissingChild>)
    ensures |r| == if |Filter(cases, p)| <= n then |Filter(cases, p)| else n
    ensures forall c :: c in r ==> c in cases && p(c)
    ensures SortedDesc(r, ReportedKey)
  {
    var sorted := SortDesc(Filter(cases, p), ReportedKey);
    SortDescSameRows(Filter(cases, p), ReportedKey);
    TakeKeepsOrder(sorted, n, ReportedKey);
    Take(sorted, n)
  }

  /** A case the selection leaves out is no newer than any case it shows. */
  lemma NewestLeavesOutOnlyOlder(cases: seq<MissingChild>, p: MissingChild -> bool, n: nat, x: MissingChild, y: MissingChild)
    requires x in cases && p(x) && x !in Newest(cases, p, n) && y in Newest(cases, p, n)
    ensures ReportedKey(y) >= ReportedKey(x)
  {
    var sorted := SortDesc(Filter(cases, p), ReportedKey);
    SortDescSameRows(Filter(cases, p), ReportedKey);
    TakeIsNewest(sorted, n, ReportedKey, x, y);
  }

  datatype HomePage = HomePage(urgent: seq<MissingChild>, recent: seq<MissingChild>)

  function Home(cases: seq<MissingChild>): HomePage {
    HomePage(Newest(cases, IsUrgent, 5), Newest(cases, IsMissing, 10))
  }

  /**
   * The home page shows at most 5 missing abducted cases and at most 10
   * missing cases, fewer only when fewer exist, each newest first.
   */
  lemma HomePageSelection(cases: seq<MissingChild>)
    ensures var page := Home(cases);
      && |page.urgent| <= 5 && |page.recent| <= 10
      && (|Filter(cases, IsUrgent)| >= 5 ==> |page.urgent| == 5)
      && (|Filter(cases, IsMissing)| >= 10 ==> |page.recent| == 10)
      && (forall c :: c in page.urgent ==> c in cases && c.status == Missing && c.isAbducted)
      && (forall c :: c in page.recent ==> c in cases && c.status == Missing)
      && SortedDesc(page.urgent, ReportedKey) && SortedDesc(page.recent, ReportedKey)
  {
    var page := Home(cases);
    assert forall c :: c in page.urgent ==> IsUrgent(c);
    assert forall c :: c in page.recent ==> IsMissing(c);
  }

  // ---- case_list and search_cases (lines 25-55, 181-207) -----------------

  /** `if age_min:` — a bound of 0 is falsy and imposes nothing. */
  predicate Truthy(a: Option<int>) {
    a.Some? && a.value != 0
  }

  function BoundOf(a: Option<int>): int {
    if a.Some? then a.value else 0
  }

  /**
   * The `q` match: a case-insensitive substring of the first name, last
   * name, case number or location, and in the case list also of the
   * distinctive features.
   */
  predicate QueryHit(c: MissingChild, q: string, withFeatures: bool) {
    || IContains(c.firstName, q)
    || IContains(c.lastName, q)
    || IContains(c.caseNumber, q)
    || IContains(c.lastSeenLocation, q)
    || (withFeatures && IContains(c.distinctiveFeatures, q))
  }

  function QueryStage(q: string, withFeatures: bool): MissingChild -> bool {
    (c: MissingChild) => QueryHit(c, q, withFeatures)
  }

  function MinStage(a: Option<int>): MissingChild -> bool {
    (c: MissingChild) => c.age >= BoundOf(a)
  }

  function MaxStage(a: Option<int>): MissingChild -> bool {
    (c: MissingChild) => c.age <= BoundOf(a)
  }

  function GenderStage(g: Option<Gender>): MissingChild -> bool {
    (c: MissingChild) => g == Some(c.gender)
  }

  function StatusStage(s: Option<Status>): MissingChild -> bool {
    (c: MissingChild) => s == Some(c.status)
  }

  function LocationStage(location: string): MissingChild -> bool {
    (c: MissingChild) => IContains(c.lastSeenLocation, location)
  }

  /**
   * The chain of `if x: cases = cases.filter(...)`: `q`, `age_min`,
   * `age_max`, `gender`, then (case list only) `status`, then `location`.
   */
  function Narrowed(s: seq<MissingChild>, f: SearchFilters, caseList: bool): seq<MissingChild> {
    NarrowUpTo(s, f, caseList, 6)
  }

  /** The conjunction of every supplied filter; an absent or falsy one is no condition. */
  predicate Keeps(c: MissingChild, f: SearchFilters, caseList: bool) {
    && (f.q != "" ==> QueryHit(c, f.q, caseList))
    && (Truthy(f.ageMin) ==> c.age >= f.ageMin.value)
    && (Truthy(f.ageMax) ==> c.age <= f.ageMax.value)
    && (f.gender.Some? ==> c.gender == f.gender.value)
    && (caseList && f.status.Some? ==> c.status == f.status.value)
    && (f.location != "" ==> IContains(c.lastSeenLocation, f.location))
  }

  /** Whether filter `k` (1 to 6) of the chain is applied: its field is truthy. */
  predicate StageOn(f: SearchFilters, caseList: bool, k: nat) {
    if k == 1 then f.q != ""
    else if k == 2 then Truthy(f.ageMin)
    else if k == 3 then Truthy(f.ageMax)
    else if k == 4 then f.gender.Some?
    else if k == 5 then caseList && f.status.Some?
    else f.location != ""
  }

  /** Filter `k` of the chain. */
  function Stage(f: SearchFilters, caseList: bool, k: nat): MissingChild -> bool {
    if k == 1 then QueryStage(f.q, caseList)
    else if k == 2 then MinStage(f.ageMin)
    else if k == 3 then MaxStage(f.ageMax)
    else if k == 4 then GenderStage(f.gender)
    else if k == 5 then StatusStage(f.status)
    else LocationStage(f.location)
  }

  /** The first `k` filters of the chain applied one after another. */
  function NarrowUpTo(s: seq<MissingChild>, f: SearchFilters, caseList: bool, k: nat): seq<MissingChild>
    decreases k
  {
    if k == 0 then s else Narrow(NarrowUpTo(s, f, caseList, k - 1), StageOn(f, caseList, k), Stage(f, caseList, k))
  }

  /** A row passes the first `k` filters of the chain. */
  predicate KeepsUpTo(c: MissingChild, f: SearchFilters, caseList: bool, k: nat)
    decreases k
  {
    if k == 0 then true else KeepsUpTo(c, f, caseList, k - 1) && (StageOn(f, caseList, k) ==> Stage(f, caseList, k)(c))
  }

  function UpTo(f: SearchFilters, caseList: bool, k: nat): MissingChild -> bool {
    (c: MissingChild) => KeepsUpTo(c, f, caseList, k)
  }

  /** The first `k` chained filters are one filter by the conjunction of their conditions. */
  lemma {:induction false} NarrowUpToIsFilter(s: seq<MissingChild>, f: SearchFilters, caseList: bool, k: nat)
    ensures NarrowUpTo(s, f, caseList, k) == Filter(s, UpTo(f, caseList, k))
    decreases k
  {
    if k == 0 {
      FilterAllKept(s, UpTo(f, caseList, 0));
    } else {
      NarrowUpToIsFilter(s, f, caseList, k - 1);
      NarrowStep(s, UpTo(f, caseList, k - 1), StageOn(f, caseList, k), Stage(f, caseList, k), UpTo(f, caseList, k));
    }
  }

  /** Passing all six filters is `Keeps`. */
  lemma AllStagesKeep(f: SearchFilters, caseList: bool)
    ensures forall c :: KeepsUpTo(c, f, caseList, 6) == Keeps(c, f, caseList)
  {
  }

  /** The chained filters of a search are one filter by the conjunction of the supplied conditions. */
  lemma NarrowedIsConjunction(s: seq<MissingChild>, f: SearchFilters, caseList: bool)
    ensures Narrowed(s, f, caseList) == Filter(s, (c: MissingChild) => Keeps(c, f, caseList))
  {
    NarrowUpToIsFilter(s, f, caseList, 6);
    AllStagesKeep(f, caseList);
    FilterExt(s, UpTo(f, caseList, 6), (c: MissingChild) => Keeps(c, f, caseList));
  }

  /** `case_list`: missing cases, newest first, narrowed when the form is valid. */
  function CaseList(cases: seq<MissingChild>, input: SearchInput): seq<MissingChild> {
    var base := SortDesc(Filter(cases, IsMissing), ReportedKey);
    match CleanSearch(input)
    case None => base
    case Some(f) => Narrowed(base, f, true)
  }

  /** `search_cases`: every case, newest first, narrowed when the form is valid. */
  function SearchCases(cases: seq<MissingChild>, input: SearchInput): seq<MissingChild> {
    var base := SortDesc(cases, ReportedKey);
    match CleanSearch(input)
    case None => base
    case Some(f) => Narrowed(base, f, false)
  }

  /**
   * The case list holds exactly the missing cases that satisfy every
   * supplied filter, newest first; no filter applies when the form is
   * invalid.
   */
  lemma CaseListSelects(cases: seq<MissingChild>, input: SearchInput)
    ensures SortedDesc(CaseList(cases, input), ReportedKey)
    ensures forall c :: c in CaseList(cases, input) <==>
      c in cases && c.status == Missing && (CleanSearch(input).Some? ==> Keeps(c, CleanSearch(input).value, true))
  {
    var base := SortDesc(Filter(cases, IsMissing), ReportedKey);
    SortDescSameRows(Filter(cases, IsMissing), ReportedKey);
    if CleanSearch(input).Some? {
      var f := CleanSearch(input).value;
      NarrowedIsConjunction(base, f, true);
      FilterKeepsOrder(base, (c: MissingChild) => Keeps(c, f, true), ReportedKey);
    }
  }

  /**
   * The search page holds exactly the cases, of any status, that satisfy
   * every supplied filter, newest first; no filter applies when the form
   * is invalid.
   */
  lemma SearchCasesSelects(cases: seq<MissingChild>, input: SearchInput)
    ensures SortedDesc(SearchCases(cases, input), ReportedKey)
    ensures forall c :: c in SearchCases(cases, input) <==>
      c in cases && (CleanSearch(input).Some? ==> Keeps(c, CleanSearch(input).value, false))
  {
    var base := SortDesc(cases, ReportedKey);
    SortDescSameRows(cases, ReportedKey);
    if CleanSearch(input).Some? {
      var f := CleanSearch(input).value;
      NarrowedIsConjunction(base, f, false);
      FilterKeepsOrder(base, (c: MissingChild) => Keeps(c, f, false), ReportedKey);
    }
  }

  /** Filters that keep the same rows narrow any list alike. */
  lemma SameKeepsSameRows(s: seq<MissingChild>, f: SearchFilters, g: SearchFilters, caseList: bool)
    requires forall c :: Keeps(c, f, caseList) == Keeps(c, g, caseList)
    ensures Narrowed(s, f, caseList) == Narrowed(s, g, caseList)
  {
    NarrowedIsConjunction(s, f, caseList);
    NarrowedIsConjunction(s, g, caseList);
    FilterExt(s, (c: MissingChild) => Keeps(c, f, caseList), (c: MissingChild) => Keeps(c, g, caseList));
  }

  /** A minimum age of 0 is falsy: both views filter exactly as with no minimum. */
  lemma ZeroMinAgeIsNoBound(cases: seq<MissingChild>, input: SearchInput)
    ensures CaseList(cases, input.(ageMin := Some(0))) == CaseList(cases, input.(ageMin := None))
    ensures SearchCases(cases, input.(ageMin := Some(0))) == SearchCases(cases, input.(ageMin := None))
  {
    var zero, absent := input.(ageMin := Some(0)), input.(ageMin := None);
    var a, b := CleanSearch(zero), CleanSearch(absent);
    assert a.Some? <==> b.Some?;
    if a.Some? {
      assert a.value == b.value.(ageMin := Some(0));
      var listed, all := SortDesc(Filter(cases, IsMissing), ReportedKey), SortDesc(cases, ReportedKey);
      assert CaseList(cases, zero) == Narrowed(listed, a.value, true);
      assert CaseList(cases, absent) == Narrowed(listed, b.value, true);
      SameKeepsSameRows(listed, a.value, b.value, true);
      assert SearchCases(cases, zero) == Narrowed(all, a.value, false);
      assert SearchCases(cases, absent) == Narrowed(all, b.value, false);
      SameKeepsSameRows(all, a.value, b.value, false);
    }
  }

  /** A maximum age of 0 is falsy: both views filter exactly as with no maximum. */
  lemma ZeroMaxAgeIsNoBound(cases: seq<MissingChild>, input: SearchInput)
    ensures CaseList(cases, input.(ageMax := Some(0))) == CaseList(cases, input.(ageMax := None))
    ensures SearchCases(cases, input.(ageMax := Some(0))) == SearchCases(cases, input.(ageMax := None))
  {
    var zero, absent := input.(ageMax := Some(0)), input.(ageMax := None);
    var a, b := CleanSearch(zero), CleanSearch(absent);
    assert a.Some? <==> b.Some?;
    if a.Some? {
      assert a.value == b.value.(ageMax := Some(0));
      var listed, all := SortDesc(Filter(cases, IsMissing), ReportedKey), SortDesc(cases, ReportedKey);
      assert CaseList(cases, zero) == Narrowed(listed, a.value, true);
      assert CaseList(cases, absent) == Narrowed(listed, b.value, true);
      SameKeepsSameRows(listed, a.value, b.value, true);
      assert SearchCases(cases, zero) == Narrowed(all, a.value, false);
      assert SearchCases(cases, absent) == Narrowed(all, b.value, false);
      SameKeepsSameRows(all, a.value, b.value, false);
    }
  }

  /** Filtering the case list by status `found` leaves nothing: it starts from missing cases only. */
  lemma FoundFilterListsNothing(cases: seq<MissingChild>, input: SearchInput)
    requires CleanSearch(input).Some? && input.status == "found"
    ensures CaseList(cases, input) == []
  {
    CaseListSelects(cases, input);
    NoElement(CaseList(cases, input));
  }

  /**
   * A search text of nothing but whitespace is cleaned to `""`, which is
   * falsy: both views list exactly what they list with no search text.
   */
  lemma BlankQueryIsNoQuery(cases: seq<MissingChild>, input: SearchInput)
    requires AllSpace(input.q)
    ensures CaseList(cases, input) == CaseList(cases, input.(q := ""))
    ensures SearchCases(cases, input) == SearchCases(cases, input.(q := ""))
  {
    StripEmpty(input.q);
    StripEmpty("");
    assert CleanSearch(input) == CleanSearch(input.(q := ""));
  }

  /** The search view has no status filter: a valid status changes nothing. */
  lemma SearchIgnoresStatus(cases: seq<MissingChild>, input: SearchInput)
    requires input.status in {"missing", "found", "located"}
    ensures SearchCases(cases, input) == SearchCases(cases, input.(status := ""))
  {
    var a, b := CleanSearch(input), CleanSearch(input.(status := ""));
    assert a.Some? <==> b.Some?;
    if a.Some? {
      assert a.value == b.value.(status := a.value.status);
      SameKeepsSameRows(SortDesc(cases, ReportedKey), a.value, b.value, false);
    }
  }

  /**
   * A missing case that `q` matches only through its distinctive features
   * is listed by the case list but not found by the search page.
   */
  lemma FeaturesOnlyInCaseList(cases: seq<MissingChild>, c: MissingChild, q: string)
    requires c in cases && c.status == Missing && Strip(q) != ""
    requires IContains(c.distinctiveFeatures, Strip(q))
    requires !IContains(c.firstName, Strip(q)) && !IContains(c.lastName, Strip(q))
    requires !IContains(c.caseNumber, Strip(q)) && !IContains(c.lastSeenLocation, Strip(q))
    ensures var input := SearchInput(q, None, None, "", "", "");
      c in CaseList(cases, input) && c !in SearchCases(cases, input)
  {
    var input := SearchInput(q, None, None, "", "", "");
    assert CleanGender("") == Some(None) && CleanStatus("") == Some(None);
    StripEmpty("");
    CaseListSelects(cases, input);
    SearchCasesSelects(cases, input);
  }

  // ---- case_detail (lines 67-69) -----------------------------------------

  datatype DetailPage = DetailNotFound | Detail(child: MissingChild, updates: seq<LocationUpdate>)

  /** `get_object_or_404` and the case's verified sightings, latest first. */
  function CaseDetail(cases: seq<MissingChild>, updates: seq<LocationUpdate>, pk: string): (r: DetailPage)
    ensures r.DetailNotFound? <==> forall i :: 0 <= i < |cases| ==> cases[i].id != pk
    ensures r.Detail? ==> r.child in cases && r.child.id == pk
    ensures r.Detail? ==> SortedDesc(r.updates, SightingKey)
    ensures r.Detail? ==> forall u :: u in r.updates <==> u in updates && u.childId == pk && u.verified
  {
    match FindCase(cases, pk)
    case None => DetailNotFound
    case Some(child) =>
      var mine := Filter(updates, (u: LocationUpdate) => u.childId == child.id && u.verified);
      SortDescSameRows(mine, SightingKey);
      Detail(child, SortDesc(mine, SightingKey))
  }

}
