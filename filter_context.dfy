/** The filter and comparison state the dashboard shares between its
 *  panels: the search text, the time range, the sort mode, the type and
 *  size filters, up to three models picked for comparison, and the views
 *  derived from them and from the fetched releases. */
module FilterContext {
  import opened Base
  import opened OrderedDict
  import opened StableSort
  import opened Records
  import opened ModelUtils

  /** At most this many models are compared side by side. */
  const MAX_COMPARE: nat := 3
  const WEEK_MS: nat := 7 * DAY_MS

  /** Where the data load stands; only `Ready` has releases to show. */
  datatype Status = Idle | Loading | Ready | Error

  /** The two filter lists `toggleFilter` addresses. */
  datatype Category = Type | Size

  // ---------------------------------------------------------------------
  // Toggling
  // ---------------------------------------------------------------------

  function Other(value: string): string -> bool {
    (v: string) => v != value
  }

  /** `arr.includes(value) ? arr.filter(v => v !== value) : [...arr, value]`. */
  function Toggled(list: seq<string>, value: string): (r: seq<string>)
    ensures value in list ==> value !in r
    ensures value !in list ==> r == list + [value]
  {
    if value in list then Filter(list, Other(value)) else list + [value]
  }

  /** Removing a present value drops every occurrence of it and nothing
   *  else, in order. */
  lemma {:induction false} RemoveAll(list: seq<string>, value: string)
    ensures multiset(Filter(list, Other(value))) == multiset(list)[value := 0]
  {
    if list != [] {
      var init, last := list[..|list| - 1], list[|list| - 1];
      assert list == init + [last];
      RemoveAll(init, value);
    }
  }

  /** Toggling a present value removes all its occurrences, keeps every
   *  other value with its multiplicity and order; an absent value is
   *  appended at the end. */
  lemma ToggledSpec(list: seq<string>, value: string)
    ensures value in list ==>
              && multiset(Toggled(list, value)) == multiset(list)[value := 0]
              && IsSubsequence(Toggled(list, value), list)
    ensures value !in list ==> Toggled(list, value) == list + [value]
  {
    RemoveAll(list, value);
    FilterIsSubsequence(list, Other(value));
  }

  /** Toggling an absent value twice restores the list. */
  lemma ToggleTwiceRestores(list: seq<string>, value: string)
    requires value !in list
    ensures Toggled(Toggled(list, value), value) == list
  {
    FilterAppend(list, [value], Other(value));
    FilterAllPass(list, Other(value));
    assert Filter([value], Other(value)) == [];
  }

  /** The filter lists after `toggleFilter(category, value)`: only the
   *  addressed list changes. */
  function FiltersToggled(filters: Filters, category: Category, value: string): (r: Filters)
    ensures category == Type ==> r.sizes == filters.sizes && r.types == Toggled(filters.types, value)
    ensures category == Size ==> r.types == filters.types && r.sizes == Toggled(filters.sizes, value)
  {
    match category
    case Type => filters.(types := Toggled(filters.types, value))
    case Size => filters.(sizes := Toggled(filters.sizes, value))
  }

  /** The comparison list after `toggleCompare(id)`: a present id is
   *  removed, an absent one appended unless the list is full. */
  function CompareToggled(list: seq<string>, id: string): (r: seq<string>)
    ensures id in list ==> id !in r && multiset(r) == multiset(list)[id := 0] && IsSubsequence(r, list)
    ensures id !in list && |list| >= MAX_COMPARE ==> r == list
    ensures id !in list && |list| < MAX_COMPARE ==> r == list + [id]
    ensures |list| <= MAX_COMPARE && NoDups(list) ==> |r| <= MAX_COMPARE && NoDups(r)
  {
    if id in list then
      var r := Filter(list, Other(id));
      RemoveAll(list, id);
      FilterIsSubsequence(list, Other(id));
      assert NoDups(list) ==> NoDups(r) by {
        if NoDups(list) {
          FilterNoDups(list, Other(id));
        }
      }
      r
    else if |list| >= MAX_COMPARE then list
    else list + [id]
  }

  lemma {:induction false} FilterNoDups(s: seq<string>, p: string -> bool)
    requires NoDups(s)
    ensures NoDups(Filter(s, p))
  {
    if s != [] {
      var init, last := s[..|s| - 1], s[|s| - 1];
      assert NoDups(init);
      FilterNoDups(init, p);
      assert last !in init;
      assert forall x :: x in Filter(init, p) ==> x in init;
    }
  }

  /** `activeFilterCount`: one for a search text, one for a time range
   *  other than 'all', and one per selected type and size. */
  function ActiveFilterCount(search: string, timeRange: string, filters: Filters): (c: nat)
    ensures c >= |filters.types| + |filters.sizes|
    ensures c == 0 <==> search == "" && timeRange == "all" && filters.types == [] && filters.sizes == []
  {
    (if search != "" then 1 else 0) + (if timeRange != "all" then 1 else 0) + |filters.types| + |filters.sizes|
  }

  /** The provider's state. */
  class FilterState {
    var search: string
    var timeRange: string
    var sortBy: string
    var filters: Filters
    var compareList: seq<string>
    var showComparison: bool

    /** The comparison list never holds more than three ids, nor one id twice. */
    ghost predicate Valid()
      reads this
    {
      |compareList| <= MAX_COMPARE && NoDups(compareList)
    }

    /** The initial state: no search, all time, trending order, no filters,
     *  nothing to compare. */
    constructor ()
      ensures Valid()
      ensures search == "" && timeRange == "all" && sortBy == "trending"
      ensures filters == Filters([], []) && compareList == [] && !showComparison
    {
      search := "";
      timeRange := "all";
      sortBy := "trending";
      filters := Filters([], []);
      compareList := [];
      showComparison := false;
    }

    method SetSearch(q: string)
      modifies this
      ensures search == q
      ensures timeRange == old(timeRange) && sortBy == old(sortBy) && filters == old(filters)
      ensures compareList == old(compareList) && showComparison == old(showComparison)
    {
      search := q;
    }

    method SetTimeRange(range: string)
      modifies this
      ensures timeRange == range
      ensures search == old(search) && sortBy == old(sortBy) && filters == old(filters)
      ensures compareList == old(compareList) && showComparison == old(showComparison)
    {
      timeRange := range;
    }

    method SetSortBy(mode: string)
      modifies this
      ensures sortBy == mode
      ensures search == old(search) && timeRange == old(timeRange) && filters == old(filters)
      ensures compareList == old(compareList) && showComparison == old(showComparison)
    {
      sortBy := mode;
    }

    method SetShowComparison(show: bool)
      modifies this
      ensures showComparison == show
      ensures search == old(search) && timeRange == old(timeRange) && sortBy == old(sortBy)
      ensures filters == old(filters) && compareList == old(compareList)
    {
      showComparison := show;
    }

    /** `toggleFilter(category, value)`. */
    method ToggleFilter(category: Category, value: string)
      modifies this
      ensures filters == FiltersToggled(old(filters), category, value)
      ensures search == old(search) && timeRange == old(timeRange) && sortBy == old(sortBy)
      ensures compareList == old(compareList) && showComparison == old(showComparison)
    {
      filters := FiltersToggled(filters, category, value);
    }

    /** `clearFilters`: the sort mode and the comparison are kept. */
    method ClearFilters()
      modifies this
      ensures search == "" && timeRange == "all" && filters == Filters([], [])
      ensures ActiveFilterCount(search, timeRange, filters) == 0
      ensures sortBy == old(sortBy) && compareList == old(compareList) && showComparison == old(showComparison)
    {
      search := "";
      timeRange := "all";
      filters := Filters([], []);
    }

    /** `toggleCompare(id)`. */
    method ToggleCompare(id: string)
      requires Valid()
      modifies this
      ensures Valid()
      ensures compareList == CompareToggled(old(compareList), id)
      ensures search == old(search) && timeRange == old(timeRange) && sortBy == old(sortBy)
      ensures filters == old(filters) && showComparison == old(showComparison)
    {
      if id in compareList {
        FilterNoDups(compareList, Other(id));
        compareList := Filter(compareList, Other(id));
      } else if |compareList| < MAX_COMPARE {
        compareList := compareList + [id];
      }
    }

    /** `clearCompare`: the list is emptied and the comparison closed. */
    method ClearCompare()
      modifies this
      ensures Valid()
      ensures compareList == [] && !showComparison
      ensures search == old(search) && timeRange == old(timeRange) && sortBy == old(sortBy)
      ensures filters == old(filters)
    {
      compareList := [];
      showComparison := false;
    }
  }

  // ---------------------------------------------------------------------
  // Derived views
  // ---------------------------------------------------------------------

  /** `filteredModels`: nothing until the data is ready, then the releases
   *  passing the current filters in the chosen order. */
  function FilteredModels(status: Status, releases: seq<Model>, opts: FilterOptions, sortBy: string,
                          now: int, log10: nat -> real): (r: seq<Model>)
    ensures |r| <= |releases|
  {
    if status != Ready then [] else SortedModels(FilterModels(releases, opts, now), sortBy, now, log10)
  }

  /** Once ready, the view holds exactly the releases that pass every active
   *  filter, each as often as in the releases, ordered by the sort mode
   *  (an unknown mode keeps the releases' order). */
  lemma FilteredModelsSpec(status: Status, releases: seq<Model>, opts: FilterOptions, sortBy: string,
                           now: int, log10: nat -> real)
    ensures status != Ready ==> FilteredModels(status, releases, opts, sortBy, now, log10) == []
    ensures status == Ready ==>
              var r := FilteredModels(status, releases, opts, sortBy, now, log10);
              && multiset(r) == multiset(Filter(releases, Passing(opts, now)))
              && (forall m :: m in r <==> m in releases && Passes(m, opts, now))
              && (SortKey(sortBy, now, log10).Some? ==> SortedDesc(r, SortKey(sortBy, now, log10).value))
              && (SortKey(sortBy, now, log10).None? ==> r == Filter(releases, Passing(opts, now)))
  {
    if status == Ready {
      var filtered := FilterModels(releases, opts, now);
      FilterModelsSpec(releases, opts, now);
      FilterModelsSelects(releases, opts, now);
      SortedModelsOrder(filtered, sortBy, now, log10);
      var r := SortedModels(filtered, sortBy, now, log10);
      forall m ensures m in r <==> m in filtered {
        assert m in r <==> m in multiset(r);
      }
    }
  }

  function Picked(compareList: seq<string>): Model -> bool {
    (m: Model) => m.id in compareList
  }

  /** `compareModels`: the releases whose id is picked, in the releases'
   *  order rather than the order they were picked in. */
  function CompareModels(releases: seq<Model>, compareList: seq<string>): (r: seq<Model>)
    ensures forall m :: m in r <==> m in releases && m.id in compareList
  {
    var r := Filter(releases, Picked(compareList));
    assert forall m :: m in r ==> m in releases && m.id in compareList by {
      forall m | m in r ensures m in releases && m.id in compareList {
        var i :| 0 <= i < |r| && r[i] == m;
      }
    }
    r
  }

  lemma CompareModelsOrder(releases: seq<Model>, compareList: seq<string>)
    ensures IsSubsequence(CompareModels(releases, compareList), releases)
  {
    FilterIsSubsequence(releases, Picked(compareList));
  }

  // ---------------------------------------------------------------------
  // Stats
  // ---------------------------------------------------------------------

  function FromCompany(name: string): Model -> bool {
    (m: Model) => m.company == name
  }

  /** `orgCounts` after the loop over the first models: each company name,
   *  in order of first appearance, with its number of models. */
  function Tallies(models: seq<Model>): (d: Dict<nat>)
    ensures d.Valid()
  {
    if models == [] then Empty()
    else
      var prev := Tallies(models[..|models| - 1]);
      var c := models[|models| - 1].company;
      Put(prev, c, (if c in prev.values then prev.values[c] else 0) + 1)
  }

  /** A company is counted exactly when some model is from it, and its count
   *  is the number of its models. */
  lemma {:induction false} TalliesCount(models: seq<Model>, name: string)
    ensures name in Tallies(models).values <==> Filter(models, FromCompany(name)) != []
    ensures name in Tallies(models).values ==> Tallies(models).values[name] == |Filter(models, FromCompany(name))|
  {
    if models != [] {
      var init, last := models[..|models| - 1], models[|models| - 1];
      assert models == init + [last];
      TalliesCount(init, name);
      FilterSnoc(init, last, FromCompany(name));
    }
  }

  /** The distinct elements of `s`, in order of first occurrence (what
   *  spreading a `Set` built from `s` yields). */
  function Distinct(s: seq<string>): (r: seq<string>)
    ensures NoDups(r) && forall x :: x in r <==> x in s
  {
    if s == [] then []
    else
      var prev := Distinct(s[..|s| - 1]);
      var last := s[|s| - 1];
      assert forall x :: x in s <==> x in s[..|s| - 1] || x == last;
      if last in prev then prev else prev + [last]
  }

  function CompanyNames(models: seq<Model>): (r: seq<string>)
    ensures |r| == |models| && forall i :: 0 <= i < |r| ==> r[i] == models[i].company
  {
    seq(|models|, i requires 0 <= i < |models| => models[i].company)
  }

  /** The counted companies come in the order each first appears. */
  lemma {:induction false} TalliesKeys(models: seq<Model>)
    ensures Tallies(models).keys == Distinct(CompanyNames(models))
  {
    if models != [] {
      var n := |models| - 1;
      TalliesKeys(models[..n]);
      assert CompanyNames(models)[..n] == CompanyNames(models[..n]);
    }
  }

  /** The loop filling `orgCounts`. */
  method CountByCompany(models: seq<Model>) returns (counts: Dict<nat>)
    ensures counts == Tallies(models)
  {
    counts := Empty();
    for i := 0 to |models|
      invariant counts == Tallies(models[..i])
    {
      assert models[..i + 1][..i] == models[..i];
      var c := models[i].company;
      counts := Put(counts, c, (if c in counts.values then counts.values[c] else 0) + 1);
    }
    assert models[..|models|] == models;
  }

  function ByCount(): ((string, nat)) -> Rank {
    (e: (string, nat)) => Ranked(e.1 as real)
  }

  /** `Object.entries(orgCounts).sort((a, b) => b[1] - a[1])[0]`: the entry
   *  with the highest count; none for an empty table. */
  function MostActive(counts: Dict<nat>): (r: Option<(string, nat)>)
    requires counts.Valid()
    ensures r.None? <==> counts.keys == []
  {
    var entries := Entries(counts);
    if entries == [] then None else Some(Sort(entries, ByCount())[0])
  }

  /** The most active entry has the highest count, and among entries with
   *  that count it is the first in the table's order. */
  lemma MostActiveIsFirstMaximum(counts: Dict<nat>) returns (j: nat)
    requires counts.Valid() && counts.keys != []
    ensures j < |counts.keys| && MostActive(counts) == Some((counts.keys[j], counts.values[counts.keys[j]]))
    ensures forall name :: name in counts.values ==> counts.values[name] <= counts.values[counts.keys[j]]
    ensures forall i :: 0 <= i < j ==> counts.values[counts.keys[i]] < counts.values[counts.keys[j]]
  {
    var entries := Entries(counts);
    j := FirstOfSortIsFirstMaximum(entries, ByCount());
    forall name | name in counts.values
      ensures counts.values[name] <= counts.values[counts.keys[j]]
    {
      var k :| 0 <= k < |counts.keys| && counts.keys[k] == name;
      assert entries[k] in entries;
    }
  }

  /** The dashboard's summary figures. */
  datatype Stats = Stats(totalModels: nat, newThisWeek: nat, totalDownloads: nat,
                         mostActiveOrg: Option<(string, nat)>, filteredCount: nat)

  /** Released after the start of the last seven days. */
  function NewSince(weekAgo: int): Model -> bool {
    (m: Model) => m.createdAt.Some? && m.createdAt.value > weekAgo
  }

  function DownloadsOf(m: Model): int {
    m.downloads
  }

  /** `stats`: nothing until the data is ready. */
  function StatsOf(status: Status, releases: seq<Model>, filteredCount: nat, now: int): (r: Option<Stats>)
  {
    if status != Ready then None
    else
      var total := Sum(releases, DownloadsOf);
      SumNonNegative(releases);
      Some(Stats(|releases|, |Filter(releases, NewSince(now - WEEK_MS))|, total,
                 MostActive(Tallies(releases)), filteredCount))
  }

  lemma {:induction false} SumNonNegative(models: seq<Model>)
    ensures Sum(models, DownloadsOf) >= 0
  {
    if models != [] {
      SumNonNegative(models[..|models| - 1]);
    }
  }

  /** The body of the `stats` memo. */
  method ComputeStats(status: Status, releases: seq<Model>, filteredCount: nat, now: int) returns (r: Option<Stats>)
    ensures r == StatsOf(status, releases, filteredCount, now)
  {
    if status != Ready {
      return None;
    }
    var weekAgo := now - WEEK_MS;
    var newThisWeek := |Filter(releases, NewSince(weekAgo))|;
    SumNonNegative(releases);
    var totalDownloads: nat := Sum(releases, DownloadsOf);
    var orgCounts := CountByCompany(releases);
    var entries := SortedCopy(Entries(orgCounts), ByCount());
    var mostActiveOrg := if entries == [] then None else Some(entries[0]);
    r := Some(Stats(|releases|, newThisWeek, totalDownloads, mostActiveOrg, filteredCount));
  }

  /** Once ready: every release is counted, the downloads are summed,
   *  `newThisWeek` is the number of releases dated strictly after a week
   *  before `now`, and a most active company is named exactly when there
   *  are releases (`MostActiveSpec` says which one). */
  lemma StatsSpec(releases: seq<Model>, filteredCount: nat, now: int)
    ensures var r := StatsOf(Ready, releases, filteredCount, now);
            && r.Some? && r.value.totalModels == |releases| && r.value.filteredCount == filteredCount
            && r.value.totalDownloads == Sum(releases, DownloadsOf)
            && r.value.newThisWeek
               == |set i | 0 <= i < |releases| && releases[i].createdAt.Some? && releases[i].createdAt.value > now - WEEK_MS|
            && (r.value.mostActiveOrg.None? <==> releases == [])
  {
    var weekAgo := now - WEEK_MS;
    FilterCount(releases, NewSince(weekAgo));
    assert Positions(releases, NewSince(weekAgo))
        == set i | 0 <= i < |releases| && releases[i].createdAt.Some? && releases[i].createdAt.value > weekAgo;
    if releases != [] {
      assert releases[0].company in Tallies(releases).values by {
        TalliesCount(releases, releases[0].company);
        assert releases[0] in releases;
      }
    }
  }

  /** The most active company: the number shown is its number of releases,
   *  no company has more, and every company seen before it has fewer. */
  lemma MostActiveSpec(releases: seq<Model>, filteredCount: nat, now: int)
    requires releases != []
    ensures var r := StatsOf(Ready, releases, filteredCount, now);
            && r.Some? && r.value.mostActiveOrg.Some?
            && var (name, count) := r.value.mostActiveOrg.value;
               && count == |Filter(releases, FromCompany(name))| > 0
               && (forall m :: m in releases ==> |Filter(releases, FromCompany(m.company))| <= count)
               && (forall i :: 0 <= i < |Distinct(CompanyNames(releases))| && Distinct(CompanyNames(releases))[i] == name
                     ==> forall k :: 0 <= k < i ==>
                           |Filter(releases, FromCompany(Distinct(CompanyNames(releases))[k]))| < count)
  {
    var name := MostActiveOfTallies(releases);
    assert StatsOf(Ready, releases, filteredCount, now).value.mostActiveOrg == MostActive(Tallies(releases));
  }

  /** `MostActiveSpec` stated on the tallies alone. */
  lemma MostActiveOfTallies(releases: seq<Model>) returns (name: string)
    requires releases != []
    ensures var count := |Filter(releases, FromCompany(name))|;
            && MostActive(Tallies(releases)) == Some((name, count))
            && count > 0
            && (forall m :: m in releases ==> |Filter(releases, FromCompany(m.company))| <= count)
            && (forall i :: 0 <= i < |Distinct(CompanyNames(releases))| && Distinct(CompanyNames(releases))[i] == name
                  ==> forall k :: 0 <= k < i ==>
                        |Filter(releases, FromCompany(Distinct(CompanyNames(releases))[k]))| < count)
  {
    var counts := Tallies(releases);
    assert releases[0].company in counts.values by {
      TalliesCount(releases, releases[0].company);
      assert releases[0] in releases;
    }
    var j := MostActiveIsFirstMaximum(counts);
    name := counts.keys[j];
    TalliesKeys(releases);
    TalliesCount(releases, name);
    NoneMore(releases, name);
    NoneBefore(releases, j);
  }

  /** No company has more releases than one whose tally is the largest. */
  lemma NoneMore(releases: seq<Model>, name: string)
    requires name in Tallies(releases).values
    requires forall n :: n in Tallies(releases).values ==> Tallies(releases).values[n] <= Tallies(releases).values[name]
    ensures forall m :: m in releases ==> |Filter(releases, FromCompany(m.company))| <= Tallies(releases).values[name]
  {
    forall m | m in releases
      ensures |Filter(releases, FromCompany(m.company))| <= Tallies(releases).values[name]
    {
      TalliesCount(releases, m.company);
    }
  }

  /** When the `j`-th counted company is the first with the largest tally,
   *  every company counted before it has fewer releases. */
  lemma NoneBefore(releases: seq<Model>, j: nat)
    requires j < |Tallies(releases).keys| && Tallies(releases).keys == Distinct(CompanyNames(releases))
    requires var keys := Tallies(releases).keys;
             forall i :: 0 <= i < j ==> Tallies(releases).values[keys[i]] < Tallies(releases).values[keys[j]]
    ensures var names := Distinct(CompanyNames(releases));
            forall i :: 0 <= i < |names| && names[i] == names[j] ==>
              forall k :: 0 <= k < i ==> |Filter(releases, FromCompany(names[k]))| < Tallies(releases).values[names[j]]
  {
    var counts := Tallies(releases);
    var names := counts.keys;
    forall i | 0 <= i < |names| && names[i] == names[j]
      ensures forall k :: 0 <= k < i ==> |Filter(releases, FromCompany(names[k]))| < counts.values[names[j]]
    {
      assert i == j;
      forall k | 0 <= k < i ensures |Filter(releases, FromCompany(names[k]))| < counts.values[names[j]] {
        TalliesCount(releases, names[k]);
      }
    }
  }


  // ---------------------------------------------------------------------
  // Available types
  // ---------------------------------------------------------------------

  /** The default order of `Array.prototype.sort` on strings: `a` sorts
   *  before `b` when it is a proper prefix of `b` or has the smaller
   *  character where they first differ. */
  predicate Before(a: string, b: string) {
    if a == [] then b != []
    else b != [] && (a[0] < b[0] || (a[0] == b[0] && Before(a[1..], b[1..])))
  }

  lemma {:induction false} BeforeIrreflexive(a: string)
    ensures !Before(a, a)
  {
    if a != [] {
      BeforeIrreflexive(a[1..]);
    }
  }

  lemma {:induction false} BeforeTransitive(a: string, b: string, c: string)
    requires Before(a, b) && Before(b, c)
    ensures Before(a, c)
  {
    if a != [] && a[0] == b[0] && b[0] == c[0] {
      BeforeTransitive(a[1..], b[1..], c[1..]);
    }
  }

  lemma {:induction false} BeforeTotal(a: string, b: string)
    requires a != b
    ensures Before(a, b) || Before(b, a)
  {
    if a != [] && b != [] && a[0] == b[0] {
      assert a == [a[0]] + a[1..] && b == [b[0]] + b[1..];
      BeforeTotal(a[1..], b[1..]);
    }
  }

  /** No element sorts before an earlier one. */
  ghost predicate Ascending(s: seq<string>) {
    forall i, j :: 0 <= i < j < |s| ==> Before(s[i], s[j])
  }

  function InsertString(s: seq<string>, x: string): (r: seq<string>)
    ensures multiset(r) == multiset(s) + multiset{x}
  {
    if s == [] then [x]
    else if Before(s[0], x) then
      assert s == [s[0]] + s[1..];
      [s[0]] + InsertString(s[1..], x)
    else [x] + s
  }

  /** `.sort()` on a list of strings. */
  function SortStrings(s: seq<string>): (r: seq<string>)
    ensures multiset(r) == multiset(s)
  {
    if s == [] then []
    else
      assert s == [s[0]] + s[1..];
      InsertString(SortStrings(s[1..]), s[0])
  }

  lemma {:induction false} InsertStringAscending(s: seq<string>, x: string)
    requires Ascending(s) && x !in s
    ensures Ascending(InsertString(s, x))
  {
    if s != [] {
      if Before(s[0], x) {
        var tail := s[1..];
        var rest := InsertString(tail, x);
        InsertStringAscending(tail, x);
        forall j | 0 <= j < |rest| ensures Before(s[0], rest[j]) {
          var y := rest[j];
          assert y in multiset(rest);
          if y != x {
            var k :| 0 <= k < |tail| && tail[k] == y;
            assert s[k + 1] == y;
          }
        }
        AscendingCons(s[0], rest);
      } else {
        BeforeTotal(s[0], x);
        forall j | 0 <= j < |s| ensures Before(x, s[j]) {
          if j > 0 {
            BeforeTransitive(x, s[0], s[j]);
          }
        }
        AscendingCons(x, s);
      }
    }
  }

  lemma AscendingCons(h: string, t: seq<string>)
    requires Ascending(t) && forall j :: 0 <= j < |t| ==> Before(h, t[j])
    ensures Ascending([h] + t)
  {
    var r := [h] + t;
    forall i, j | 0 <= i < j < |r| ensures Before(r[i], r[j]) {
      assert r[j] == t[j - 1];
      if i > 0 {
        assert r[i] == t[i - 1];
      }
    }
  }

  lemma {:induction false} SortStringsAscending(s: seq<string>)
    requires NoDups(s)
    ensures Ascending(SortStrings(s))
  {
    if s != [] {
      var tail := s[1..];
      assert NoDups(tail);
      SortStringsAscending(tail);
      assert s[0] !in multiset(SortStrings(tail));
      InsertStringAscending(SortStrings(tail), s[0]);
    }
  }

  function ModelTypes(models: seq<Model>): (r: seq<string>)
    ensures |r| == |models| && forall i :: 0 <= i < |r| ==> r[i] == models[i].modelType
  {
    seq(|models|, i requires 0 <= i < |models| => models[i].modelType)
  }

  function NonEmpty(): string -> bool {
    (t: string) => t != ""
  }

  /** `availableTypes`: the distinct types of the releases, the empty one
   *  dropped, sorted. */
  function AvailableTypes(releases: seq<Model>): (r: seq<string>)
    ensures forall t :: t in r <==> t != "" && t in ModelTypes(releases)
  {
    var distinct := Filter(Distinct(ModelTypes(releases)), NonEmpty());
    var r := SortStrings(distinct);
    assert forall t :: t in r <==> t in multiset(distinct);
    FilterMembers(Distinct(ModelTypes(releases)), NonEmpty());
    r
  }

  /** A type is offered exactly when it is not empty and some release has
   *  it. */
  lemma AvailableTypesMembers(releases: seq<Model>, t: string)
    ensures t in AvailableTypes(releases) <==> t != "" && exists m :: m in releases && m.modelType == t
  {
    if t in ModelTypes(releases) {
      var i :| 0 <= i < |releases| && ModelTypes(releases)[i] == t;
      assert releases[i] in releases;
    }
    if exists m :: m in releases && m.modelType == t {
      var m :| m in releases && m.modelType == t;
      var i :| 0 <= i < |releases| && releases[i] == m;
      assert ModelTypes(releases)[i] == t;
    }
  }

  /** The available types are in strictly ascending order, so each appears
   *  once. */
  lemma AvailableTypesAscending(releases: seq<Model>)
    ensures Ascending(AvailableTypes(releases))
  {
    var distinct := Distinct(ModelTypes(releases));
    FilterNoDups(distinct, NonEmpty());
    SortStringsAscending(Filter(distinct, NonEmpty()));
  }
}
