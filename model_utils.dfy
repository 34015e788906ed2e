/** The analytics engine over a list of models: age, velocity and quality
 *  scores, the activity and size classes, the time-range test, the staged
 *  filter, the five sort orders, the recency grouping and the insight
 *  rankings. `now` is the current time in milliseconds; `log10` stands for
 *  `Math.log10` applied to a count. */
module ModelUtils {
  import opened Base
  import opened Text
  import opened StableSort
  import opened Records

  // ---------------------------------------------------------------------
  // Age
  // ---------------------------------------------------------------------

  /** `daysOld`: infinite without a release date; otherwise the milliseconds
   *  since release, clamped at 0 (a date in the future counts as now). The
   *  number of days is `ms / DAY_MS` taken as a real. */
  datatype Age = Infinite | Elapsed(ms: nat)

  function DaysOld(createdAt: Option<int>, now: int): (a: Age)
    ensures a.Infinite? <==> createdAt.None?
    ensures createdAt.Some? && createdAt.value <= now ==> a.ms == now - createdAt.value
    ensures createdAt.Some? && createdAt.value > now ==> a.ms == 0
  {
    match createdAt
    case None => Infinite
    case Some(t) => Elapsed(Max(0, now - t))
  }

  /** `daysOld(...) < days`. */
  predicate Under(a: Age, days: nat) {
    a.Elapsed? && a.ms < days * DAY_MS
  }

  /** `daysOld(...) <= days`. */
  predicate AtMost(a: Age, days: nat) {
    a.Elapsed? && a.ms <= days * DAY_MS
  }

  /** What `ageLabel` prints; a missing date prints "Infinityy ago". */
  datatype AgeText =
    | LabelToday
    | LabelYesterday
    | LabelDays(days: nat)
    | LabelWeeks(weeks: nat)
    | LabelMonths(months: nat)
    | LabelYears(years: nat)
    | LabelNever
  {
    function Render(): string {
      match this
      case LabelToday => "Today"
      case LabelYesterday => "Yesterday"
      case LabelDays(n) => NatToString(n) + "d ago"
      case LabelWeeks(n) => NatToString(n) + "w ago"
      case LabelMonths(n) => NatToString(n) + "mo ago"
      case LabelYears(n) => NatToString(n) + "y ago"
      case LabelNever => "Infinityy ago"
    }
  }

  /** `ageLabel`: the age band cut at 1, 2, 7, 30 and 365 days, with the
   *  whole number of days, weeks, 30-day months or 365-day years. */
  function AgeLabel(createdAt: Option<int>, now: int): (l: AgeText)
    ensures l.LabelToday? <==> Under(DaysOld(createdAt, now), 1)
    ensures l.LabelYesterday? <==> Under(DaysOld(createdAt, now), 2) && !Under(DaysOld(createdAt, now), 1)
    ensures l.LabelDays? <==> Under(DaysOld(createdAt, now), 7) && !Under(DaysOld(createdAt, now), 2)
    ensures l.LabelWeeks? <==> Under(DaysOld(createdAt, now), 30) && !Under(DaysOld(createdAt, now), 7)
    ensures l.LabelMonths? <==> Under(DaysOld(createdAt, now), 365) && !Under(DaysOld(createdAt, now), 30)
    ensures l.LabelYears? <==> createdAt.Some? && !Under(DaysOld(createdAt, now), 365)
    ensures l.LabelNever? <==> createdAt.None?
    ensures l.LabelDays? ==> 2 <= l.days < 7
    ensures l.LabelWeeks? ==> 1 <= l.weeks <= 4
    ensures l.LabelMonths? ==> 1 <= l.months <= 12
    ensures l.LabelYears? ==> 1 <= l.years
    ensures l.LabelDays? ==> l.days * DAY_MS <= DaysOld(createdAt, now).ms < (l.days + 1) * DAY_MS
    ensures l.LabelWeeks? ==> l.weeks * (7 * DAY_MS) <= DaysOld(createdAt, now).ms < (l.weeks + 1) * (7 * DAY_MS)
    ensures l.LabelMonths? ==> l.months * (30 * DAY_MS) <= DaysOld(createdAt, now).ms < (l.months + 1) * (30 * DAY_MS)
    ensures l.LabelYears? ==> l.years * (365 * DAY_MS) <= DaysOld(createdAt, now).ms < (l.years + 1) * (365 * DAY_MS)
  {
    match DaysOld(createdAt, now)
    case Infinite => LabelNever
    case Elapsed(ms) =>
      if ms < DAY_MS then LabelToday
      else if ms < 2 * DAY_MS then LabelYesterday
      else if ms < 7 * DAY_MS then LabelDays(FloorDiv(ms, DAY_MS))
      else if ms < 30 * DAY_MS then LabelWeeks(FloorDiv(ms, 7 * DAY_MS))
      else if ms < 365 * DAY_MS then LabelMonths(FloorDiv(ms, 30 * DAY_MS))
      else LabelYears(FloorDiv(ms, 365 * DAY_MS))
  }

  /** `Math.floor(ms / unit)`: the whole number of units in `ms`. */
  function FloorDiv(ms: nat, unit: nat): (q: nat)
    requires unit > 0
    ensures q * unit <= ms < (q + 1) * unit
  {
    ms / unit
  }

  /** `isNew`: released less than seven days ago. */
  function IsNew(createdAt: Option<int>, now: int): (b: bool)
    ensures b <==> createdAt.Some? && now - createdAt.value < 7 * DAY_MS
  {
    Under(DaysOld(createdAt, now), 7)
  }

  // ---------------------------------------------------------------------
  // Velocity, quality and activity
  // ---------------------------------------------------------------------

  /** `velocity`: downloads per day since release, counting at least one day. */
  function Velocity(m: Model, now: int): (v: real)
    ensures 0.0 <= v <= m.downloads as real
    ensures m.createdAt.None? ==> v == 0.0
    ensures Under(DaysOld(m.createdAt, now), 1) ==> v == m.downloads as real
  {
    match DaysOld(m.createdAt, now)
    case Infinite => 0.0
    case Elapsed(ms) =>
      var days := ms as real / DAY_MS as real;
      var divisor := if days < 1.0 then 1.0 else days;
      m.downloads as real / divisor
  }

  /** More downloads at the same release date never lower the velocity. */
  lemma VelocityMonotone(m: Model, n: Model, now: int)
    requires m.createdAt == n.createdAt && m.downloads <= n.downloads
    ensures Velocity(m, now) <= Velocity(n, now)
  {
    match DaysOld(m.createdAt, now)
    case Infinite =>
    case Elapsed(ms) =>
      var days := ms as real / DAY_MS as real;
      var d := if days < 1.0 then 1.0 else days;
      DivMonotone(m.downloads as real, n.downloads as real, d);
  }

  lemma DivMonotone(x: real, y: real, d: real)
    requires x <= y && d > 0.0
    ensures x / d <= y / d
  {
    assert y / d - x / d == (y - x) / d;
    assert (y - x) / d * d == y - x;
  }

  /** The recency bonus of `qualityScore`: 15, 10 or 5 points below 30, 90
   *  or 180 days, otherwise (and without a date) none. */
  function QualityBonus(a: Age): (b: real)
    ensures Under(a, 30) ==> b == 15.0
    ensures !Under(a, 30) && Under(a, 90) ==> b == 10.0
    ensures !Under(a, 90) && Under(a, 180) ==> b == 5.0
    ensures !Under(a, 180) ==> b == 0.0
  {
    if Under(a, 30) then 15.0 else if Under(a, 90) then 10.0 else if Under(a, 180) then 5.0 else 0.0
  }

  /** `qualityScore`: log-scaled downloads and likes, velocity capped at 30
   *  points, and the recency bonus. */
  function QualityScore(m: Model, now: int, log10: nat -> real): (q: real)
    ensures var base := log10(m.downloads + 1) * 10.0 + log10(m.likes + 1) * 8.0;
            base <= q <= base + 45.0
  {
    var v := Velocity(m, now) / 100.0;
    log10(m.downloads + 1) * 10.0 + log10(m.likes + 1) * 8.0
      + (if v < 30.0 then v else 30.0)
      + QualityBonus(DaysOld(m.createdAt, now))
  }

  /** With a non-decreasing `log10`, more downloads and more likes at the
   *  same release date never lower the quality score. */
  lemma QualityMonotone(m: Model, n: Model, now: int, log10: nat -> real)
    requires Monotone(log10)
    requires m.createdAt == n.createdAt && m.downloads <= n.downloads && m.likes <= n.likes
    ensures QualityScore(m, now, log10) <= QualityScore(n, now, log10)
  {
    VelocityMonotone(m, n, now);
    assert log10(m.downloads + 1) <= log10(n.downloads + 1);
    assert log10(m.likes + 1) <= log10(n.likes + 1);
  }

  datatype Activity = High | Medium | Low {
    function Name(): string {
      match this
      case High => "High"
      case Medium => "Medium"
      case Low => "Low"
    }
  }

  /** `activityLevel`: High above 10,000 downloads a day, Medium above 500. */
  function ActivityLevel(m: Model, now: int): (a: Activity)
    ensures a.High? <==> Velocity(m, now) > 10000.0
    ensures a.Medium? <==> 500.0 < Velocity(m, now) <= 10000.0
    ensures a.Low? <==> Velocity(m, now) <= 500.0
  {
    var v := Velocity(m, now);
    if v > 10000.0 then Activity.High else if v > 500.0 then Activity.Medium else Activity.Low
  }

  // ---------------------------------------------------------------------
  // Size classes
  // ---------------------------------------------------------------------

  datatype SizeClass = Tiny | Small | Medium | Large | Huge {
    function Name(): string {
      match this
      case Tiny => "tiny"
      case Small => "small"
      case Medium => "medium"
      case Large => "large"
      case Huge => "huge"
    }
  }

  /** The class of a size given in billions of parameters. */
  function BucketOf(billions: real): (b: SizeClass)
    ensures b.Tiny? <==> billions < 1.0
    ensures b.Small? <==> 1.0 <= billions < 7.0
    ensures b.Medium? <==> 7.0 <= billions < 13.0
    ensures b.Large? <==> 13.0 <= billions < 70.0
    ensures b.Huge? <==> 70.0 <= billions
  {
    if billions < 1.0 then Tiny
    else if billions < 7.0 then Small
    else if billions < 13.0 then SizeClass.Medium
    else if billions < 70.0 then Large
    else Huge
  }

  /** The number in a parameter string: its digits and dots, read by `parseFloat`. */
  function SizeNumber(p: string): Option<real> {
    ParseDecimal(Filter(p, IsNumericChar))
  }

  /** `sizeBucket`: no class for a missing or 'Unknown' string or one without
   *  a number. Otherwise the number is scaled to billions: a 'T' anywhere
   *  wins over a 'B', a 'B' over an 'M', an 'M' that is part of "MoE" is not
   *  one, and a number without any of them is already in billions. */
  function SizeBucket(p: string): (r: Option<SizeClass>)
    ensures r.None? <==> p == "" || p == "Unknown" || SizeNumber(p).None?
    ensures r.Some? && Contains(p, "T") ==> r.value == BucketOf(SizeNumber(p).value * 1000.0)
    ensures r.Some? && !Contains(p, "T") && Contains(p, "B") ==> r.value == BucketOf(SizeNumber(p).value)
    ensures r.Some? && !Contains(p, "T") && !Contains(p, "B") && Contains(p, "M") && !Contains(p, "MoE")
            ==> r.value == BucketOf(SizeNumber(p).value / 1000.0)
    ensures r.Some? && !Contains(p, "T") && !Contains(p, "B") && (!Contains(p, "M") || Contains(p, "MoE"))
            ==> r.value == BucketOf(SizeNumber(p).value)
  {
    if p == "" || p == "Unknown" then None
    else
      match SizeNumber(p)
      case None => None
      case Some(num) =>
        var isB := Contains(p, "B");
        var isT := Contains(p, "T");
        var isM := Contains(p, "M") && !Contains(p, "MoE");
        var params :=
          if isT then num * 1000.0
          else if isB then num
          else if isM then num / 1000.0
          else num;
        Some(BucketOf(params))
  }

  // ---------------------------------------------------------------------
  // Time range
  // ---------------------------------------------------------------------

  /** The ceiling, in days, of a bounded range key; `None` for any other key. */
  function RangeLimit(range: string): (r: Option<nat>)
    ensures r.Some? <==> range in {"24h", "7d", "30d", "90d"}
  {
    if range == "24h" then Some(1)
    else if range == "7d" then Some(7)
    else if range == "30d" then Some(30)
    else if range == "90d" then Some(90)
    else None
  }

  /** `withinTimeRange`: everything passes 'all' and an unknown key (the
   *  ceiling is then infinite, which even an infinite age meets); a bounded
   *  key admits exactly the dated models at most that many days old. */
  function WithinTimeRange(m: Model, range: string, now: int): (b: bool)
    ensures range == "all" || RangeLimit(range).None? ==> b
    ensures RangeLimit(range).Some? ==>
              (b <==> m.createdAt.Some? && now - m.createdAt.value <= RangeLimit(range).value * DAY_MS)
  {
    if range == "all" then true
    else
      match RangeLimit(range)
      case None => true
      case Some(limit) => AtMost(DaysOld(m.createdAt, now), limit)
  }

  // ---------------------------------------------------------------------
  // Filtering
  // ---------------------------------------------------------------------

  /** `filters.type` and `filters.size`. */
  datatype Filters = Filters(types: seq<string>, sizes: seq<string>)

  datatype FilterOptions = FilterOptions(search: string, timeRange: string, filters: Filters)

  /** The search stage: the lower-cased query occurs in the lower-cased name,
   *  company, pipeline tag, hub id or one of the tags. */
  predicate MatchesSearch(m: Model, q: string) {
    Contains(Lower(m.name), q) || Contains(Lower(m.company), q) || Contains(Lower(m.pipelineTag), q)
    || Contains(Lower(m.hfId), q) || exists i :: 0 <= i < |m.tags| && Contains(Lower(m.tags[i]), q)
  }

  /** The size stage: the model has a size class and it is one of `sizes`. */
  predicate SizeSelected(m: Model, sizes: seq<string>) {
    SizeBucket(m.parameters).Some? && SizeBucket(m.parameters).value.Name() in sizes
  }

  function InRange(range: string, now: int): Model -> bool {
    m => WithinTimeRange(m, range, now)
  }

  function Matching(q: string): Model -> bool {
    m => MatchesSearch(m, q)
  }

  function OfType(types: seq<string>): Model -> bool {
    (m: Model) => m.modelType in types
  }

  function OfSize(sizes: seq<string>): Model -> bool {
    m => SizeSelected(m, sizes)
  }

  /** `filterModels`: the stages run in order time range, search, type,
   *  size, and an inactive stage ('all', an empty query, an empty list) is
   *  skipped. */
  function FilterModels(models: seq<Model>, opts: FilterOptions, now: int): (r: seq<Model>)
    ensures |r| <= |models|
  {
    var afterTime := if opts.timeRange != "all" then Filter(models, InRange(opts.timeRange, now)) else models;
    var afterSearch := if opts.search != "" then Filter(afterTime, Matching(Lower(opts.search))) else afterTime;
    var afterType := if |opts.filters.types| > 0 then Filter(afterSearch, OfType(opts.filters.types)) else afterSearch;
    if |opts.filters.sizes| > 0 then Filter(afterType, OfSize(opts.filters.sizes)) else afterType
  }

  /** A model passes every active stage. */
  predicate Passes(m: Model, opts: FilterOptions, now: int) {
    (opts.timeRange == "all" || WithinTimeRange(m, opts.timeRange, now))
    && (opts.search == "" || MatchesSearch(m, Lower(opts.search)))
    && (|opts.filters.types| == 0 || m.modelType in opts.filters.types)
    && (|opts.filters.sizes| == 0 || SizeSelected(m, opts.filters.sizes))
  }

  function Passing(opts: FilterOptions, now: int): Model -> bool {
    m => Passes(m, opts, now)
  }

  function PassingTime(opts: FilterOptions, now: int): Model -> bool {
    m => opts.timeRange == "all" || WithinTimeRange(m, opts.timeRange, now)
  }

  function PassingTimeAndSearch(opts: FilterOptions, now: int): Model -> bool {
    m => PassingTime(opts, now)(m) && (opts.search == "" || MatchesSearch(m, Lower(opts.search)))
  }

  function PassingAllButSize(opts: FilterOptions, now: int): Model -> bool {
    m => PassingTimeAndSearch(opts, now)(m) && (|opts.filters.types| == 0 || m.modelType in opts.filters.types)
  }

  /** The staged filter keeps exactly the models that pass every active
   *  stage, in their original order. */
  lemma FilterModelsSpec(models: seq<Model>, opts: FilterOptions, now: int)
    ensures FilterModels(models, opts, now) == Filter(models, Passing(opts, now))
  {
    var afterTime := TimeStage(models, opts, now);
    var afterSearch := SearchStage(models, opts, now, afterTime);
    var afterType := TypeStage(models, opts, now, afterSearch);
    SizeStage(models, opts, now, afterType);
  }

  lemma TimeStage(models: seq<Model>, opts: FilterOptions, now: int) returns (afterTime: seq<Model>)
    ensures afterTime == (if opts.timeRange != "all" then Filter(models, InRange(opts.timeRange, now)) else models)
    ensures afterTime == Filter(models, PassingTime(opts, now))
  {
    var everything := (m: Model) => true;
    FilterAllPass(models, everything);
    FilterStage(models, models, everything, opts.timeRange != "all", InRange(opts.timeRange, now), PassingTime(opts, now));
    afterTime := if opts.timeRange != "all" then Filter(models, InRange(opts.timeRange, now)) else models;
  }

  lemma SearchStage(models: seq<Model>, opts: FilterOptions, now: int, afterTime: seq<Model>) returns (afterSearch: seq<Model>)
    requires afterTime == Filter(models, PassingTime(opts, now))
    ensures afterSearch == (if opts.search != "" then Filter(afterTime, Matching(Lower(opts.search))) else afterTime)
    ensures afterSearch == Filter(models, PassingTimeAndSearch(opts, now))
  {
    FilterStage(models, afterTime, PassingTime(opts, now), opts.search != "", Matching(Lower(opts.search)),
                PassingTimeAndSearch(opts, now));
    afterSearch := if opts.search != "" then Filter(afterTime, Matching(Lower(opts.search))) else afterTime;
  }

  lemma TypeStage(models: seq<Model>, opts: FilterOptions, now: int, afterSearch: seq<Model>) returns (afterType: seq<Model>)
    requires afterSearch == Filter(models, PassingTimeAndSearch(opts, now))
    ensures afterType == (if |opts.filters.types| > 0 then Filter(afterSearch, OfType(opts.filters.types)) else afterSearch)
    ensures afterType == Filter(models, PassingAllButSize(opts, now))
  {
    var types := opts.filters.types;
    FilterStage(models, afterSearch, PassingTimeAndSearch(opts, now), |types| > 0, OfType(types),
                PassingAllButSize(opts, now));
    afterType := if |types| > 0 then Filter(afterSearch, OfType(types)) else afterSearch;
  }

  lemma SizeStage(models: seq<Model>, opts: FilterOptions, now: int, afterType: seq<Model>)
    requires afterType == Filter(models, PassingAllButSize(opts, now))
    ensures (if |opts.filters.sizes| > 0 then Filter(afterType, OfSize(opts.filters.sizes)) else afterType)
         == Filter(models, Passing(opts, now))
  {
    var sizes := opts.filters.sizes;
    forall m | m in models
      ensures Passing(opts, now)(m) == (PassingAllButSize(opts, now)(m) && (!(|sizes| > 0) || OfSize(sizes)(m)))
    {
      assert PassingTime(opts, now)(m) == (opts.timeRange == "all" || WithinTimeRange(m, opts.timeRange, now));
      assert PassingTimeAndSearch(opts, now)(m)
          == (PassingTime(opts, now)(m) && (opts.search == "" || MatchesSearch(m, Lower(opts.search))));
    }
    FilterStage(models, afterType, PassingAllButSize(opts, now), |sizes| > 0, OfSize(sizes), Passing(opts, now));
  }


  /** The result is an order-preserving subsequence of the input; every model
   *  in it passes every active stage, and every input model that passes
   *  them all is in it. A model without a size class never survives an
   *  active size filter. */
  lemma FilterModelsSelects(models: seq<Model>, opts: FilterOptions, now: int)
    ensures IsSubsequence(FilterModels(models, opts, now), models)
    ensures forall m :: m in FilterModels(models, opts, now) <==> m in models && Passes(m, opts, now)
    ensures |opts.filters.sizes| > 0 ==>
              forall m :: m in FilterModels(models, opts, now) ==> SizeBucket(m.parameters).Some?
  {
    var p := Passing(opts, now);
    FilterModelsSpec(models, opts, now);
    FilterIsSubsequence(models, p);
    FilterMembers(models, p);
    assert forall m :: p(m) == Passes(m, opts, now);
  }

  /** Filtering an already filtered list with the same options changes nothing. */
  lemma FilterModelsIdempotent(models: seq<Model>, opts: FilterOptions, now: int)
    ensures FilterModels(FilterModels(models, opts, now), opts, now) == FilterModels(models, opts, now)
  {
    FilterModelsSpec(models, opts, now);
    FilterModelsSpec(FilterModels(models, opts, now), opts, now);
    FilterIdempotent(models, Passing(opts, now));
  }

  // ---------------------------------------------------------------------
  // Sorting
  // ---------------------------------------------------------------------

  function ByVelocity(now: int): Model -> Rank {
    m => Ranked(Velocity(m, now))
  }

  function ByDownloads(): Model -> Rank {
    (m: Model) => Ranked(m.downloads as real)
  }

  function ByQuality(now: int, log10: nat -> real): Model -> Rank {
    m => Ranked(QualityScore(m, now, log10))
  }

  function ByLikes(): Model -> Rank {
    (m: Model) => Ranked(m.likes as real)
  }

  /** The key each sort mode orders by, highest first; none for an unknown mode. */
  function SortKey(sortBy: string, now: int, log10: nat -> real): (k: Option<Model -> Rank>)
    ensures k.Some? <==> sortBy in {"trending", "recent", "popular", "quality", "liked"}
  {
    if sortBy == "trending" then Some(ByVelocity(now))
    else if sortBy == "recent" then Some(ByReleaseDate())
    else if sortBy == "popular" then Some(ByDownloads())
    else if sortBy == "quality" then Some(ByQuality(now, log10))
    else if sortBy == "liked" then Some(ByLikes())
    else None
  }

  /** What `sortModels` returns. */
  function SortedModels(models: seq<Model>, sortBy: string, now: int, log10: nat -> real): seq<Model> {
    match SortKey(sortBy, now, log10)
    case None => models
    case Some(key) => Sort(models, key)
  }

  /** `sortModels`: sorts a fresh copy, so the argument is untouched. */
  method SortModels(models: seq<Model>, sortBy: string, now: int, log10: nat -> real) returns (sorted: seq<Model>)
    ensures sorted == SortedModels(models, sortBy, now, log10)
  {
    match SortKey(sortBy, now, log10)
    case None =>
      sorted := models;
    case Some(key) =>
      sorted := SortedCopy(models, key);
  }

  /** The result is a permutation of the input; under a known mode it is in
   *  non-increasing key order and models with equal keys keep their input
   *  order; under an unknown mode it is the input unchanged. */
  lemma SortedModelsOrder(models: seq<Model>, sortBy: string, now: int, log10: nat -> real)
    ensures multiset(SortedModels(models, sortBy, now, log10)) == multiset(models)
    ensures SortKey(sortBy, now, log10).None? ==> SortedModels(models, sortBy, now, log10) == models
    ensures SortKey(sortBy, now, log10).Some? ==>
              var key := SortKey(sortBy, now, log10).value;
              SortedDesc(SortedModels(models, sortBy, now, log10), key)
              && forall r :: Filter(SortedModels(models, sortBy, now, log10), WithRank(key, r))
                             == Filter(models, WithRank(key, r))
  {
    match SortKey(sortBy, now, log10)
    case None =>
    case Some(key) =>
      SortPermutation(models, key);
      SortSorted(models, key);
      forall r ensures Filter(Sort(models, key), WithRank(key, r)) == Filter(models, WithRank(key, r)) {
        SortStable(models, key, r);
      }
  }

  // ---------------------------------------------------------------------
  // "What's New" grouping
  // ---------------------------------------------------------------------

  datatype Recency = Today | Yesterday | ThisWeek | Older {
    function Title(): string {
      match this
      case Today => "Today"
      case Yesterday => "Yesterday"
      case ThisWeek => "This Week"
      case Older => "Older"
    }

    /** The position of the group in the output. */
    function Position(): int {
      match this
      case Today => 0
      case Yesterday => 1
      case ThisWeek => 2
      case Older => 3
    }
  }

  /** The group a model falls in: under 1, 2 or 7 days, or older (undated models too). */
  function RecencyOf(m: Model, now: int): (g: Recency)
    ensures g == Today <==> Under(DaysOld(m.createdAt, now), 1)
    ensures g == Yesterday <==> Under(DaysOld(m.createdAt, now), 2) && !Under(DaysOld(m.createdAt, now), 1)
    ensures g == ThisWeek <==> Under(DaysOld(m.createdAt, now), 7) && !Under(DaysOld(m.createdAt, now), 2)
    ensures g == Older <==> !Under(DaysOld(m.createdAt, now), 7)
  {
    var d := DaysOld(m.createdAt, now);
    if Under(d, 1) then Today else if Under(d, 2) then Yesterday else if Under(d, 7) then ThisWeek else Older
  }

  function InGroup(g: Recency, now: int): Model -> bool {
    m => RecencyOf(m, now) == g
  }

  datatype RecencyGroup = RecencyGroup(recency: Recency, models: seq<Model>)

  function GroupSize(g: RecencyGroup): int {
    |g.models|
  }

  function GroupPosition(g: RecencyGroup): int {
    g.recency.Position()
  }

  predicate NonEmptyGroup(g: RecencyGroup) {
    |g.models| > 0
  }

  /** `groupByRecency`: one pass that appends each model to its group, then
   *  the groups in the fixed order Today, Yesterday, This Week, Older with
   *  the empty ones dropped. Each group is exactly the input's models of
   *  that age, in input order; every non-empty age class gets its group, so
   *  the groups partition the input and their sizes add up to its length. */
  method GroupByRecency(models: seq<Model>, now: int) returns (groups: seq<RecencyGroup>)
    ensures forall i :: 0 <= i < |groups| ==>
              groups[i].models != [] && groups[i].models == Filter(models, InGroup(groups[i].recency, now))
    ensures forall i, j :: 0 <= i < j < |groups| ==> groups[i].recency.Position() < groups[j].recency.Position()
    ensures forall m :: m in models ==> exists i :: 0 <= i < |groups| && groups[i].recency == RecencyOf(m, now)
    ensures Sum(groups, GroupSize) == |models|
  {
    var today, yesterday, thisWeek, older := [], [], [], [];
    for i := 0 to |models|
      invariant (today, yesterday, thisWeek, older) == Partition(models[..i], now)
    {
      var m := models[i];
      assert models[..i + 1][..i] == models[..i];
      var d := DaysOld(m.createdAt, now);
      if Under(d, 1) {
        today := today + [m];
      } else if Under(d, 2) {
        yesterday := yesterday + [m];
      } else if Under(d, 7) {
        thisWeek := thisWeek + [m];
      } else {
        older := older + [m];
      }
    }
    assert models[..|models|] == models;
    PartitionIsFilters(models, now);
    groups := Filter(Groups(today, yesterday, thisWeek, older), NonEmptyGroup);
    GroupsOfPartition(models, now, today, yesterday, thisWeek, older, groups);
  }

  function Groups(today: seq<Model>, yesterday: seq<Model>, thisWeek: seq<Model>, older: seq<Model>): seq<RecencyGroup> {
    [RecencyGroup(Today, today), RecencyGroup(Yesterday, yesterday),
     RecencyGroup(ThisWeek, thisWeek), RecencyGroup(Older, older)]
  }

  /** The four lists the grouping loop fills, as a function of the models seen. */
  function Partition(models: seq<Model>, now: int): (seq<Model>, seq<Model>, seq<Model>, seq<Model>) {
    if models == [] then ([], [], [], [])
    else
      var (today, yesterday, thisWeek, older) := Partition(models[..|models| - 1], now);
      var m := models[|models| - 1];
      var d := DaysOld(m.createdAt, now);
      if Under(d, 1) then (today + [m], yesterday, thisWeek, older)
      else if Under(d, 2) then (today, yesterday + [m], thisWeek, older)
      else if Under(d, 7) then (today, yesterday, thisWeek + [m], older)
      else (today, yesterday, thisWeek, older + [m])
  }

  /** Each list is the input's models of one age class, in input order, and
   *  together they hold every model once. */
  lemma {:induction false} PartitionIsFilters(models: seq<Model>, now: int)
    ensures Partition(models, now).0 == Filter(models, InGroup(Today, now))
    ensures Partition(models, now).1 == Filter(models, InGroup(Yesterday, now))
    ensures Partition(models, now).2 == Filter(models, InGroup(ThisWeek, now))
    ensures Partition(models, now).3 == Filter(models, InGroup(Older, now))
    ensures |Partition(models, now).0| + |Partition(models, now).1| + |Partition(models, now).2|
            + |Partition(models, now).3| == |models|
  {
    if models != [] {
      var init, m := models[..|models| - 1], models[|models| - 1];
      assert models == init + [m];
      PartitionIsFilters(init, now);
      FilterSnoc(init, m, InGroup(Today, now));
      FilterSnoc(init, m, InGroup(Yesterday, now));
      FilterSnoc(init, m, InGroup(ThisWeek, now));
      FilterSnoc(init, m, InGroup(Older, now));
    }
  }

  /** The non-empty groups of the four-way partition by age class. */
  lemma GroupsOfPartition(models: seq<Model>, now: int, today: seq<Model>, yesterday: seq<Model>,
                          thisWeek: seq<Model>, older: seq<Model>, groups: seq<RecencyGroup>)
    requires today == Filter(models, InGroup(Today, now))
    requires yesterday == Filter(models, InGroup(Yesterday, now))
    requires thisWeek == Filter(models, InGroup(ThisWeek, now))
    requires older == Filter(models, InGroup(Older, now))
    requires |today| + |yesterday| + |thisWeek| + |older| == |models|
    requires groups == Filter(Groups(today, yesterday, thisWeek, older), NonEmptyGroup)
    ensures forall i :: 0 <= i < |groups| ==>
              groups[i].models != [] && groups[i].models == Filter(models, InGroup(groups[i].recency, now))
    ensures forall i, j :: 0 <= i < j < |groups| ==> groups[i].recency.Position() < groups[j].recency.Position()
    ensures forall m :: m in models ==> exists i :: 0 <= i < |groups| && groups[i].recency == RecencyOf(m, now)
    ensures Sum(groups, GroupSize) == |models|
  {
    DropEmptyGroups(today, yesterday, thisWeek, older);
    var members := r => Filter(models, InGroup(r, now));
    assert members(Today) == today && members(Yesterday) == yesterday;
    assert members(ThisWeek) == thisWeek && members(Older) == older;
    KeptGroupsExact(members, groups);
    KeptGroupsCover(models, now, Groups(today, yesterday, thisWeek, older), groups);
  }

  /** Dropping the empty groups keeps their relative order and their total size. */
  lemma DropEmptyGroups(a: seq<Model>, b: seq<Model>, c: seq<Model>, d: seq<Model>)
    ensures var groups := Filter(Groups(a, b, c, d), NonEmptyGroup);
            (forall i, j :: 0 <= i < j < |groups| ==> groups[i].recency.Position() < groups[j].recency.Position())
            && Sum(groups, GroupSize) == |a| + |b| + |c| + |d|
  {
    var all := Groups(a, b, c, d);
    assert GroupPosition(all[0]) == 0 && GroupPosition(all[1]) == 1;
    assert GroupPosition(all[2]) == 2 && GroupPosition(all[3]) == 3;
    FilterOrdered(all, NonEmptyGroup, GroupPosition);
    SumFilterZero(all, NonEmptyGroup, GroupSize);
    SumFour(all[0], all[1], all[2], all[3], GroupSize);
  }

  /** Every group kept is one of the four and is not empty. */
  lemma KeptGroupsExact(members: Recency -> seq<Model>, groups: seq<RecencyGroup>)
    requires groups == Filter(Groups(members(Today), members(Yesterday), members(ThisWeek), members(Older)),
                              NonEmptyGroup)
    ensures forall i :: 0 <= i < |groups| ==> groups[i].models != [] && groups[i].models == members(groups[i].recency)
  {
    var all := Groups(members(Today), members(Yesterday), members(ThisWeek), members(Older));
    forall i | 0 <= i < |groups|
      ensures groups[i].models != [] && groups[i].models == members(groups[i].recency)
    {
      assert groups[i] in all;
    }
  }

  /** Every model's age class has its group among those kept. */
  lemma KeptGroupsCover(models: seq<Model>, now: int, all: seq<RecencyGroup>, groups: seq<RecencyGroup>)
    requires all == Groups(Filter(models, InGroup(Today, now)), Filter(models, InGroup(Yesterday, now)),
                           Filter(models, InGroup(ThisWeek, now)), Filter(models, InGroup(Older, now)))
    requires groups == Filter(all, NonEmptyGroup)
    ensures forall m :: m in models ==> exists i :: 0 <= i < |groups| && groups[i].recency == RecencyOf(m, now)
  {
    forall m | m in models ensures exists i :: 0 <= i < |groups| && groups[i].recency == RecencyOf(m, now) {
      var k := RecencyOf(m, now).Position();
      var j :| 0 <= j < |models| && models[j] == m;
      assert all[k].recency == RecencyOf(m, now);
      assert m in all[k].models;
      assert all[k] in groups;
    }
  }

  // ---------------------------------------------------------------------
  // Insights
  // ---------------------------------------------------------------------

  datatype InsightKind = Trending | JustReleased | Favorites | Rising {
    function Key(): string {
      match this
      case Trending => "trending"
      case JustReleased => "new"
      case Favorites => "favorites"
      case Rising => "rising"
    }

    function Title(): string {
      match this
      case Trending => "Trending Now"
      case JustReleased => "Just Released"
      case Favorites => "Community Favorites"
      case Rising => "Rising Stars"
    }

    function Subtitle(): string {
      match this
      case Trending => "Fastest download velocity"
      case JustReleased => "Last 48 hours"
      case Favorites => "Most liked models"
      case Rising => "Fastest growing (<30d)"
    }

    function Icon(): string {
      match this
      case Trending => "↗"
      case JustReleased => "✦"
      case Favorites => "♥"
      case Rising => "★"
    }

    function Position(): int {
      match this
      case Trending => 0
      case JustReleased => 1
      case Favorites => 2
      case Rising => 3
    }
  }

  datatype Insight = Insight(kind: InsightKind, models: seq<Model>)

  predicate NonEmptyInsight(g: Insight) {
    |g.models| > 0
  }

  function InsightPosition(g: Insight): int {
    g.kind.Position()
  }

  /** Released less than `days` days ago. */
  function YoungerThan(days: nat, now: int): Model -> bool {
    (m: Model) => Under(DaysOld(m.createdAt, now), days)
  }

  /** The four rankings `computeInsights` builds, before empty ones are
   *  dropped. One copy of the input is sorted by velocity, then sorted
   *  again, in place, by likes: so the likes order breaks ties by velocity,
   *  and the rising stars are picked from the likes-sorted order, which
   *  breaks their velocity ties. */
  function Candidates(models: seq<Model>, now: int): seq<Insight> {
    var byVelocity := Sort(models, ByVelocity(now));
    var byLikes := Sort(byVelocity, ByLikes());
    [Insight(Trending, Take(byVelocity, 3)),
     Insight(JustReleased, Take(Sort(Filter(byVelocity, YoungerThan(2, now)), ByReleaseDate()), 3)),
     Insight(Favorites, Take(byLikes, 3)),
     Insight(Rising, Take(Sort(Filter(byLikes, YoungerThan(30, now)), ByVelocity(now)), 3))]
  }

  /** What `computeInsights` returns: nothing for no models, otherwise the
   *  non-empty rankings. */
  function Insights(models: seq<Model>, now: int): seq<Insight> {
    if models == [] then [] else Filter(Candidates(models, now), NonEmptyInsight)
  }

  /** `computeInsights`, with the one shared array sorted in place twice. */
  method ComputeInsights(models: seq<Model>, now: int) returns (insights: seq<Insight>)
    ensures insights == Insights(models, now)
  {
    if |models| == 0 {
      return [];
    }
    var sorted := new Model[|models|](i requires 0 <= i < |models| => models[i]);
    assert sorted[..] == models;
    SortInPlace(sorted, ByVelocity(now));
    var trending := Take(sorted[..], 3);
    var newest := SortedCopy(Filter(sorted[..], YoungerThan(2, now)), ByReleaseDate());
    var justReleased := Take(newest, 3);
    SortInPlace(sorted, ByLikes());
    var favorites := Take(sorted[..], 3);
    var rising := SortedCopy(Filter(sorted[..], YoungerThan(30, now)), ByVelocity(now));
    var risingStar := Take(rising, 3);
    insights := Filter([Insight(Trending, trending), Insight(JustReleased, justReleased),
                        Insight(Favorites, favorites), Insight(Rising, risingStar)], NonEmptyInsight);
  }

  /** The top `k` of a sorted selection are selected elements of `s`. */
  lemma TopOfSelection(s: seq<Model>, p: Model -> bool, key: Model -> Rank, k: nat)
    ensures forall m :: m in Take(Sort(Filter(s, p), key), k) ==> m in s && p(m)
  {
    var selected := Filter(s, p);
    var sorted := Sort(selected, key);
    SortMembers(selected, key);
    forall m | m in Take(sorted, k) ensures m in s && p(m) {
      var j :| 0 <= j < |Take(sorted, k)| && Take(sorted, k)[j] == m;
      assert sorted[j] == m;
      assert m in sorted;
      assert m in selected;
    }
  }

  /** What each ranking holds: at most three models of the input, at least
   *  one in trending and favorites when there are models, and only young
   *  enough models in new and rising. */
  lemma CandidatesContents(models: seq<Model>, now: int)
    ensures var c := Candidates(models, now);
            && |c| == 4
            && (forall k :: 0 <= k < 4 ==> c[k].kind.Position() == k && |c[k].models| <= 3)
            && (models != [] ==> c[0].models != [] && c[2].models != [])
            && (forall k, m :: 0 <= k < 4 && m in c[k].models ==> m in models)
            && (forall m :: m in c[1].models ==> Under(DaysOld(m.createdAt, now), 2))
            && (forall m :: m in c[3].models ==> Under(DaysOld(m.createdAt, now), 30))
  {
    CandidatesShape(models, now);
    CandidatesDrawn(models, now);
  }

  lemma CandidatesShape(models: seq<Model>, now: int)
    ensures var c := Candidates(models, now);
            && |c| == 4
            && (forall k :: 0 <= k < 4 ==> c[k].kind.Position() == k && |c[k].models| <= 3)
            && (models != [] ==> c[0].models != [] && c[2].models != [])
  {
    var c := Candidates(models, now);
    var byVelocity := Sort(models, ByVelocity(now));
    var byLikes := Sort(byVelocity, ByLikes());
    var newest := Take(Sort(Filter(byVelocity, YoungerThan(2, now)), ByReleaseDate()), 3);
    var rising := Take(Sort(Filter(byLikes, YoungerThan(30, now)), ByVelocity(now)), 3);
    assert c == [Insight(Trending, Take(byVelocity, 3)), Insight(JustReleased, newest),
                 Insight(Favorites, Take(byLikes, 3)), Insight(Rising, rising)];
    assert |byVelocity| == |byLikes| == |models|;
    forall k | 0 <= k < 4 ensures c[k].kind.Position() == k && |c[k].models| <= 3 {
      if k == 0 {
      } else if k == 1 {
      } else if k == 2 {
      } else {
      }
    }
  }

  lemma CandidatesDrawn(models: seq<Model>, now: int)
    ensures var c := Candidates(models, now);
            && |c| == 4
            && (forall k, m :: 0 <= k < 4 && m in c[k].models ==> m in models)
            && (forall m :: m in c[1].models ==> Under(DaysOld(m.createdAt, now), 2))
            && (forall m :: m in c[3].models ==> Under(DaysOld(m.createdAt, now), 30))
  {
    var byVelocity := Sort(models, ByVelocity(now));
    var byLikes := Sort(byVelocity, ByLikes());
    SortMembers(models, ByVelocity(now));
    SortMembers(byVelocity, ByLikes());
    TopOfSelection(byVelocity, YoungerThan(2, now), ByReleaseDate(), 3);
    TopOfSelection(byLikes, YoungerThan(30, now), ByVelocity(now), 3);
    TakeMembers(byVelocity, 3);
    TakeMembers(byLikes, 3);
    var c := Candidates(models, now);
    var newest := Take(Sort(Filter(byVelocity, YoungerThan(2, now)), ByReleaseDate()), 3);
    var rising := Take(Sort(Filter(byLikes, YoungerThan(30, now)), ByVelocity(now)), 3);
    assert c == [Insight(Trending, Take(byVelocity, 3)), Insight(JustReleased, newest),
                 Insight(Favorites, Take(byLikes, 3)), Insight(Rising, rising)];
  }

  /** What each ranking means: trending holds the three models with the
   *  highest velocity and favorites the three most liked; new holds the
   *  three latest releases among the models under two days old, and rising
   *  the three with the highest velocity among those under 30 days old.
   *  A ranking has three models, or all its pool has when that is fewer. */
  lemma CandidatesRankings(models: seq<Model>, now: int)
    ensures var c := Candidates(models, now);
            && IsTop(c[0].models, models, ByVelocity(now), 3)
            && IsTop(c[1].models, Filter(models, YoungerThan(2, now)), ByReleaseDate(), 3)
            && IsTop(c[2].models, models, ByLikes(), 3)
            && IsTop(c[3].models, Filter(models, YoungerThan(30, now)), ByVelocity(now), 3)
  {
    var byVelocity := Sort(models, ByVelocity(now));
    var byLikes := Sort(byVelocity, ByLikes());
    SortPermutation(models, ByVelocity(now));
    SortPermutation(byVelocity, ByLikes());
    TopOfPermutation(models, models, ByVelocity(now), 3);
    TopOfPermutation(byVelocity, models, ByLikes(), 3);
    FilterPermutation(byVelocity, models, YoungerThan(2, now));
    TopOfPermutation(Filter(byVelocity, YoungerThan(2, now)), Filter(models, YoungerThan(2, now)), ByReleaseDate(), 3);
    FilterPermutation(byLikes, models, YoungerThan(30, now));
    TopOfPermutation(Filter(byLikes, YoungerThan(30, now)), Filter(models, YoungerThan(30, now)), ByVelocity(now), 3);
  }

  lemma TakeMembers<T>(s: seq<T>, k: nat)
    ensures forall x :: x in Take(s, k) ==> x in s
    ensures k > 0 && s != [] ==> Take(s, k) != []
  {
    forall x | x in Take(s, k) ensures x in s {
      var j :| 0 <= j < |Take(s, k)| && Take(s, k)[j] == x;
      assert s[j] == x;
    }
  }

  /** Dropping the empty rankings, when the first and third are not empty. */
  lemma DropEmptyInsights(a: Insight, b: Insight, c: Insight, d: Insight)
    requires a.kind == Trending && b.kind == JustReleased && c.kind == Favorites && d.kind == Rising
    requires a.models != [] && c.models != []
    ensures var ins := Filter([a, b, c, d], NonEmptyInsight);
            && 2 <= |ins| <= 4 && ins[0] == a
            && (exists i :: 0 <= i < |ins| && ins[i] == c)
  {
    FilterFour(a, b, c, d, NonEmptyInsight);
    var ins := Filter([a, b, c, d], NonEmptyInsight);
    var rest := if NonEmptyInsight(b) then [b] else [];
    assert ins == [a] + rest + [c] + (if NonEmptyInsight(d) then [d] else []);
    assert ins[1 + |rest|] == c;
  }

  /** Without models there are no insights. Otherwise there are two to four
   *  groups in the fixed order trending, new, favorites, rising: trending
   *  comes first and favorites is always there. */
  lemma InsightsGroups(models: seq<Model>, now: int)
    ensures models == [] ==> Insights(models, now) == []
    ensures models != [] ==> 2 <= |Insights(models, now)| <= 4 && Insights(models, now)[0].kind == Trending
    ensures models != [] ==> exists i :: 0 <= i < |Insights(models, now)| && Insights(models, now)[i].kind == Favorites
    ensures forall i, j :: 0 <= i < j < |Insights(models, now)| ==>
              Insights(models, now)[i].kind.Position() < Insights(models, now)[j].kind.Position()
  {
    if models != [] {
      CandidatesShape(models, now);
      KeptGroups(Candidates(models, now));
    }
  }

  /** The non-empty groups of four candidate rankings in their fixed order,
   *  the first and third of them non-empty. */
  lemma KeptGroups(c: seq<Insight>)
    requires |c| == 4 && forall k :: 0 <= k < 4 ==> c[k].kind.Position() == k
    requires c[0].models != [] && c[2].models != []
    ensures var ins := Filter(c, NonEmptyInsight);
            && 2 <= |ins| <= 4 && ins[0].kind == Trending
            && (exists i :: 0 <= i < |ins| && ins[i].kind == Favorites)
            && forall i, j :: 0 <= i < j < |ins| ==> ins[i].kind.Position() < ins[j].kind.Position()
  {
    assert c == [c[0], c[1], c[2], c[3]];
    assert c[0].kind == Trending && c[1].kind == JustReleased && c[2].kind == Favorites && c[3].kind == Rising;
    DropEmptyInsights(c[0], c[1], c[2], c[3]);
    FilterOrdered(c, NonEmptyInsight, InsightPosition);
  }

  /** For models, the insights are exactly the non-empty rankings: each
   *  group is the ranking of its kind, and every non-empty ranking is kept. */
  lemma InsightsAreRankings(models: seq<Model>, now: int)
    requires models != []
    ensures forall i, k :: 0 <= i < |Insights(models, now)| && 0 <= k < |Candidates(models, now)|
                           && Candidates(models, now)[k].kind == Insights(models, now)[i].kind
                           ==> Insights(models, now)[i] == Candidates(models, now)[k]
    ensures forall k :: 0 <= k < |Candidates(models, now)| && Candidates(models, now)[k].models != [] ==>
              Candidates(models, now)[k] in Insights(models, now)
  {
    var c := Candidates(models, now);
    CandidatesShape(models, now);
    var ins := Insights(models, now);
    forall i, k | 0 <= i < |ins| && 0 <= k < |c| && c[k].kind == ins[i].kind ensures ins[i] == c[k] {
      var j :| 0 <= j < 4 && c[j] == ins[i];
      assert c[j].kind.Position() == j && c[k].kind.Position() == k;
    }
    forall k | 0 <= k < |c| && c[k].models != [] ensures c[k] in ins {
      assert NonEmptyInsight(c[k]);
    }
  }

  /** Each group holds one to three models of the input; 'new' holds only
   *  models under 2 days old and 'rising' only models under 30 days old. */
  lemma InsightsMembers(models: seq<Model>, now: int)
    ensures forall i :: 0 <= i < |Insights(models, now)| ==> 1 <= |Insights(models, now)[i].models| <= 3
    ensures forall i, m :: 0 <= i < |Insights(models, now)| && m in Insights(models, now)[i].models ==> m in models
    ensures forall i, m :: (0 <= i < |Insights(models, now)| && Insights(models, now)[i].kind == JustReleased
                            && m in Insights(models, now)[i].models) ==> Under(DaysOld(m.createdAt, now), 2)
    ensures forall i, m :: (0 <= i < |Insights(models, now)| && Insights(models, now)[i].kind == Rising
                            && m in Insights(models, now)[i].models) ==> Under(DaysOld(m.createdAt, now), 30)
  {
    if models != [] {
      var c := Candidates(models, now);
      CandidatesContents(models, now);
      var ins := Insights(models, now);
      forall i | 0 <= i < |ins| ensures exists k :: 0 <= k < 4 && ins[i] == c[k] && ins[i].models != [] {
        assert ins[i] in c;
      }
    }
  }
}
