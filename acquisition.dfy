/** Turning one organisation's hub listing into model records: the score
 *  that picks the most notable entries, the top-K selection, the model type,
 *  the download and parameter counts as text, the relative time, and the
 *  normalised record. `now` is the current time in milliseconds and
 *  `log10` stands for `Math.log10` applied to a count. */
module Acquisition {
  import opened Base
  import opened Text
  import opened StableSort
  import opened Records

  // ---------------------------------------------------------------------
  // Score and top-K selection
  // ---------------------------------------------------------------------

  /** The recency bonus of `scoreModel`: 20, 10 or 5 points for an entry
   *  less than 90, 180 or 365 days old (a date in the future counts as
   *  new), none without a date. */
  function ScoreBonus(createdAt: Option<int>, now: int): (b: real)
    ensures createdAt.None? ==> b == 0.0
    ensures createdAt.Some? ==>
              var age := now - createdAt.value;
              && (age < 90 * DAY_MS <==> b == 20.0)
              && (90 * DAY_MS <= age < 180 * DAY_MS <==> b == 10.0)
              && (180 * DAY_MS <= age < 365 * DAY_MS <==> b == 5.0)
              && (365 * DAY_MS <= age <==> b == 0.0)
  {
    match createdAt
    case None => 0.0
    case Some(t) =>
      var age := now - t;
      if age < 90 * DAY_MS then 20.0
      else if age < 180 * DAY_MS then 10.0
      else if age < 365 * DAY_MS then 5.0
      else 0.0
  }

  /** `scoreModel`: log-scaled downloads and likes plus the recency bonus. */
  function ScoreModel(m: RawModel, now: int, log10: nat -> real): (s: real)
    ensures var base := log10(m.downloads.GetOr(0) + 1) * 10.0 + log10(m.likes.GetOr(0) + 1) * 5.0;
            base <= s <= base + 20.0
  {
    log10(m.downloads.GetOr(0) + 1) * 10.0 + log10(m.likes.GetOr(0) + 1) * 5.0 + ScoreBonus(m.createdAt, now)
  }

  /** With a non-decreasing `log10`, more downloads and likes at the same
   *  date never lower the score, and neither does a later date at the same
   *  counts. */
  lemma ScoreMonotone(m: RawModel, n: RawModel, now: int, log10: nat -> real)
    requires Monotone(log10)
    requires m.downloads.GetOr(0) <= n.downloads.GetOr(0) && m.likes.GetOr(0) <= n.likes.GetOr(0)
    requires m.createdAt == n.createdAt || (m.createdAt.Some? && n.createdAt.Some? && m.createdAt.value <= n.createdAt.value)
    ensures ScoreModel(m, now, log10) <= ScoreModel(n, now, log10)
  {
    assert log10(m.downloads.GetOr(0) + 1) <= log10(n.downloads.GetOr(0) + 1);
    assert log10(m.likes.GetOr(0) + 1) <= log10(n.likes.GetOr(0) + 1);
    assert ScoreBonus(m.createdAt, now) <= ScoreBonus(n.createdAt, now);
  }

  function ByScore(now: int, log10: nat -> real): RawModel -> Rank {
    m => Ranked(ScoreModel(m, now, log10))
  }

  const MAX_PER_ORG: nat := 8

  /** `pickTopModels`: the `maxPerOrg` best-scored entries, best first. */
  function PickTopModels(models: seq<RawModel>, now: int, log10: nat -> real, maxPerOrg: nat): seq<RawModel> {
    Take(Sort(models, ByScore(now, log10)), maxPerOrg)
  }

  /** The selection keeps `min(maxPerOrg, n)` entries drawn from the input,
   *  in non-increasing score order, with entries of equal score in input
   *  order; no entry left out scores above one kept. */
  lemma PickTopModelsSelects(models: seq<RawModel>, now: int, log10: nat -> real, maxPerOrg: nat)
    ensures |PickTopModels(models, now, log10, maxPerOrg)| == Min(maxPerOrg, |models|)
    ensures multiset(PickTopModels(models, now, log10, maxPerOrg)) <= multiset(models)
    ensures SortedDesc(PickTopModels(models, now, log10, maxPerOrg), ByScore(now, log10))
    ensures forall x, y :: x in PickTopModels(models, now, log10, maxPerOrg)
                           && y in multiset(models) - multiset(PickTopModels(models, now, log10, maxPerOrg))
                           ==> ScoreModel(y, now, log10) <= ScoreModel(x, now, log10)
    ensures forall r :: Filter(PickTopModels(models, now, log10, maxPerOrg), WithRank(ByScore(now, log10), r))
                        <= Filter(models, WithRank(ByScore(now, log10), r))
  {
    var key := ByScore(now, log10);
    var top := PickTopModels(models, now, log10, maxPerOrg);
    assert top == Take(Sort(models, key), maxPerOrg);
    TopK(models, key, maxPerOrg);
    forall x, y | x in top && y in multiset(models) - multiset(top)
      ensures ScoreModel(y, now, log10) <= ScoreModel(x, now, log10)
    {
      assert !Less(key(x), key(y));
      assert key(x) == Ranked(ScoreModel(x, now, log10)) && key(y) == Ranked(ScoreModel(y, now, log10));
    }
    forall r ensures Filter(top, WithRank(key, r)) <= Filter(models, WithRank(key, r)) {
      TopKStable(models, key, maxPerOrg, r);
    }
  }

  // ---------------------------------------------------------------------
  // Model type
  // ---------------------------------------------------------------------

  /** `inferType`: a first-match decision list over the pipeline tag and,
   *  for the two image kinds, the tags. */
  function InferType(m: RawModel): (t: string)
    ensures var pipe, tags := m.pipelineTag.GetOr(""), m.tags.GetOr([]);
            var image := pipe == "text-to-image" || "text-to-image" in tags;
            var multimodal := pipe == "image-text-to-text" || "image-text-to-text" in tags;
            && (t == "Image Gen" <==> image)
            && (t == "Multimodal" <==> !image && multimodal)
            && (t == "Audio" <==> !image && !multimodal && pipe == "automatic-speech-recognition")
            && (t == "Embeddings" <==> !image && !multimodal && pipe == "feature-extraction")
            && (t == "LLM" <==> !image && !multimodal && pipe != "automatic-speech-recognition"
                                && pipe != "feature-extraction")
  {
    var tags := m.tags.GetOr([]);
    var pipe := m.pipelineTag.GetOr("");
    if pipe == "text-to-image" || "text-to-image" in tags then "Image Gen"
    else if pipe == "image-text-to-text" || "image-text-to-text" in tags then "Multimodal"
    else if pipe == "automatic-speech-recognition" then "Audio"
    else if pipe == "text-generation" || pipe == "text2text-generation" then "LLM"
    else if pipe == "feature-extraction" then "Embeddings"
    else "LLM"
  }

  // ---------------------------------------------------------------------
  // Counts as text
  // ---------------------------------------------------------------------

  /** `x.toFixed(1)` for the exact quotient `n / unit`, as a whole number of
   *  tenths: the nearest one, the larger on a tie. */
  function RoundTenths(n: nat, unit: nat): (t: nat)
    requires unit >= 20 && unit % 20 == 0
    ensures var step := unit / 10; t * step <= n + step / 2 < t * step + step
  {
    var step := unit / 10;
    (n + step / 2) / step
  }

  /** A whole number of tenths written with one decimal. */
  function Tenths(t: nat): string {
    NatToString(t / 10) + "." + [DigitChar(t % 10)]
  }

  /** `formatDownloads`: "0" for none, a bare number below a thousand, else
   *  tenths of the largest unit reached (K, M or B). */
  function FormatDownloads(n: nat): (r: string)
    ensures n == 0 ==> r == "0"
    ensures 0 < n < 1000 ==> r == NatToString(n)
  {
    if n == 0 then "0"
    else if n >= 1_000_000_000 then Tenths(RoundTenths(n, 1_000_000_000)) + "B"
    else if n >= 1_000_000 then Tenths(RoundTenths(n, 1_000_000)) + "M"
    else if n >= 1_000 then Tenths(RoundTenths(n, 1_000)) + "K"
    else NatToString(n)
  }

  /** The unit a count of at least a thousand is written in. */
  function DownloadUnit(n: nat): (u: nat)
    ensures u in {1_000, 1_000_000, 1_000_000_000}
  {
    if n >= 1_000_000_000 then 1_000_000_000 else if n >= 1_000_000 then 1_000_000 else 1_000
  }

  /** Read back, the text of a count of a thousand or more is the suffix of
   *  the largest unit the count reaches after a number of tenths of that
   *  unit; the tenths times a tenth of the unit are within half a tenth of
   *  the count. */
  lemma FormatDownloadsReadsBack(n: nat)
    requires n >= 1000
    ensures var r, u := FormatDownloads(n), DownloadUnit(n);
            && |r| >= 2
            && r[|r| - 1] == (if u == 1_000_000_000 then 'B' else if u == 1_000_000 then 'M' else 'K')
            && u <= n && (u < 1_000_000_000 ==> n < u * 1000)
            && ParseDecimal(r[..|r| - 1]) == Some(RoundTenths(n, u) as real / 10.0)
            && n - u / 20 <= RoundTenths(n, u) * (u / 10) <= n + u / 20
  {
    var u := DownloadUnit(n);
    var r := FormatDownloads(n);
    var t := RoundTenths(n, u);
    var suffix := if u == 1_000_000_000 then 'B' else if u == 1_000_000 then 'M' else 'K';
    assert r == Tenths(t) + [suffix];
    assert r[..|r| - 1] == Tenths(t);
    TenthsReadBack(t);
    RoundTenthsClose(n, u);
  }

  lemma RoundTenthsClose(n: nat, u: nat)
    requires u >= 20 && u % 20 == 0
    ensures n - u / 20 <= RoundTenths(n, u) * (u / 10) <= n + u / 20
  {
    var step := u / 10;
    assert step / 2 == u / 20;
  }

  /** Parsing a number written in tenths gives it back. */
  lemma TenthsReadBack(t: nat)
    ensures ParseDecimal(Tenths(t)) == Some(t as real / 10.0)
  {
    ParseOneDecimal(t / 10, t % 10);
  }

  function Suffixed(number: string, suffix: char): (r: string)
    requires suffix in "TBM"
    ensures r != "Unknown" && r == number + [suffix]
  {
    assert (number + [suffix])[|number|] == suffix;
    assert "Unknown"[6] == 'n';
    number + [suffix]
  }

  /** `(p / 1e6).toFixed(0)` for the exact quotient: the nearest whole
   *  number of millions, the larger on a tie. */
  function RoundMillions(p: nat): (q: nat)
    ensures q * 1_000_000 <= p + 500_000 < q * 1_000_000 + 1_000_000
  {
    (p + 500_000) / 1_000_000
  }

  /** The parameter count as text: 'Unknown' when the hub gives none (or 0);
   *  tenths of trillions or billions with 'T' or 'B'; whole millions with
   *  'M' (rounded, a tie upwards); and below a million, the bare number. */
  function FormatParams(total: Option<nat>): (r: string)
    ensures r == "Unknown" <==> total.None? || total.value == 0
    ensures total.Some? && 0 < total.value < 1_000_000 ==> r == NatToString(total.value)
    ensures total.Some? && 1_000_000 <= total.value < 1_000_000_000
            ==> r == NatToString(RoundMillions(total.value)) + "M"
    ensures total.Some? && 1_000_000_000 <= total.value < 1_000_000_000_000
            ==> r == Tenths(RoundTenths(total.value, 1_000_000_000)) + "B"
    ensures total.Some? && total.value >= 1_000_000_000_000
            ==> r == Tenths(RoundTenths(total.value, 1_000_000_000_000)) + "T"
  {
    match total
    case None => "Unknown"
    case Some(p) =>
      if p == 0 then "Unknown"
      else if p >= 1_000_000_000_000 then Suffixed(Tenths(RoundTenths(p, 1_000_000_000_000)), 'T')
      else if p >= 1_000_000_000 then Suffixed(Tenths(RoundTenths(p, 1_000_000_000)), 'B')
      else if p >= 1_000_000 then Suffixed(NatToString(RoundMillions(p)), 'M')
      else NatToString(p)
  }

  // ---------------------------------------------------------------------
  // Relative time
  // ---------------------------------------------------------------------

  /** What `timeAgo` prints: nothing without a date, else whole minutes,
   *  hours, days or 30-day months, each rounded down. */
  datatype Ago = NoDate | MinutesAgo(minutes: int) | HoursAgo(hours: nat) | DaysAgo(days: nat) | MonthsAgo(months: nat) {
    function Render(): string {
      match this
      case NoDate => ""
      case MinutesAgo(k) => IntToString(k) + "m ago"
      case HoursAgo(h) => NatToString(h) + "h ago"
      case DaysAgo(d) => NatToString(d) + "d ago"
      case MonthsAgo(k) => NatToString(k) + "mo ago"
    }
  }

  const MINUTE_MS: nat := 60_000

  /** `timeAgo`: each unit is the floor of the previous one divided down, and
   *  a unit is used while it stays below 60 minutes, 24 hours or 30 days. */
  function TimeAgo(createdAt: Option<int>, now: int): (a: Ago)
    ensures a.NoDate? <==> createdAt.None?
    ensures a.MinutesAgo? ==> var diff := now - createdAt.value;
              a.minutes < 60 && a.minutes * 60_000 <= diff < a.minutes * 60_000 + 60_000
    ensures a.HoursAgo? ==> var diff := now - createdAt.value;
              1 <= a.hours < 24 && a.hours * 3_600_000 <= diff < a.hours * 3_600_000 + 3_600_000
    ensures a.DaysAgo? ==> var diff := now - createdAt.value;
              1 <= a.days < 30 && a.days * DAY_MS <= diff < a.days * DAY_MS + DAY_MS
    ensures a.MonthsAgo? ==> var diff := now - createdAt.value;
              1 <= a.months && a.months * 30 * DAY_MS <= diff < a.months * 30 * DAY_MS + 30 * DAY_MS
  {
    match createdAt
    case None => NoDate
    case Some(t) =>
      var diff := now - t;
      var mins := diff / MINUTE_MS;
      if mins < 60 then MinutesAgo(mins)
      else
        var hrs := mins / 60;
        if hrs < 24 then HoursAgo(hrs)
        else
          var days := hrs / 24;
          if days < 30 then DaysAgo(days)
          else MonthsAgo(days / 30)
  }

  // ---------------------------------------------------------------------
  // Normalised record
  // ---------------------------------------------------------------------

  /** The highlight line: the download count above a million downloads,
   *  else the likes above a hundred likes, else none. */
  function Highlight(downloads: nat, likes: nat): (h: Option<string>)
    ensures h.Some? <==> downloads > 1_000_000 || likes > 100
    ensures downloads > 1_000_000 ==> h == Some(FormatDownloads(downloads) + " downloads")
    ensures downloads <= 1_000_000 && likes > 100 ==> h == Some(NatToString(likes) + " community likes")
  {
    if downloads > 1_000_000 then Some(FormatDownloads(downloads) + " downloads")
    else if likes > 100 then Some(NatToString(likes) + " community likes")
    else None
  }

  /** The last segment of the hub id, or the `modelId` when that is empty. */
  function DisplayName(raw: RawModel): (name: string)
    ensures raw.id == "" || raw.id[|raw.id| - 1] == '/' ==> name == raw.modelId
    ensures raw.id != "" && raw.id[|raw.id| - 1] != '/' ==>
              && name != "" && '/' !in name && |name| <= |raw.id| && name == raw.id[|raw.id| - |name|..]
              && (|name| < |raw.id| ==> raw.id[|raw.id| - |name| - 1] == '/')
  {
    var segment := LastSegment(raw.id);
    if segment != "" then segment else raw.modelId
  }

  /** The one-line description of a hub model. */
  function Description(company: string, downloadsText: string, likes: nat): string {
    company + " model with " + downloadsText + " downloads and " + NatToString(likes) + " likes on Hugging Face."
  }

  /** `transformModel`: the hub entry of organisation `orgKey`, with the
   *  company looked up in `orgToCompany` (falling back to the key). */
  function TransformModel(raw: RawModel, orgKey: string, orgToCompany: map<string, CompanyInfo>): (m: Model)
    ensures m.id == m.hfId == (if raw.id != "" then raw.id else raw.modelId)
    ensures m.company == (if orgKey in orgToCompany && orgToCompany[orgKey].name != "" then orgToCompany[orgKey].name else orgKey)
    ensures m.companyId == (if orgKey in orgToCompany && orgToCompany[orgKey].id != "" then orgToCompany[orgKey].id else orgKey)
    ensures orgKey !in orgToCompany ==> m.company == orgKey && m.companyId == orgKey
    ensures m.name == DisplayName(raw)
    ensures m.parameters == FormatParams(raw.safetensorsTotal)
    ensures m.parameters == "Unknown" <==> raw.safetensorsTotal.GetOr(0) == 0
    ensures m.createdAt == raw.createdAt && m.lastModified == raw.lastModified
    ensures m.downloads == raw.downloads.GetOr(0) && m.likes == raw.likes.GetOr(0) && m.tags == raw.tags.GetOr([])
    ensures m.modelType == InferType(raw) && m.openSource
    ensures m.highlight == Highlight(raw.downloads.GetOr(0), raw.likes.GetOr(0))
    ensures m.downloadsFormatted == FormatDownloads(m.downloads) && m.pipelineTag == raw.pipelineTag.GetOr("")
    ensures m.description == Description(m.company, m.downloadsFormatted, m.likes)
  {
    var info := if orgKey in orgToCompany then Some(orgToCompany[orgKey]) else None;
    var id := if raw.id != "" then raw.id else raw.modelId;
    var companyName := if info.Some? && info.value.name != "" then info.value.name else orgKey;
    var companyId := if info.Some? && info.value.id != "" then info.value.id else orgKey;
    var downloads := raw.downloads.GetOr(0);
    var likes := raw.likes.GetOr(0);
    var formatted := FormatDownloads(downloads);
    var description := Description(companyName, formatted, likes);
    Model(
      id := id,
      hfId := id,
      name := DisplayName(raw),
      company := companyName,
      companyId := companyId,
      createdAt := raw.createdAt,
      lastModified := raw.lastModified,
      parameters := FormatParams(raw.safetensorsTotal),
      modelType := InferType(raw),
      openSource := true,
      downloads := downloads,
      downloadsFormatted := formatted,
      likes := likes,
      tags := raw.tags.GetOr([]),
      pipelineTag := raw.pipelineTag.GetOr(""),
      description := description,
      highlight := Highlight(downloads, likes))
  }
}
