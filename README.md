# AI model tracker: the data pipeline and the analytics layer in Dafny

The tracker is a dashboard of the models that a fixed list of AI
organisations publish on the Hugging Face model hub. This project models
three parts of it:

- **The analytics engine** (`ModelUtils`, with the helpers `Base`, `Text`,
  `StableSort` and `Records`). It covers a model's age, its download
  velocity, the quality score, the activity level and the parameter-size
  class. It also covers the time-range test, the staged filter, the five
  sort modes, the "What's New" grouping and the four smart-insight
  rankings.
- **The acquisition and derivation pipeline.** `Acquisition` scores a
  listing, keeps the top entries, infers the type and formats counts and
  times. `ParameterText` proves how the parameter text written at
  acquisition reads back as a size class. `Companies` aggregates the
  models into companies and `Connections` draws the arcs to research
  centers. `LiveFeed` builds the feed of the twenty newest releases,
  `Cache` is the browser cache with its time-to-live, and `Fetch` is the
  batch loop of `fetchAllData`.
- **The filter and comparison state** (`FilterContext`). It is a class
  holding the search text, time range, sort mode, type and size filters,
  the comparison list and the comparison flag. It also defines the views
  derived from that state: the active filter count, the filtered and
  compared models, the dashboard stats and the available types.

Time is an integer count of milliseconds, and `now` is passed in.
`Math.log10` is a parameter `log10: nat -> real`. Monotonicity is stated as
a precondition wherever a lemma needs it. Every `Array.prototype.sort` call
with a comparator is the stable sort that ECMA-262 (10th edition, section
22.1.3.27) requires. It is modelled as an insertion sort into
non-increasing key order, proved equal to an in-place sort of an array.
The one call without a comparator, the `.sort()` of the available types,
is `FilterContext.SortStrings`: an ascending sort of strings, modelled on
values only. Plain JavaScript
objects used as dictionaries are `OrderedDict.Dict`: a new key is appended,
and an existing key keeps its place.

## Model

| member | source | states |
|---|---|---|
| ModelUtils.DaysOld | src/services/modelUtils.js:8-11 | missing date gives an infinite age; otherwise the elapsed milliseconds, clamped at 0 for a date in the future |
| ModelUtils.AgeLabel | src/services/modelUtils.js:13-21 | exactly one label per age band (under 1, 2, 7, 30, 365 days, then years); the count shown is the floor of the age in days, weeks, 30-day months or 365-day years, bracketing the age between it and the next whole unit; a missing date gets the label of an infinite age |
| ModelUtils.FloorDiv | src/services/modelUtils.js:16-20 | `Math.floor` of an age over a unit: the age lies between that many units and one more |
| ModelUtils.IsNew | src/services/modelUtils.js:23-25 | new exactly when dated and less than 7 days old |
| ModelUtils.Velocity | src/services/modelUtils.js:28-31 | 0 ≤ velocity ≤ downloads; 0 without a date; all the downloads when less than a day old |
| ModelUtils.VelocityMonotone | src/services/modelUtils.js:28-31 | more downloads at the same date never lower the velocity |
| ModelUtils.QualityBonus | src/services/modelUtils.js:47-50 | 15/10/5/0 points under 30/90/180 days and beyond |
| ModelUtils.QualityScore | src/services/modelUtils.js:42-52 | the score lies between the log-scaled downloads and likes and that sum plus 45 |
| ModelUtils.QualityMonotone | src/services/modelUtils.js:42-52 | with a monotone log10, more downloads and likes at the same date never lower the score |
| ModelUtils.ActivityLevel | src/services/modelUtils.js:55-60 | High iff velocity > 10,000; Medium iff 500 < velocity ≤ 10,000; Low otherwise |
| ModelUtils.BucketOf | src/services/modelUtils.js:77-81 | exactly one of tiny (<1), small (<7), medium (<13), large (<70), huge |
| ModelUtils.SizeBucket | src/services/modelUtils.js:63-82 | none for '', 'Unknown' or no number; T before B before M; a text with 'MoE' is not read as millions; a suffix-less number is read as billions |
| Text.ParseDecimal | src/services/modelUtils.js:67 | `parseFloat` of the extracted digits and dots: a leading number with at most one decimal point (read back by TenthsReadBack and the ParameterText lemmas) |
| ModelUtils.RangeLimit | src/services/modelUtils.js:96 | a limit exists exactly for '24h', '7d', '30d' and '90d' |
| ModelUtils.WithinTimeRange | src/services/modelUtils.js:93-98 | true for 'all' and unknown ranges; otherwise iff dated and at most the limit old (inclusive) |
| ModelUtils.MatchesSearch | src/services/modelUtils.js:110-119 | the search test: the lower-cased query occurs in the lower-cased name, company, pipeline tag, hub id or one of the tags (used by the filter lemmas below) |
| ModelUtils.FilterModels | src/services/modelUtils.js:101-136 | the time, search, type and size stages applied in turn, each skipped when inactive; never longer than the input (FilterModelsSpec, FilterModelsSelects) |
| ModelUtils.FilterModelsSpec | src/services/modelUtils.js:101-136 | the staged filter equals one filter by "passes every active stage"; inactive stages are skipped |
| ModelUtils.FilterModelsSelects | src/services/modelUtils.js:101-136 | the result is an order-preserving subsequence; a model is in it iff it is in the input and passes; an active size filter drops models without a size class |
| ModelUtils.FilterModelsIdempotent | src/services/modelUtils.js:101-136 | filtering twice with the same options equals filtering once |
| ModelUtils.SortKey | src/services/modelUtils.js:141-155 | a key exists exactly for the five known modes |
| ModelUtils.SortedModels | src/services/modelUtils.js:139-157 | the stable sort of a copy by the mode's key, or the input as it is for an unknown mode (SortedModelsOrder) |
| ModelUtils.SortModels | src/services/modelUtils.js:139-157 | sorts a fresh copy: the result is the reference sort of the argument |
| ModelUtils.SortedModelsOrder | src/services/modelUtils.js:139-157 | a permutation of the input; non-increasing key order with ties kept in input order; an unknown mode returns the input unchanged |
| ModelUtils.RecencyOf | src/services/modelUtils.js:168-172 | Today/Yesterday/This Week/Older partition the ages at 1, 2 and 7 days |
| ModelUtils.Partition | src/services/modelUtils.js:167-173 | the four arrays the loop pushes into, built element by element (PartitionIsFilters) |
| ModelUtils.GroupByRecency | src/services/modelUtils.js:160-181 | groups in fixed order, none empty, each exactly the input models of its band in input order, lengths summing to the input length, every model covered |
| ModelUtils.PartitionIsFilters | src/services/modelUtils.js:167-173 | the four arrays filled by the loop are the four band filters and their lengths add up to the input length |
| ModelUtils.DropEmptyGroups | src/services/modelUtils.js:175-180 | dropping empty groups keeps the fixed order and the total size |
| ModelUtils.ComputeInsights | src/services/modelUtils.js:184-212 | the method, sorting one shared copy in place twice, returns the reference insights |
| ModelUtils.Candidates | src/services/modelUtils.js:186-210 | the four rankings built from one copy sorted by velocity and then by likes, before empty ones are dropped (CandidatesRankings, CandidatesContents) |
| ModelUtils.Insights | src/services/modelUtils.js:184-212 | [] for no models, else the non-empty rankings (InsightsAreRankings, InsightsGroups, InsightsMembers) |
| ModelUtils.CandidatesRankings | src/services/modelUtils.js:186-210 | trending is a top 3 of the models by velocity and favorites a top 3 by likes; new is a top 3 by release date of the models under 2 days old, rising a top 3 by velocity of those under 30 days old; each holds min(3, pool size) models of its pool, in non-increasing order, none ranked below a model of the pool left out |
| ModelUtils.InsightsAreRankings | src/services/modelUtils.js:206-211 | for non-empty input, each returned group is the ranking of its kind, and every non-empty ranking is returned |
| ModelUtils.CandidatesContents | src/services/modelUtils.js:186-211 | four candidate groups of at most 3 models drawn from the input; trending and favorites non-empty for non-empty input; 'new' only under 2 days, 'rising' only under 30 days |
| ModelUtils.InsightsGroups | src/services/modelUtils.js:184-212 | [] for empty input; otherwise 2 to 4 groups in fixed order, trending first and favorites present |
| ModelUtils.InsightsMembers | src/services/modelUtils.js:184-212 | every group has 1 to 3 models from the input, 'new' models are under 2 days old and 'rising' models under 30 |
| ModelUtils.TopOfSelection | src/services/modelUtils.js:192-204 | a filtered, sorted, sliced selection only holds input models passing the filter |
| StableSort.SortPermutation | src/services/modelUtils.js:140-143 | the sort returns a permutation of its input |
| StableSort.SortSorted | src/services/modelUtils.js:140-143 | the sort's result is in non-increasing key order |
| StableSort.SortStable | src/services/modelUtils.js:140-143 | elements with equal keys keep their relative order |
| StableSort.SortInPlace | src/services/modelUtils.js:140-143 | sorting an array in place leaves exactly the reference sort of its old contents |
| StableSort.TopK | src/services/huggingfaceApi.js:88-91 | `sort(...).slice(0, k)` keeps min(k, n) elements of the input, and no element left out ranks above one kept |
| StableSort.TopOfPermutation | src/services/modelUtils.js:188-204 | sorting any reordering of a pool and keeping the first k gives a top k of the pool |
| StableSort.FirstOfSortIsFirstMaximum | src/context/FilterContext.jsx:93 | the head of the sort is the earliest element with the greatest key |
| OrderedDict.Put | src/services/huggingfaceApi.js:277 | assigning a new key appends it; an existing key keeps its place and gets the new value |
| OrderedDict.ValuesPutNew | src/services/huggingfaceApi.js:277 | a new key's value is appended to `Object.values` |
| Acquisition.ScoreBonus | src/services/huggingfaceApi.js:77-83 | 20/10/5/0 points under 90/180/365 days and beyond; 0 without a date |
| Acquisition.ScoreModel | src/services/huggingfaceApi.js:72-85 | the score lies between the log-scaled downloads and likes and that sum plus 20 |
| Acquisition.ScoreMonotone | src/services/huggingfaceApi.js:72-85 | with a monotone log10, more downloads and likes and a newer date never lower the score |
| Acquisition.PickTopModels | src/services/huggingfaceApi.js:87-92 | the first `maxPerOrg` entries of the listing stably sorted by score (PickTopModelsSelects) |
| Acquisition.PickTopModelsSelects | src/services/huggingfaceApi.js:87-92 | min(maxPerOrg, n) entries from the input, by non-increasing score, ties in input order, none left out scoring higher |
| Acquisition.InferType | src/services/huggingfaceApi.js:97-106 | the first-match decision list, each outcome stated as an if-and-only-if |
| Acquisition.RoundTenths | src/services/huggingfaceApi.js:110-112 | the rounded count of tenths of the unit is within half a tenth of the value |
| Acquisition.FormatDownloads | src/services/huggingfaceApi.js:108-114 | '0' for no downloads; the plain number below 1,000 |
| Acquisition.FormatDownloadsReadsBack | src/services/huggingfaceApi.js:108-114 | from 1,000 up, the text ends in K, M or B for the matching unit and its number reads back as the value in that unit to within half a tenth |
| Acquisition.FormatParams | src/services/huggingfaceApi.js:139-146 | 'Unknown' exactly when the total is missing or 0; the bare number below 1e6; the nearest whole millions and 'M' below 1e9; the nearest tenths of billions and 'B' below 1e12; the nearest tenths of trillions and 'T' from 1e12 |
| Acquisition.RoundMillions | src/services/huggingfaceApi.js:144 | `toFixed(0)` of the millions: the nearest whole number of millions, the larger on a tie |
| Acquisition.TimeAgo | src/services/huggingfaceApi.js:122-133 | '' without a date; otherwise whole minutes under 60, hours under 24, days under 30, else 30-day months, each bracketing the elapsed time |
| Acquisition.Highlight | src/services/huggingfaceApi.js:166-170 | the downloads text above 1,000,000 downloads, else the likes text above 100 likes, else none |
| Acquisition.DisplayName | src/services/huggingfaceApi.js:152 | the text after the id's last slash when that is non-empty (a suffix of the id, without a slash, preceded by one); otherwise the `modelId` |
| Acquisition.TransformModel | src/services/huggingfaceApi.js:135-171 | id fallback, the display name, company and company id falling back to the org key, the parameter text of the total ('Unknown' iff no non-zero total), defaults for downloads, likes, tags and pipeline tag, the downloads text, the description, the inferred type, the highlight |
| ParameterText.BareCountReadAsBillions | src/services/huggingfaceApi.js:145 | a total below 1e6 is written bare and read back as that many billions, so any total of at least 70 is classed huge |
| ParameterText.TrillionsReadBack | src/services/huggingfaceApi.js:142 | a total of at least 1e12 reads back as its rounded trillions and is classed huge |
| ParameterText.BillionsReadBack | src/services/huggingfaceApi.js:143 | a total in [1e9, 1e12) reads back as its rounded billions |
| ParameterText.MillionsReadBack | src/services/huggingfaceApi.js:144 | a total in [1e6, 1e9) reads back as its rounded millions over 1000: tiny below 999.5 million, else small |
| Companies.AddModelsSums | src/services/huggingfaceApi.js:199-203 | adding an org's models adds the sums of their downloads and likes and leaves the identity fields alone |
| Companies.Tally | src/services/huggingfaceApi.js:200-203 | the inner loop computes the reference tally |
| Companies.AddOrg | src/services/huggingfaceApi.js:180-203 | one entry of `modelsByOrg` merged into the company map: skipped without a mapping, a new company created on first sight, its count and totals raised (CompanyTableTotals) |
| Companies.CompanyTable | src/services/huggingfaceApi.js:177-204 | the company map after all entries, in order (CompanyTableNames, CompanyTableTotals) |
| Companies.BuildCompanies | src/services/huggingfaceApi.js:177-209 | the loop over `Object.entries` builds the reference company table, whose values are sorted by total downloads |
| Companies.CompanyTableNames | src/services/huggingfaceApi.js:180-198 | a company is in the table iff some mapped org maps to it; orgs without a mapping are skipped |
| Companies.CompanyTableTotals | src/services/huggingfaceApi.js:185-203 | each company's count and totals are the exact sums over the lists of every org merged into it |
| Companies.CompaniesOrdered | src/services/huggingfaceApi.js:206-208 | the companies come by non-increasing total downloads |
| Companies.CompaniesTallied | src/services/huggingfaceApi.js:177-209 | every returned company carries the exact sums over its merged orgs |
| Companies.CompaniesNamed | src/services/huggingfaceApi.js:177-209 | one company per distinct name; a name appears iff some mapped org maps to it |
| Connections.Seed | src/services/huggingfaceApi.js:220-221 | the seed lies in [0, 100) |
| Connections.ArcsFrom | src/services/huggingfaceApi.js:215-233 | the arcs of one company, one per research center that passes the distance and seed tests, in center order (ArcOrigin, ArcsComplete) |
| Connections.Arcs | src/services/huggingfaceApi.js:214-235 | the arcs of all companies, company by company (ArcsAppend, ArcsCount) |
| Connections.BuildConnections | src/services/huggingfaceApi.js:211-236 | the nested loops produce the reference arcs, company by company and center by center |
| Connections.ArcOrigin | src/services/huggingfaceApi.js:222-231 | every arc comes from a qualifying (company, center) pair and copies both positions, the colour and both names |
| Connections.ArcsComplete | src/services/huggingfaceApi.js:222-231 | every pair at distance > 10 with seed > 45 gets its arc |
| Connections.ArcsCount | src/services/huggingfaceApi.js:214-235 | at most \|companies\|·\|centers\| arcs |
| Connections.ArcsAppend | src/services/huggingfaceApi.js:214-235 | arcs come in company-major order |
| LiveFeed.BuildLiveUpdates | src/services/huggingfaceApi.js:238-247 | min(20, n) updates, each the time, sentence and company of the model at that place in the sorted copy |
| LiveFeed.FeedModels | src/services/huggingfaceApi.js:239-241 | the twenty newest models of a copy (FeedOrdered, FeedIsNewest, FeedStable) |
| LiveFeed.UpdateOf | src/services/huggingfaceApi.js:242-246 | one model's time, sentence and company |
| LiveFeed.FeedOrdered | src/services/huggingfaceApi.js:239-241 | the feed is newest first, undated models after dated ones |
| LiveFeed.FeedIsNewest | src/services/huggingfaceApi.js:239-241 | the feed draws min(20, n) models from the input and none left out is newer than one shown |
| LiveFeed.FeedStable | src/services/huggingfaceApi.js:239-241 | models of the same date keep their input order |
| Cache.Storage.GetCache | src/services/huggingfaceApi.js:16-32 | returns the reference lookup; removes the legacy key and an expired entry, nothing else |
| Cache.Storage.SetCache | src/services/huggingfaceApi.js:34-43 | stores the timestamped data under the versioned key, or changes nothing when the write fails |
| Cache.Storage.ClearCache | src/services/huggingfaceApi.js:45-48 | removes the versioned and the legacy key |
| Cache.Lookup | src/services/huggingfaceApi.js:21-28 | what `getCache` returns for a store and a time (LookupValid) |
| Cache.AfterRead | src/services/huggingfaceApi.js:19-26 | the store after `getCache` (AfterReadKeys) |
| Cache.LookupValid | src/services/huggingfaceApi.js:21-28 | data comes back iff the key holds a parsed entry no more than 30 minutes old, and it is the stored data |
| Cache.AfterReadKeys | src/services/huggingfaceApi.js:19-26 | after a read the legacy key is gone, the entry stays iff it is not expired, every other key is untouched |
| Cache.ReadTwice | src/services/huggingfaceApi.js:16-32 | a second read at the same time returns the same and removes nothing more |
| Cache.WriteThenRead | src/services/huggingfaceApi.js:34-43 | a write reads back until the TTL has passed, and not after |
| Cache.ClearThenRead | src/services/huggingfaceApi.js:45-48 | nothing reads back after a clear |
| Cache.ExpiryIsFinal | src/services/huggingfaceApi.js:24 | an expired entry stays expired later |
| Fetch.Transformed | src/services/huggingfaceApi.js:275-276 | min(8, n) models are kept from an organisation's list |
| Fetch.Gather | src/services/huggingfaceApi.js:266-282 | `modelsByOrg` and `allModels` after the results of the given organisations are handled in order (GatherOrigin, GatherComplete, GatherConcat, GatherCount) |
| Fetch.Progress | src/services/huggingfaceApi.js:280-281 | the progress reports are (1, N), (2, N), ..., (N, N) |
| Fetch.Absorb | src/services/huggingfaceApi.js:272-279 | handling one settled request is the reference step |
| Fetch.HandleBatch | src/services/huggingfaceApi.js:267-282 | one batch extends the gathered models and the progress reports by its organisations, in order |
| Fetch.HandleOne | src/services/huggingfaceApi.js:272-281 | handling one more result extends the fold over the organisations handled so far by that organisation, and the progress reports by one |
| Fetch.GatherAll | src/services/huggingfaceApi.js:262-288 | the batch loop over all organisations yields the reference fold and one report per organisation |
| Fetch.FetchAllData | src/services/huggingfaceApi.js:252-310 | a cache hit is returned without fetching and without reports; otherwise the fresh dataset, one report per org, and the cache written when the store accepts it |
| Fetch.GatherOrigin | src/services/huggingfaceApi.js:274-277 | every filed org had a fulfilled non-empty request and holds the models from its last such request |
| Fetch.GatherComplete | src/services/huggingfaceApi.js:274-277 | every org with a fulfilled non-empty request is filed |
| Fetch.GatherConcat | src/services/huggingfaceApi.js:274-278 | with each org tracked once, `allModels` is the concatenation of the filed lists in filing order |
| Fetch.GatherCount | src/services/huggingfaceApi.js:275-278 | at most 8 models per organisation are gathered |
| FilterContext.Toggled | src/context/FilterContext.jsx:23-25 | a present value is gone afterwards; an absent value is appended at the end |
| FilterContext.ToggledSpec | src/context/FilterContext.jsx:18-28 | toggling a present value removes every occurrence and keeps all other values with their multiplicity and order |
| FilterContext.ToggleTwiceRestores | src/context/FilterContext.jsx:18-28 | toggling an absent value twice restores the list |
| FilterContext.FiltersToggled | src/context/FilterContext.jsx:19-27 | only the addressed category's list changes |
| FilterContext.CompareToggled | src/context/FilterContext.jsx:46-50 | a present id is removed and every other id kept with its multiplicity and order; an absent id is appended unless the list is full; at most 3 ids and no duplicates are preserved |
| FilterContext.ActiveFilterCount | src/context/FilterContext.jsx:36-42 | at least the number of selected types and sizes, and 0 iff no search, all time and no filters |
| FilterContext.FilterState.constructor | src/context/FilterContext.jsx:10-15 | empty search, 'all', 'trending', no filters, nothing to compare, comparison closed |
| FilterContext.FilterState.SetSearch | src/context/FilterContext.jsx:10 | sets the search text and nothing else |
| FilterContext.FilterState.SetTimeRange | src/context/FilterContext.jsx:11 | sets the time range and nothing else |
| FilterContext.FilterState.SetSortBy | src/context/FilterContext.jsx:12 | sets the sort mode and nothing else |
| FilterContext.FilterState.SetShowComparison | src/context/FilterContext.jsx:15 | sets the comparison flag and nothing else |
| FilterContext.FilterState.ToggleFilter | src/context/FilterContext.jsx:18-28 | toggles the value in one category and changes nothing else |
| FilterContext.FilterState.ClearFilters | src/context/FilterContext.jsx:30-34 | clears search, time range and filters, so the active count is 0; sort mode and comparison untouched |
| FilterContext.FilterState.ToggleCompare | src/context/FilterContext.jsx:45-51 | applies the comparison toggle and keeps at most 3 ids without duplicates |
| FilterContext.FilterState.ClearCompare | src/context/FilterContext.jsx:53-56 | empties the comparison list and closes the comparison |
| FilterContext.FilteredModels | src/context/FilterContext.jsx:59-63 | [] unless ready, else the sorted filtered releases (FilteredModelsSpec) |
| FilterContext.FilteredModelsSpec | src/context/FilterContext.jsx:59-63 | [] unless ready; otherwise exactly the passing releases with their multiplicity, in the sort mode's order |
| FilterContext.CompareModels | src/context/FilterContext.jsx:65-68 | a release is compared iff its id is in the comparison list |
| FilterContext.CompareModelsOrder | src/context/FilterContext.jsx:65-68 | compared models keep the releases' order, not the order they were picked in |
| FilterContext.Tallies | src/context/FilterContext.jsx:89-92 | `orgCounts` built release by release (TalliesCount, TalliesKeys) |
| FilterContext.TalliesCount | src/context/FilterContext.jsx:89-92 | a company is counted iff some release is from it, and its count is its number of releases |
| FilterContext.TalliesKeys | src/context/FilterContext.jsx:89-92 | counted companies come in order of first appearance |
| FilterContext.CountByCompany | src/context/FilterContext.jsx:89-92 | the loop fills the reference counts |
| FilterContext.MostActive | src/context/FilterContext.jsx:93 | none exactly when nothing was counted |
| FilterContext.MostActiveIsFirstMaximum | src/context/FilterContext.jsx:93 | the entry shown has the highest count, and every entry before it has a lower one |
| FilterContext.ComputeStats | src/context/FilterContext.jsx:81-102 | the memo body yields the reference stats |
| FilterContext.StatsOf | src/context/FilterContext.jsx:81-102 | the `stats` memo's value (StatsSpec, MostActiveSpec) |
| FilterContext.StatsSpec | src/context/FilterContext.jsx:81-102 | once ready: total models, summed downloads, `newThisWeek` equal to the number of positions holding a release dated strictly after a week before now, the filtered count, and a most active org iff there are releases |
| Base.FilterCount | src/context/FilterContext.jsx:84-86 | the length of a filtered list is the number of positions whose element passes |
| FilterContext.MostActiveSpec | src/context/FilterContext.jsx:89-99 | the most active company's count is its number of releases, no company has more, and every company seen first before it has fewer |
| FilterContext.Distinct | src/context/FilterContext.jsx:106 | no duplicates, and the same members as the input |
| FilterContext.BeforeTransitive | src/context/FilterContext.jsx:106 | the default string order is transitive |
| FilterContext.BeforeTotal | src/context/FilterContext.jsx:106 | any two different strings are ordered one way or the other |
| FilterContext.SortStrings | src/context/FilterContext.jsx:106 | the sort is a permutation |
| FilterContext.SortStringsAscending | src/context/FilterContext.jsx:106 | a list without duplicates comes out in strictly ascending order |
| FilterContext.AvailableTypes | src/context/FilterContext.jsx:105-108 | a type is offered iff it is non-empty and some release has it |
| FilterContext.AvailableTypesMembers | src/context/FilterContext.jsx:105-108 | offered types are exactly the non-empty types of the releases |
| FilterContext.AvailableTypesAscending | src/context/FilterContext.jsx:105-108 | the offered types are strictly ascending, so each appears once |

## Left out

- Network I/O and concurrency are not modelled. `fetchOrgModels`, `Promise.allSettled` and the pause between batches become one input outcome per organisation: rejected, or fulfilled with a list. An HTTP error, which the source turns into an empty list, is a fulfilled empty list.
- `localStorage`, `JSON.stringify` and `JSON.parse` become an in-memory map. A stored item is a parsed entry or text that does not parse, and serialising then parsing is taken to round-trip. A parsable item of another shape and storage exceptions other than a failed write are not modelled.
- Cache.LookupValid: the entry is valid while `now - timestamp <= 30 min`, as the code does it at huggingfaceApi.js:24. A strict bound would reject the boundary.
- Clock readings: one `now` stands for every `Date.now()` in a fetch cycle, including `fetchedAt` and the cache timestamp. Dates are integer milliseconds, and ISO date parsing is not modelled.
- `Math.log10` is the parameter `log10`, so scores are exact only up to it. ModelUtils.QualityScore and Acquisition.ScoreModel state bounds and monotonicity, not digit-exact values.
- Acquisition.FormatDownloads: `toFixed(1)` is modelled as round-half-up on integer tenths. The binary floating-point rounding of `toFixed` on non-representable halves is not modelled.
- Acquisition.FormatParams: the 'T' and 'B' texts use the same round-half-up tenths. For a total of 1,150,000,000 the source prints "1.1B", because the double nearest 1.15 lies below it, and the model prints "1.2B".
- ModelUtils.SizeBucket: `parseFloat` is modelled exactly on the extracted digits and dots (a leading number, at most one decimal point), not with binary floating point.
- Connections.Seed: the distance test compares the squared distance with 100 instead of taking `Math.sqrt`. The floating-point `%` seed is computed exactly on reals.
- Sorting by release date: the source's comparator yields NaN for a model without `createdAt`, and the resulting order depends on the engine. The model ranks undated models below every dated one, in the 'recent' sort, the feed and `modelReleases`.
- JavaScript objects enumerate integer-like keys first, in numeric order. `OrderedDict` keeps plain insertion order; org keys and company names are not integer-like.
- FilterContext.SortStrings: the default string sort compares UTF-16 code units. The model compares characters, which differs only for characters outside the Basic Multilingual Plane.
- FilterContext.FiltersToggled: `toggleFilter` only addresses the two categories the filter state has, `type` and `size`. A toggle of any other key of `filters` is not modelled.
- Text.Lower: `toLowerCase` is modelled on ASCII letters only.
- Acquisition.DisplayName: a raw entry missing both `id` and `modelId` has both as the empty string here, so its name is "". In the source the name is then `undefined`, and `filterModels` with a search text throws at `m.name.toLowerCase()` (src/services/modelUtils.js:114). That exception is not modelled.
- ModelUtils.WithinTimeRange: a range key naming an `Object.prototype` member, such as 'toString' or 'constructor', makes `limits[range]` a function in the source, so `days <= limits[range]` is false and every model is rejected. The model treats such a key as unknown and accepts every model.
- `velocityFormatted` and `formatDate` are not part of this model: they produce display text that no modelled operation reads.
- The `smartInsights` and `whatsNew` memos are not modelled separately: they call `computeInsights` and `groupByRecency` once the data is ready, and those are modelled.
- Static tables (`ORG_TO_COMPANY`, `TRACKED_ORGS`, `COMPANY_COLORS`, `researchCenters`) are parameters. src/data/companyMapping is not part of this model.
- UI components, the data provider's promise plumbing, and timers are not modelled.
