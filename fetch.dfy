/** `fetchAllData`: serve the cache when it holds a valid entry; otherwise
 *  go through the tracked organisations in batches of four, keep the best
 *  models of each organisation whose request succeeded with a non-empty
 *  list, derive companies, arcs and the feed, and cache the result. The
 *  outcome of each organisation's request is an input: the requests, their
 *  concurrency and the pause between batches are not modelled. */
module Fetch {
  import opened Base
  import opened OrderedDict
  import opened StableSort
  import opened Records
  import opened Acquisition
  import opened Companies
  import opened Connections
  import opened LiveFeed
  import opened Cache

  const BATCH_SIZE: nat := 4

  /** How one organisation's request settled. */
  datatype Outcome = Rejected | Fulfilled(models: seq<RawModel>)

  /** The models kept from an organisation's list: the best `MAX_PER_ORG`
   *  by score, each normalised. */
  function Transformed(list: seq<RawModel>, org: string, now: int, log10: nat -> real,
                       orgToCompany: map<string, CompanyInfo>): (r: seq<Model>)
    ensures |r| == Min(MAX_PER_ORG, |list|)
  {
    var top := PickTopModels(list, now, log10, MAX_PER_ORG);
    seq(|top|, i requires 0 <= i < |top| => TransformModel(top[i], org, orgToCompany))
  }

  /** An organisation contributes only when its request succeeded with a
   *  non-empty list. */
  predicate Contributes(outcome: Outcome) {
    outcome.Fulfilled? && |outcome.models| > 0
  }

  /** `modelsByOrg` and `allModels` as the loop builds them. */
  datatype Gathered = Gathered(byOrg: Dict<seq<Model>>, all: seq<Model>)

  /** One settled request handled: a contributing organisation's models
   *  are filed under it and appended to the list of all models. */
  function Step(g: Gathered, org: string, outcome: Outcome, now: int, log10: nat -> real,
                orgToCompany: map<string, CompanyInfo>): (r: Gathered)
    requires g.byOrg.Valid()
    ensures r.byOrg.Valid()
  {
    if Contributes(outcome) then
      var models := Transformed(outcome.models, org, now, log10, orgToCompany);
      Gathered(Put(g.byOrg, org, models), g.all + models)
    else g
  }

  function Gather(orgs: seq<string>, outcomes: seq<Outcome>, now: int, log10: nat -> real,
                  orgToCompany: map<string, CompanyInfo>): (g: Gathered)
    requires |outcomes| == |orgs|
    ensures g.byOrg.Valid()
  {
    if orgs == [] then Gathered(Empty(), [])
    else
      var n := |orgs| - 1;
      Step(Gather(orgs[..n], outcomes[..n], now, log10, orgToCompany), orgs[n], outcomes[n], now, log10, orgToCompany)
  }

  /** The progress reports of a full run over `n` organisations:
   *  (1, n), (2, n), ..., (n, n). */
  function Progress(n: nat): (r: seq<(nat, nat)>)
    ensures |r| == n && forall k :: 0 <= k < n ==> r[k] == (k + 1, n)
  {
    seq(n, k requires 0 <= k < n => (k + 1, n))
  }

  /** The dataset a full fetch builds. */
  function FreshData(orgs: seq<string>, outcomes: seq<Outcome>, now: int, log10: nat -> real,
                     orgToCompany: map<string, CompanyInfo>, colors: map<string, string>,
                     centers: seq<ResearchCenter>): Dataset
    requires |outcomes| == |orgs|
  {
    var g := Gather(orgs, outcomes, now, log10, orgToCompany);
    var companies := Sort(Values(CompanyTable(Entries(g.byOrg), orgToCompany, colors)), ByTotalDownloads());
    Dataset(companies, Sort(g.all, ByReleaseDate()), Arcs(companies, centers),
            BuildLiveUpdates(g.all, now), g.byOrg, now)
  }

  lemma GatherSnoc(orgs: seq<string>, outcomes: seq<Outcome>, k: nat, now: int, log10: nat -> real,
                   orgToCompany: map<string, CompanyInfo>)
    requires |outcomes| == |orgs| && k < |orgs|
    ensures Gather(orgs[..k + 1], outcomes[..k + 1], now, log10, orgToCompany)
         == Step(Gather(orgs[..k], outcomes[..k], now, log10, orgToCompany), orgs[k], outcomes[k], now, log10, orgToCompany)
  {
    assert orgs[..k + 1][..k] == orgs[..k];
    assert outcomes[..k + 1][..k] == outcomes[..k];
  }

  lemma ProgressSnoc(n: nat, k: nat)
    requires k < n
    ensures Progress(n)[..k + 1] == Progress(n)[..k] + [(k + 1, n)]
  {
  }

  /** The body of `results.forEach`: one organisation's result handled,
   *  `acc` holding `modelsByOrg` and `allModels`. */
  method Absorb(acc: Gathered, org: string, result: Outcome, now: int,
                log10: nat -> real, orgToCompany: map<string, CompanyInfo>)
    returns (next: Gathered)
    requires acc.byOrg.Valid()
    ensures next == Step(acc, org, result, now, log10, orgToCompany)
  {
    next := acc;
    if result.Fulfilled? && |result.models| > 0 {
      var transformed := Transformed(result.models, org, now, log10, orgToCompany);
      next := Gathered(Put(acc.byOrg, org, transformed), acc.all + transformed);
    }
  }

  /** One batch: the results of `orgs[start..end]` handled in order, with
   *  a progress report after each. */
  method HandleBatch(orgs: seq<string>, outcomes: seq<Outcome>, start: nat, end: nat, now: int,
                     log10: nat -> real, orgToCompany: map<string, CompanyInfo>,
                     acc: Gathered, progress: seq<(nat, nat)>)
    returns (acc': Gathered, progress': seq<(nat, nat)>)
    requires |outcomes| == |orgs| && start <= end <= |orgs|
    requires acc == Gather(orgs[..start], outcomes[..start], now, log10, orgToCompany)
    requires progress == Progress(|orgs|)[..start]
    ensures acc' == Gather(orgs[..end], outcomes[..end], now, log10, orgToCompany)
    ensures progress' == Progress(|orgs|)[..end]
  {
    acc', progress' := acc, progress;
    for completed := start to end
      invariant acc' == Gather(orgs[..completed], outcomes[..completed], now, log10, orgToCompany)
      invariant progress' == Progress(|orgs|)[..completed]
    {
      acc', progress' := HandleOne(orgs, outcomes, completed, now, log10, orgToCompany, acc', progress');
    }
  }

  /** One result of a batch handled, then reported: `completed` results
   *  are done before it and `completed + 1` after. */
  method HandleOne(orgs: seq<string>, outcomes: seq<Outcome>, completed: nat, now: int,
                   log10: nat -> real, orgToCompany: map<string, CompanyInfo>,
                   acc: Gathered, progress: seq<(nat, nat)>)
    returns (acc': Gathered, progress': seq<(nat, nat)>)
    requires |outcomes| == |orgs| && completed < |orgs|
    requires acc == Gather(orgs[..completed], outcomes[..completed], now, log10, orgToCompany)
    requires progress == Progress(|orgs|)[..completed]
    ensures acc' == Gather(orgs[..completed + 1], outcomes[..completed + 1], now, log10, orgToCompany)
    ensures progress' == Progress(|orgs|)[..completed + 1]
  {
    GatherSnoc(orgs, outcomes, completed, now, log10, orgToCompany);
    acc' := Absorb(acc, orgs[completed], outcomes[completed], now, log10, orgToCompany);
    ProgressSnoc(|orgs|, completed);
    progress' := progress + [(completed + 1, |orgs|)];
  }

  /** The batch loop of `fetchAllData`: organisations taken four at a
   *  time, each settled request handled in turn, and `onProgress` called
   *  after each with the number handled so far; `progress` lists those
   *  calls. */
  method GatherAll(orgs: seq<string>, outcomes: seq<Outcome>, now: int, log10: nat -> real,
                   orgToCompany: map<string, CompanyInfo>)
    returns (acc: Gathered, progress: seq<(nat, nat)>)
    requires |outcomes| == |orgs|
    ensures acc == Gather(orgs, outcomes, now, log10, orgToCompany)
    ensures progress == Progress(|orgs|)
  {
    acc := Gathered(Empty(), []);
    progress := [];
    var i: nat := 0;
    while i < |orgs|
      invariant acc == Gather(orgs[..Min(i, |orgs|)], outcomes[..Min(i, |orgs|)], now, log10, orgToCompany)
      invariant progress == Progress(|orgs|)[..Min(i, |orgs|)]
    {
      acc, progress := HandleBatch(orgs, outcomes, i, Min(i + BATCH_SIZE, |orgs|), now, log10, orgToCompany, acc, progress);
      i := i + BATCH_SIZE;
    }
    assert orgs[..|orgs|] == orgs && outcomes[..|outcomes|] == outcomes;
  }

  /** `fetchAllData(onProgress)`: `progress` lists the calls made to
   *  `onProgress`, `fits` says whether the store accepts the write, and one
   *  `now` stands for every reading of the clock. */
  method FetchAllData(storage: Storage, orgs: seq<string>, outcomes: seq<Outcome>, now: int,
                      log10: nat -> real, orgToCompany: map<string, CompanyInfo>,
                      colors: map<string, string>, centers: seq<ResearchCenter>, fits: bool)
    returns (data: Dataset, progress: seq<(nat, nat)>)
    requires |outcomes| == |orgs|
    modifies storage
    ensures var cached, read := Lookup(old(storage.items), now), AfterRead(old(storage.items), now);
            if cached.Some? then
              data == cached.value && progress == [] && storage.items == read
            else
              && data == FreshData(orgs, outcomes, now, log10, orgToCompany, colors, centers)
              && progress == Progress(|orgs|)
              && storage.items == if fits then read[CACHE_KEY := Entry(now, data)] else read
  {
    var cached := storage.GetCache(now);
    if cached.Some? {
      return cached.value, [];
    }
    var acc;
    acc, progress := GatherAll(orgs, outcomes, now, log10, orgToCompany);
    var byOrg, allModels := acc.byOrg, acc.all;
    var companies := BuildCompanies(byOrg, orgToCompany, colors);
    var connections := BuildConnections(companies, centers);
    var liveUpdates := BuildLiveUpdates(allModels, now);
    var releases := SortedCopy(allModels, ByReleaseDate());
    data := Dataset(companies, releases, connections, liveUpdates, byOrg, now);
    storage.SetCache(data, now, fits);
  }

  /** What one handled result does to `modelsByOrg`. */
  lemma StepFiles(g: Gathered, org: string, outcome: Outcome, now: int, log10: nat -> real,
                  orgToCompany: map<string, CompanyInfo>)
    requires g.byOrg.Valid()
    ensures Step(g, org, outcome, now, log10, orgToCompany).byOrg.values
         == if Contributes(outcome) then g.byOrg.values[org := Transformed(outcome.models, org, now, log10, orgToCompany)]
            else g.byOrg.values
  {
  }

  /** Every organisation filed in `modelsByOrg` had a request that succeeded
   *  with a non-empty list, and holds the models kept from the last such
   *  list. */
  lemma {:induction false} GatherOrigin(orgs: seq<string>, outcomes: seq<Outcome>, org: string, now: int,
                                        log10: nat -> real, orgToCompany: map<string, CompanyInfo>)
    returns (k: nat)
    requires |outcomes| == |orgs|
    requires org in Gather(orgs, outcomes, now, log10, orgToCompany).byOrg.values
    ensures k < |orgs| && orgs[k] == org && Contributes(outcomes[k])
    ensures Gather(orgs, outcomes, now, log10, orgToCompany).byOrg.values[org]
         == Transformed(outcomes[k].models, org, now, log10, orgToCompany)
    ensures forall j :: k < j < |orgs| && orgs[j] == org ==> !Contributes(outcomes[j])
  {
    var n := |orgs| - 1;
    var prev := Gather(orgs[..n], outcomes[..n], now, log10, orgToCompany);
    assert Gather(orgs, outcomes, now, log10, orgToCompany) == Step(prev, orgs[n], outcomes[n], now, log10, orgToCompany);
    StepFiles(prev, orgs[n], outcomes[n], now, log10, orgToCompany);
    if orgs[n] == org && Contributes(outcomes[n]) {
      k := n;
    } else {
      k := GatherOrigin(orgs[..n], outcomes[..n], org, now, log10, orgToCompany);
      NoneLater(orgs, outcomes, org, k);
    }
  }

  /** No entry after `k` contributes for `org` when none does before the
   *  last entry and the last one does not. */
  lemma NoneLater(orgs: seq<string>, outcomes: seq<Outcome>, org: string, k: nat)
    requires |outcomes| == |orgs| && k < |orgs| - 1
    requires !(orgs[|orgs| - 1] == org && Contributes(outcomes[|orgs| - 1]))
    requires var n := |orgs| - 1;
             k < n && forall j :: k < j < n && orgs[..n][j] == org ==> !Contributes(outcomes[..n][j])
    ensures orgs[..|orgs| - 1][k] == orgs[k] && outcomes[..|orgs| - 1][k] == outcomes[k]
    ensures forall j :: k < j < |orgs| && orgs[j] == org ==> !Contributes(outcomes[j])
  {
    var n := |orgs| - 1;
    forall j | k < j < |orgs| && orgs[j] == org
      ensures !Contributes(outcomes[j])
    {
      if j < n {
        assert orgs[..n][j] == orgs[j] && outcomes[..n][j] == outcomes[j];
      }
    }
  }

  /** Every organisation whose request succeeded with a non-empty list is
   *  filed in `modelsByOrg`. */
  lemma {:induction false} GatherComplete(orgs: seq<string>, outcomes: seq<Outcome>, k: nat, now: int,
                                          log10: nat -> real, orgToCompany: map<string, CompanyInfo>)
    requires |outcomes| == |orgs| && k < |orgs| && Contributes(outcomes[k])
    ensures orgs[k] in Gather(orgs, outcomes, now, log10, orgToCompany).byOrg.values
  {
    var n := |orgs| - 1;
    var prev := Gather(orgs[..n], outcomes[..n], now, log10, orgToCompany);
    assert Gather(orgs, outcomes, now, log10, orgToCompany) == Step(prev, orgs[n], outcomes[n], now, log10, orgToCompany);
    StepFiles(prev, orgs[n], outcomes[n], now, log10, orgToCompany);
    if k < n {
      assert orgs[..n][k] == orgs[k] && outcomes[..n][k] == outcomes[k];
      GatherComplete(orgs[..n], outcomes[..n], k, now, log10, orgToCompany);
    }
  }

  /** The lists of a sequence of lists, joined. */
  function Concat<T>(lists: seq<seq<T>>): (r: seq<T>)
  {
    if lists == [] then [] else Concat(lists[..|lists| - 1]) + lists[|lists| - 1]
  }

  /** With each organisation tracked once, `allModels` is the concatenation
   *  of the lists filed in `modelsByOrg`, in the order they were filed. */
  lemma {:induction false} GatherConcat(orgs: seq<string>, outcomes: seq<Outcome>, now: int,
                                        log10: nat -> real, orgToCompany: map<string, CompanyInfo>)
    requires |outcomes| == |orgs| && NoDups(orgs)
    ensures var g := Gather(orgs, outcomes, now, log10, orgToCompany);
            g.all == Concat(Values(g.byOrg))
  {
    if orgs != [] {
      var n := |orgs| - 1;
      var prev := Gather(orgs[..n], outcomes[..n], now, log10, orgToCompany);
      GatherConcat(orgs[..n], outcomes[..n], now, log10, orgToCompany);
      if Contributes(outcomes[n]) {
        if orgs[n] in prev.byOrg.values {
          var k := GatherOrigin(orgs[..n], outcomes[..n], orgs[n], now, log10, orgToCompany);
          assert false;
        }
        var models := Transformed(outcomes[n].models, orgs[n], now, log10, orgToCompany);
        ValuesPutNew(prev.byOrg, orgs[n], models);
        assert Values(Put(prev.byOrg, orgs[n], models))[..|Values(prev.byOrg)|] == Values(prev.byOrg);
      }
    }
  }

  /** At most `MAX_PER_ORG` models are kept per organisation. */
  lemma {:induction false} GatherCount(orgs: seq<string>, outcomes: seq<Outcome>, now: int,
                                       log10: nat -> real, orgToCompany: map<string, CompanyInfo>)
    requires |outcomes| == |orgs|
    ensures |Gather(orgs, outcomes, now, log10, orgToCompany).all| <= MAX_PER_ORG * |orgs|
  {
    if orgs != [] {
      var n := |orgs| - 1;
      GatherCount(orgs[..n], outcomes[..n], now, log10, orgToCompany);
      MulSucc(n, MAX_PER_ORG);
    }
  }
}
