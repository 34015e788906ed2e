/** `buildLiveUpdates`: the feed of the twenty newest releases, each as a
 *  relative time, a sentence and the company name. */
module LiveFeed {
  import opened Base
  import opened StableSort
  import opened Records
  import opened Acquisition

  const FEED_SIZE: nat := 20

  function UpdateOf(m: Model, now: int): LiveUpdate {
    LiveUpdate(TimeAgo(m.createdAt, now).Render(),
               m.company + " released " + m.name + " — " + m.downloadsFormatted + " downloads",
               m.company)
  }

  /** The models the feed shows: a sorted copy of the input, cut to twenty. */
  function FeedModels(allModels: seq<Model>): seq<Model> {
    Take(Sort(allModels, ByReleaseDate()), FEED_SIZE)
  }

  /** `buildLiveUpdates`: one update per feed model, in feed order. */
  function BuildLiveUpdates(allModels: seq<Model>, now: int): (r: seq<LiveUpdate>)
    ensures |r| == Min(FEED_SIZE, |allModels|)
    ensures forall i :: 0 <= i < |r| ==> r[i] == UpdateOf(FeedModels(allModels)[i], now)
  {
    var feed := FeedModels(allModels);
    seq(|feed|, i requires 0 <= i < |feed| => UpdateOf(feed[i], now))
  }

  /** Ranking at least as high by release date: a dated model is only
   *  preceded by dated models at least as new. */
  lemma NotOlder(x: Model, y: Model)
    requires !Less(ByReleaseDate()(x), ByReleaseDate()(y)) && y.createdAt.Some?
    ensures x.createdAt.Some? && x.createdAt.value >= y.createdAt.value
  {
  }

  /** The feed is newest first: an undated model comes only after every
   *  dated one. */
  lemma FeedOrdered(allModels: seq<Model>)
    ensures var feed := FeedModels(allModels);
            forall i, j :: 0 <= i < j < |feed| && feed[j].createdAt.Some? ==>
              feed[i].createdAt.Some? && feed[i].createdAt.value >= feed[j].createdAt.value
  {
    var feed := FeedModels(allModels);
    TopK(allModels, ByReleaseDate(), FEED_SIZE);
    forall i, j | 0 <= i < j < |feed| && feed[j].createdAt.Some?
      ensures feed[i].createdAt.Some? && feed[i].createdAt.value >= feed[j].createdAt.value
    {
      NotOlder(feed[i], feed[j]);
    }
  }

  /** The feed holds the newest models: min(20, n) of them, drawn from the
   *  input, and nothing left out is newer than a model shown. */
  lemma FeedIsNewest(allModels: seq<Model>)
    ensures var feed := FeedModels(allModels);
            && |feed| == Min(FEED_SIZE, |allModels|)
            && multiset(feed) <= multiset(allModels)
            && (forall x, y :: x in feed && y in multiset(allModels) - multiset(feed) && y.createdAt.Some? ==>
                  x.createdAt.Some? && x.createdAt.value >= y.createdAt.value)
  {
    var feed := FeedModels(allModels);
    TopK(allModels, ByReleaseDate(), FEED_SIZE);
    forall x, y | x in feed && y in multiset(allModels) - multiset(feed) && y.createdAt.Some?
      ensures x.createdAt.Some? && x.createdAt.value >= y.createdAt.value
    {
      NotOlder(x, y);
    }
  }

  /** Models of one date appear in the feed in the order of the input. */
  lemma FeedStable(allModels: seq<Model>, r: Rank)
    ensures Filter(FeedModels(allModels), WithRank(ByReleaseDate(), r)) <= Filter(allModels, WithRank(ByReleaseDate(), r))
  {
    TopKStable(allModels, ByReleaseDate(), FEED_SIZE, r);
  }
}
