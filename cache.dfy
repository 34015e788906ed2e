/** The browser cache of one fetch cycle: a key-value store (the page's
 *  `localStorage`) that holds, under a versioned key, the time of the fetch
 *  and the dataset. Serialising and parsing are taken to round-trip, so an
 *  item is either a parsed entry or text that does not parse. */
module Cache {
  import opened Base
  import opened Records

  const CACHE_VERSION: nat := 2
  const CACHE_KEY: string := "hf_model_cache_v2"
  /** The key of the unversioned cache earlier releases wrote. */
  const LEGACY_KEY: string := "hf_model_cache"
  /** Thirty minutes, in milliseconds. */
  const CACHE_TTL: nat := 30 * 60 * 1000

  datatype Stored = Entry(timestamp: int, data: Dataset) | Unparsable

  /** The entry is past its time: more than the TTL has gone by. */
  predicate Expired(s: Stored, now: int) {
    s.Entry? && now - s.timestamp > CACHE_TTL
  }

  /** What `getCache` returns for a store holding `items`. */
  function Lookup(items: map<string, Stored>, now: int): Option<Dataset> {
    if CACHE_KEY !in items then None
    else
      match items[CACHE_KEY]
      case Unparsable => None
      case Entry(ts, data) => if now - ts > CACHE_TTL then None else Some(data)
  }

  /** The store after `getCache`: the legacy key is gone, and so is an
   *  expired entry; text that does not parse stays. */
  function AfterRead(items: map<string, Stored>, now: int): map<string, Stored> {
    var kept := items - {LEGACY_KEY};
    if CACHE_KEY in kept && Expired(kept[CACHE_KEY], now) then kept - {CACHE_KEY} else kept
  }

  class Storage {
    var items: map<string, Stored>

    constructor ()
      ensures items == map[]
    {
      items := map[];
    }

    /** `getCache`. */
    method GetCache(now: int) returns (r: Option<Dataset>)
      modifies this
      ensures r == Lookup(old(items), now)
      ensures items == AfterRead(old(items), now)
    {
      items := items - {LEGACY_KEY};
      if CACHE_KEY !in items {
        return None;
      }
      match items[CACHE_KEY]
      case Unparsable =>
        r := None;
      case Entry(ts, data) =>
        if now - ts > CACHE_TTL {
          items := items - {CACHE_KEY};
          r := None;
        } else {
          r := Some(data);
        }
    }

    /** `setCache`: `fits` is false when the store refuses the write (its
     *  quota is exceeded); the failure is swallowed. */
    method SetCache(data: Dataset, now: int, fits: bool)
      modifies this
      ensures items == if fits then old(items)[CACHE_KEY := Entry(now, data)] else old(items)
    {
      if fits {
        items := items[CACHE_KEY := Entry(now, data)];
      }
    }

    /** `clearCache`: both the current and the legacy key are removed. */
    method ClearCache()
      modifies this
      ensures items == old(items) - {CACHE_KEY, LEGACY_KEY}
    {
      items := items - {CACHE_KEY};
      items := items - {LEGACY_KEY};
    }
  }

  /** A read returns the stored data exactly when the key holds a parsed
   *  entry no older than the TTL; the boundary itself is still valid. */
  lemma LookupValid(items: map<string, Stored>, now: int)
    ensures Lookup(items, now).Some?
        <==> CACHE_KEY in items && items[CACHE_KEY].Entry? && now - items[CACHE_KEY].timestamp <= CACHE_TTL
    ensures Lookup(items, now).Some? ==> Lookup(items, now).value == items[CACHE_KEY].data
  {
  }

  /** After a read the legacy key is gone, an expired entry is gone, text
   *  that does not parse and a valid entry stay, and every other key is
   *  untouched. */
  lemma AfterReadKeys(items: map<string, Stored>, now: int)
    ensures LEGACY_KEY !in AfterRead(items, now)
    ensures CACHE_KEY in AfterRead(items, now) <==> CACHE_KEY in items && !Expired(items[CACHE_KEY], now)
    ensures forall k :: k != CACHE_KEY && k != LEGACY_KEY ==>
              (k in AfterRead(items, now) <==> k in items) &&
              (k in items ==> AfterRead(items, now)[k] == items[k])
  {
    assert CACHE_KEY != LEGACY_KEY by {
      assert |CACHE_KEY| != |LEGACY_KEY|;
    }
  }

  /** Reading again at the same time returns the same and changes nothing
   *  more. */
  lemma ReadTwice(items: map<string, Stored>, now: int)
    ensures Lookup(AfterRead(items, now), now) == Lookup(items, now)
    ensures AfterRead(AfterRead(items, now), now) == AfterRead(items, now)
  {
    assert CACHE_KEY != LEGACY_KEY by {
      assert |CACHE_KEY| != |LEGACY_KEY|;
    }
  }

  /** What was written at `t` reads back until the TTL has passed, and not
   *  after. */
  lemma WriteThenRead(items: map<string, Stored>, data: Dataset, t: int, now: int)
    ensures Lookup(items[CACHE_KEY := Entry(t, data)], now) == (if now - t <= CACHE_TTL then Some(data) else None)
  {
  }

  /** Nothing reads back after a clear. */
  lemma ClearThenRead(items: map<string, Stored>, now: int)
    ensures Lookup(items - {CACHE_KEY, LEGACY_KEY}, now) == None
  {
  }

  /** An entry that has expired stays expired as time goes on. */
  lemma ExpiryIsFinal(items: map<string, Stored>, now: int, later: int)
    requires now <= later && CACHE_KEY in items && Expired(items[CACHE_KEY], now)
    ensures Lookup(items, later) == None
  {
  }
}
