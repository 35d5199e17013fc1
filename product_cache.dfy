// The product cache service: a two-level cache (memory in front of the
// browser's localStorage) for the suggested products and the door counts,
// a localStorage-only cache for the doors home page, a five-minute memory
// cache of search results, and a map of product details.
//
// Payloads kept in localStorage and the detail map are the JSON text of the
// cached objects, so `JSON.stringify` and `JSON.parse` are the identity here;
// a cached payload is never empty. The search map holds the result arrays
// themselves, whose element type `R` is left to the caller.
// Times are milliseconds since the epoch, passed in as `now`.
module ProductCache {
  import opened Wrappers
  import opened Strings

  const PRODUCT_CACHE_KEY := "product_cache"
  const PRODUCT_CACHE_EXPIRY_KEY := "suggested_products_cache_expiry"
  const DOOR_COUNTS_CACHE_KEY := "door_counts_cache"
  const DOOR_COUNTS_CACHE_EXPIRY_KEY := "door_counts_cache_expiry"
  const DOORS_HOME_CACHE_KEY := "doors_home_cache"
  const DOORS_HOME_CACHE_EXPIRY_KEY := "doors_home_cache_expiry"

  /** The six localStorage keys differ in length, so no two of them are equal. */
  lemma KeyLengths()
    ensures |PRODUCT_CACHE_KEY| == 13 && |PRODUCT_CACHE_EXPIRY_KEY| == 31
    ensures |DOOR_COUNTS_CACHE_KEY| == 17 && |DOOR_COUNTS_CACHE_EXPIRY_KEY| == 24
    ensures |DOORS_HOME_CACHE_KEY| == 16 && |DOORS_HOME_CACHE_EXPIRY_KEY| == 23
  {
  }

  /** Three hours, the lifetime of each persisted cache. */
  const CACHE_DURATION: nat := 3 * 60 * 60 * 1000
  /** Five minutes, the lifetime of a cached search. */
  const SEARCH_CACHE_DURATION: nat := 5 * 60 * 1000

  type Storage = map<string, string>

  /** A memory cache entry: the payload and its expiry time, both `null` when empty. */
  datatype MemorySlot = MemorySlot(data: Option<string>, expiry: Option<int>)

  const EmptySlot := MemorySlot(None, None)

  /** The memory entry is present and not expired (an expiry of 0 is falsy in JavaScript). */
  predicate MemoryHit(slot: MemorySlot, now: nat) {
    slot.data.Some? && slot.expiry.Some? && slot.expiry.value != 0 && now < slot.expiry.value
  }

  /** The stored expiry under `ek` is a number later than `now`. */
  predicate ExpiryLive(storage: Storage, ek: string, now: nat) {
    ek in storage && storage[ek] != "" && ParseInt(storage[ek]).Some? && now < ParseInt(storage[ek]).value
  }

  /** What a lookup in localStorage alone answers: the stored payload while its stored expiry lies ahead. */
  function StoredValue(storage: Storage, dk: string, ek: string, now: nat): Option<string> {
    if dk in storage && storage[dk] != "" && ExpiryLive(storage, ek, now) then Some(storage[dk]) else None
  }

  /** localStorage after a payload and its expiry have been written. */
  function Written(storage: Storage, dk: string, ek: string, data: string, expiry: nat): Storage {
    storage[dk := data][ek := NatToString(expiry)]
  }

  /**
   * The memory entry mirrors localStorage: whenever it holds a payload,
   * localStorage holds the same payload under `dk` and the same expiry,
   * as decimal text, under `ek`.
   */
  predicate Mirrors(slot: MemorySlot, storage: Storage, dk: string, ek: string) {
    (slot.data.Some? <==> slot.expiry.Some?) &&
    (slot.data.Some? ==>
      slot.data.value != "" && dk in storage && storage[dk] == slot.data.value &&
      ek in storage && ParseInt(storage[ek]) == Some(slot.expiry.value))
  }

  /** The mirror holds in any localStorage that agrees with `storage` on the two keys. */
  lemma MirrorsFrame(slot: MemorySlot, storage: Storage, storage': Storage, dk: string, ek: string)
    requires Mirrors(slot, storage, dk, ek)
    requires dk in storage ==> dk in storage' && storage'[dk] == storage[dk]
    requires ek in storage ==> ek in storage' && storage'[ek] == storage[ek]
    ensures Mirrors(slot, storage', dk, ek)
  {
  }

  /**
   * How far the two `localStorage.setItem` calls of a write got. A refused
   * write (a full quota, say) throws; the error is caught and logged, and
   * any later call is skipped.
   */
  datatype WriteOutcome = BothStored | NothingStored | PayloadOnly

  /** localStorage after a write that ended with `outcome`. */
  function WrittenAs(storage: Storage, dk: string, ek: string, data: string, expiry: nat, outcome: WriteOutcome): Storage {
    match outcome
    case BothStored => Written(storage, dk, ek, data, expiry)
    case NothingStored => storage
    case PayloadOnly => storage[dk := data]
  }

  /** The two-level read: the memory entry while it is live, else what localStorage alone answers. */
  function TwoLevelLookup(slot: MemorySlot, storage: Storage, dk: string, ek: string, now: nat): Option<string> {
    if MemoryHit(slot, now) then slot.data else StoredValue(storage, dk, ek, now)
  }

  /** While memory mirrors localStorage, the two-level read answers what localStorage alone would. */
  lemma MirroredLookup(slot: MemorySlot, storage: Storage, dk: string, ek: string, now: nat)
    requires Mirrors(slot, storage, dk, ek)
    ensures TwoLevelLookup(slot, storage, dk, ek, now) == StoredValue(storage, dk, ek, now)
  {
    assert ParseInt("") == None;
  }

  /** A stored write leaves memory mirroring localStorage. */
  lemma WriteMirrors(storage: Storage, dk: string, ek: string, data: string, expiry: nat)
    requires dk != ek && data != ""
    ensures Mirrors(MemorySlot(Some(data), Some(expiry)), Written(storage, dk, ek, data, expiry), dk, ek)
  {
    ParseIntOfNatToString(expiry);
  }

  /** A stored write mirrors the written slot and keeps another cache's mirror. */
  lemma StoredWriteMirrors(other: MemorySlot, storage: Storage, dk: string, ek: string, dk2: string, ek2: string,
                           data: string, expiry: nat)
    requires dk != ek && data != "" && dk2 != dk && dk2 != ek && ek2 != dk && ek2 != ek
    requires Mirrors(other, storage, dk2, ek2)
    ensures Mirrors(MemorySlot(Some(data), Some(expiry)), Written(storage, dk, ek, data, expiry), dk, ek)
    ensures Mirrors(other, Written(storage, dk, ek, data, expiry), dk2, ek2)
  {
    WriteMirrors(storage, dk, ek, data, expiry);
    MirrorsFrame(other, storage, Written(storage, dk, ek, data, expiry), dk2, ek2);
  }

  /**
   * After a refused write the new payload is still served from memory until
   * it expires, although localStorage may go on holding an older payload
   * that a fresh page would read.
   */
  lemma FailedWriteServesMemory(storage: Storage, dk: string, ek: string, data: string, expiry: nat,
                                outcome: WriteOutcome, now: nat)
    requires data != "" && expiry != 0 && now < expiry
    ensures TwoLevelLookup(MemorySlot(Some(data), Some(expiry)), WrittenAs(storage, dk, ek, data, expiry, outcome), dk, ek, now)
            == Some(data)
    ensures outcome.NothingStored? ==>
              StoredValue(WrittenAs(storage, dk, ek, data, expiry, outcome), dk, ek, now) == StoredValue(storage, dk, ek, now)
  {
  }

  /** Payload and expiry are stored together or not at all, and a stored expiry is a number. */
  predicate Paired(storage: Storage, dk: string, ek: string) {
    (dk in storage <==> ek in storage) &&
    (dk in storage ==> storage[dk] != "" && ParseInt(storage[ek]).Some?)
  }

  /** A written entry reads back exactly until it expires. */
  lemma StoredAfterWrite(storage: Storage, dk: string, ek: string, data: string, t0: nat, now: nat)
    requires dk != ek && data != ""
    ensures StoredValue(Written(storage, dk, ek, data, t0 + CACHE_DURATION), dk, ek, now)
            == if now < t0 + CACHE_DURATION then Some(data) else None
    ensures Paired(Written(storage, dk, ek, data, t0 + CACHE_DURATION), dk, ek)
  {
    var expiry := t0 + CACHE_DURATION;
    var w, e := Written(storage, dk, ek, data, expiry), NatToString(expiry);
    ParseIntOfNatToString(expiry);
    assert w[dk] == data && w[ek] == e;
  }

  /** A removed entry is never found again, and removal leaves the pair consistent. */
  lemma StoredAfterRemove(storage: Storage, dk: string, ek: string, now: nat)
    ensures StoredValue(storage - {dk, ek}, dk, ek, now) == None
    ensures Paired(storage - {dk, ek}, dk, ek)
  {
  }

  /** Writing or removing one cache's keys does not change what another cache finds. */
  lemma OtherCachesUnaffected(storage: Storage, dk: string, ek: string, dk2: string, ek2: string,
                              data: string, expiry: nat, now: nat)
    requires dk2 != dk && dk2 != ek && ek2 != dk && ek2 != ek
    ensures StoredValue(Written(storage, dk, ek, data, expiry), dk2, ek2, now) == StoredValue(storage, dk2, ek2, now)
    ensures StoredValue(storage - {dk, ek}, dk2, ek2, now) == StoredValue(storage, dk2, ek2, now)
  {
    var w := Written(storage, dk, ek, data, expiry);
    var d := storage - {dk, ek};
    assert (dk2 in w <==> dk2 in storage) && (ek2 in w <==> ek2 in storage);
    assert dk2 in storage ==> w[dk2] == storage[dk2] && d[dk2] == storage[dk2];
    assert ek2 in storage ==> w[ek2] == storage[ek2] && d[ek2] == storage[ek2];
    assert ExpiryLive(w, ek2, now) == ExpiryLive(storage, ek2, now);
    assert ExpiryLive(d, ek2, now) == ExpiryLive(storage, ek2, now);
  }

  /** For consistently stored pairs, a live expiry means a hit: checking validity agrees with looking up. */
  lemma {:induction false} ValidIffHit(storage: Storage, dk: string, ek: string, now: nat)
    requires Paired(storage, dk, ek)
    ensures ExpiryLive(storage, ek, now) <==> StoredValue(storage, dk, ek, now).Some?
  {
  }

  /** An entry of the search-results cache. */
  datatype SearchEntry<R> = SearchEntry(results: R, expiry: int)

  /** The search-cache key `${searchType}::${query}`. */
  function SearchKey(query: string, searchType: string): (k: string)
    ensures |k| == |searchType| + 2 + |query|
    ensures k[..|searchType|] == searchType && k[|searchType| + 2..] == query
  {
    searchType + "::" + query
  }

  /**
   * Search types carry no colon ('products', 'windows', 'doors'), so two
   * searches share a cache entry only when both type and query agree.
   */
  lemma {:induction false} SearchKeyInjective(q1: string, t1: string, q2: string, t2: string)
    requires ':' !in t1 && ':' !in t2
    ensures SearchKey(q1, t1) == SearchKey(q2, t2) <==> q1 == q2 && t1 == t2
  {
    var k1, k2 := SearchKey(q1, t1), SearchKey(q2, t2);
    if k1 == k2 {
      assert k1[|t1|] == ':' && k2[|t2|] == ':';
      assert t1 == k1[..|t1|] == k2[..|t2|] == t2;
      assert q1 == k1[|t1| + 2..] == k2[|t2| + 2..] == q2;
    }
  }

  /** What `getCachedSearchResults` answers for a key. */
  function SearchLookup<R>(cache: map<string, SearchEntry<R>>, key: string, now: nat): Option<R> {
    if key in cache && now < cache[key].expiry then Some(cache[key].results) else None
  }

  /** A cached search answers with its results for exactly five minutes. */
  lemma SearchAfterWrite<R>(cache: map<string, SearchEntry<R>>, key: string, results: R, t0: nat, now: nat)
    ensures SearchLookup(cache[key := SearchEntry(results, t0 + SEARCH_CACHE_DURATION)], key, now)
            == if now < t0 + SEARCH_CACHE_DURATION then Some(results) else None
  {
  }

  /**
   * `clearProductDetailCache(id)` as written: with a falsy id it calls
   * `Map#delete()` with no key, which removes nothing.
   */
  function ClearedDetailsAsWritten(cache: map<string, string>, id: string): map<string, string> {
    if id != "" then cache - {id} else cache
  }

  /** The "clear all" branch keeps every entry of a non-empty cache. */
  lemma ClearAllKeepsEntries(cache: map<string, string>, id: string)
    requires id in cache
    ensures id in ClearedDetailsAsWritten(cache, "")
  {
  }

  /** `clearProductDetailCache(id)` as intended: the entry for `id`, or every entry when no id is given. */
  function ClearedDetails(cache: map<string, string>, id: string): (r: map<string, string>)
    ensures id != "" ==> id !in r && forall k :: k in cache && k != id ==> k in r && r[k] == cache[k]
    ensures id == "" ==> |r| == 0
  {
    if id != "" then cache - {id} else map[]
  }

  /** A memory slot is empty, or holds a non-empty payload with an expiry. */
  predicate SlotShaped(slot: MemorySlot) {
    (slot.data.Some? <==> slot.expiry.Some?) && (slot.data.Some? ==> slot.data.value != "")
  }

  class ProductCacheService<R> {
    /** `memoryCache` and `memoryCacheExpiry` */
    var products: MemorySlot
    /** `doorCountsMemoryCache` and `doorCountsMemoryCacheExpiry` */
    var doorCounts: MemorySlot
    var searchResultsCache: map<string, SearchEntry<R>>
    var productDetailCache: map<string, string>
    /** The browser's localStorage, which outlives the page; only this service writes its keys. */
    var storage: Storage

    predicate Valid()
      reads this
    {
      SlotShaped(products) && SlotShaped(doorCounts)
    }

    /** Both memory slots mirror localStorage, as they do while no write has been refused. */
    predicate Mirrored()
      reads this
    {
      Mirrors(products, storage, PRODUCT_CACHE_KEY, PRODUCT_CACHE_EXPIRY_KEY) &&
      Mirrors(doorCounts, storage, DOOR_COUNTS_CACHE_KEY, DOOR_COUNTS_CACHE_EXPIRY_KEY)
    }

    /** A fresh service on page load: empty memory caches over whatever localStorage already holds. */
    constructor (persisted: Storage)
      ensures Valid() && Mirrored()
      ensures products == EmptySlot && doorCounts == EmptySlot
      ensures searchResultsCache == map[] && productDetailCache == map[]
      ensures storage == persisted
    {
      products := EmptySlot;
      doorCounts := EmptySlot;
      searchResultsCache := map[];
      productDetailCache := map[];
      storage := persisted;
    }

    /**
     * `getCachedProducts`: the memory entry while it is live, else the
     * stored entry while it is live (copying it into memory), else null.
     */
    method GetCachedProducts(now: nat) returns (r: Option<string>)
      requires Valid()
      modifies this`products
      ensures Valid()
      ensures r == TwoLevelLookup(old(products), storage, PRODUCT_CACHE_KEY, PRODUCT_CACHE_EXPIRY_KEY, now)
      ensures r.Some? ==> r.value != ""
      ensures old(Mirrored()) ==> Mirrored() && r == StoredValue(storage, PRODUCT_CACHE_KEY, PRODUCT_CACHE_EXPIRY_KEY, now)
      ensures products == (if MemoryHit(old(products), now) || r.None? then old(products)
                           else MemorySlot(r, ParseInt(storage[PRODUCT_CACHE_EXPIRY_KEY])))
    {
      if Mirrored() {
        MirroredLookup(products, storage, PRODUCT_CACHE_KEY, PRODUCT_CACHE_EXPIRY_KEY, now);
      }
      if MemoryHit(products, now) {
        r := products.data;
        return;
      }
      if PRODUCT_CACHE_KEY in storage && storage[PRODUCT_CACHE_KEY] != ""
         && PRODUCT_CACHE_EXPIRY_KEY in storage && storage[PRODUCT_CACHE_EXPIRY_KEY] != ""
      {
        var expiry := ParseInt(storage[PRODUCT_CACHE_EXPIRY_KEY]);
        if expiry.Some? && now < expiry.value {
          products := MemorySlot(Some(storage[PRODUCT_CACHE_KEY]), expiry);
          r := Some(storage[PRODUCT_CACHE_KEY]);
          return;
        }
      }
      r := None;
    }

    /**
     * `setCachedProducts`: memory takes the payload, expiring in three
     * hours, whatever happens to the localStorage write after it.
     */
    method SetCachedProducts(data: string, now: nat, outcome: WriteOutcome)
      requires Valid() && data != ""
      modifies this`products, this`storage
      ensures Valid()
      ensures products == MemorySlot(Some(data), Some(now + CACHE_DURATION))
      ensures storage == WrittenAs(old(storage), PRODUCT_CACHE_KEY, PRODUCT_CACHE_EXPIRY_KEY, data, now + CACHE_DURATION, outcome)
      ensures outcome.BothStored? && old(Mirrored()) ==> Mirrored()
    {
      ghost var wasMirrored := Mirrored();
      var expiryTime := now + CACHE_DURATION;
      products := MemorySlot(Some(data), Some(expiryTime));
      storage := WrittenAs(storage, PRODUCT_CACHE_KEY, PRODUCT_CACHE_EXPIRY_KEY, data, expiryTime, outcome);
      if outcome.BothStored? && wasMirrored {
        KeyLengths();
        StoredWriteMirrors(doorCounts, old(storage), PRODUCT_CACHE_KEY, PRODUCT_CACHE_EXPIRY_KEY, DOOR_COUNTS_CACHE_KEY, DOOR_COUNTS_CACHE_EXPIRY_KEY, data, expiryTime);
      }
    }

    /** `getCachedDoorCounts`: the same two-level lookup for the door counts. */
    method GetCachedDoorCounts(now: nat) returns (r: Option<string>)
      requires Valid()
      modifies this`doorCounts
      ensures Valid()
      ensures r == TwoLevelLookup(old(doorCounts), storage, DOOR_COUNTS_CACHE_KEY, DOOR_COUNTS_CACHE_EXPIRY_KEY, now)
      ensures r.Some? ==> r.value != ""
      ensures old(Mirrored()) ==> Mirrored() && r == StoredValue(storage, DOOR_COUNTS_CACHE_KEY, DOOR_COUNTS_CACHE_EXPIRY_KEY, now)
      ensures doorCounts == (if MemoryHit(old(doorCounts), now) || r.None? then old(doorCounts)
                             else MemorySlot(r, ParseInt(storage[DOOR_COUNTS_CACHE_EXPIRY_KEY])))
    {
      if Mirrored() {
        MirroredLookup(doorCounts, storage, DOOR_COUNTS_CACHE_KEY, DOOR_COUNTS_CACHE_EXPIRY_KEY, now);
      }
      if MemoryHit(doorCounts, now) {
        r := doorCounts.data;
        return;
      }
      if DOOR_COUNTS_CACHE_KEY in storage && storage[DOOR_COUNTS_CACHE_KEY] != ""
         && DOOR_COUNTS_CACHE_EXPIRY_KEY in storage && storage[DOOR_COUNTS_CACHE_EXPIRY_KEY] != ""
      {
        var expiry := ParseInt(storage[DOOR_COUNTS_CACHE_EXPIRY_KEY]);
        if expiry.Some? && now < expiry.value {
          doorCounts := MemorySlot(Some(storage[DOOR_COUNTS_CACHE_KEY]), expiry);
          r := Some(storage[DOOR_COUNTS_CACHE_KEY]);
          return;
        }
      }
      r := None;
    }

    /** `setCachedDoorCounts`: memory takes the counts, expiring in three hours, whatever the localStorage write does. */
    method SetCachedDoorCounts(data: string, now: nat, outcome: WriteOutcome)
      requires Valid() && data != ""
      modifies this`doorCounts, this`storage
      ensures Valid()
      ensures doorCounts == MemorySlot(Some(data), Some(now + CACHE_DURATION))
      ensures storage == WrittenAs(old(storage), DOOR_COUNTS_CACHE_KEY, DOOR_COUNTS_CACHE_EXPIRY_KEY, data, now + CACHE_DURATION, outcome)
      ensures outcome.BothStored? && old(Mirrored()) ==> Mirrored()
    {
      ghost var wasMirrored := Mirrored();
      var expiryTime := now + CACHE_DURATION;
      doorCounts := MemorySlot(Some(data), Some(expiryTime));
      storage := WrittenAs(storage, DOOR_COUNTS_CACHE_KEY, DOOR_COUNTS_CACHE_EXPIRY_KEY, data, expiryTime, outcome);
      if outcome.BothStored? && wasMirrored {
        KeyLengths();
        StoredWriteMirrors(products, old(storage), DOOR_COUNTS_CACHE_KEY, DOOR_COUNTS_CACHE_EXPIRY_KEY, PRODUCT_CACHE_KEY, PRODUCT_CACHE_EXPIRY_KEY, data, expiryTime);
      }
    }

    /** `getCachedSearchResults(query, searchType)` */
    method GetCachedSearchResults(query: string, searchType: string, now: nat) returns (r: Option<R>)
      ensures r == SearchLookup(searchResultsCache, SearchKey(query, searchType), now)
      ensures r.Some? ==> SearchKey(query, searchType) in searchResultsCache
    {
      var key := searchType + "::" + query;
      if key in searchResultsCache && now < searchResultsCache[key].expiry {
        r := Some(searchResultsCache[key].results);
      } else {
        r := None;
      }
    }

    /** `setCachedSearchResults(query, searchType, results)`: cached for five minutes under the combined key. */
    method SetCachedSearchResults(query: string, searchType: string, results: R, now: nat)
      modifies this`searchResultsCache
      ensures searchResultsCache
              == old(searchResultsCache)[SearchKey(query, searchType) := SearchEntry(results, now + SEARCH_CACHE_DURATION)]
    {
      var key := searchType + "::" + query;
      searchResultsCache := searchResultsCache[key := SearchEntry(results, now + SEARCH_CACHE_DURATION)];
    }

    /** `getCachedProductDetail(id)`: the stored detail, or `undefined`. */
    method GetCachedProductDetail(id: string) returns (r: Option<string>)
      ensures r.Some? <==> id in productDetailCache
      ensures r.Some? ==> r.value == productDetailCache[id]
    {
      if id in productDetailCache {
        r := Some(productDetailCache[id]);
      } else {
        r := None;
      }
    }

    method SetCachedProductDetail(id: string, productData: string)
      modifies this`productDetailCache
      ensures productDetailCache == old(productDetailCache)[id := productData]
    {
      productDetailCache := productDetailCache[id := productData];
    }

    /** `clearProductDetailCache(id)`, with the "clear all" branch doing what it announces. */
    method ClearProductDetailCache(id: string)
      modifies this`productDetailCache
      ensures productDetailCache == ClearedDetails(old(productDetailCache), id)
    {
      if id != "" {
        productDetailCache := productDetailCache - {id};
      } else {
        productDetailCache := map[];
      }
    }

    /** `clearCache`: forget the suggested products in memory and in localStorage. */
    method ClearCache()
      requires Valid()
      modifies this`products, this`storage
      ensures Valid()
      ensures products == EmptySlot
      ensures storage == old(storage) - {PRODUCT_CACHE_KEY, PRODUCT_CACHE_EXPIRY_KEY}
    {
      products := EmptySlot;
      storage := storage - {PRODUCT_CACHE_KEY, PRODUCT_CACHE_EXPIRY_KEY};
    }

    /** `clearDoorCountsCache`: forget the door counts in memory and in localStorage. */
    method ClearDoorCountsCache()
      requires Valid()
      modifies this`doorCounts, this`storage
      ensures Valid()
      ensures doorCounts == EmptySlot
      ensures storage == old(storage) - {DOOR_COUNTS_CACHE_KEY, DOOR_COUNTS_CACHE_EXPIRY_KEY}
    {
      doorCounts := EmptySlot;
      storage := storage - {DOOR_COUNTS_CACHE_KEY, DOOR_COUNTS_CACHE_EXPIRY_KEY};
    }

    /** `clearAllCaches` (and `forceRefresh`, which only calls it). */
    method ClearAllCaches()
      requires Valid()
      modifies this`products, this`doorCounts, this`storage
      ensures Valid() && Mirrored()
      ensures products == EmptySlot && doorCounts == EmptySlot
      ensures storage == old(storage) - {PRODUCT_CACHE_KEY, PRODUCT_CACHE_EXPIRY_KEY,
                                         DOOR_COUNTS_CACHE_KEY, DOOR_COUNTS_CACHE_EXPIRY_KEY}
    {
      ClearCache();
      ClearDoorCountsCache();
    }

    /**
     * `isCacheValid`: a live memory entry or a live stored expiry. The
     * stored payload is not consulted, so the answer can be true where the
     * lookup finds nothing (an expiry stored without its payload).
     */
    method IsCacheValid(now: nat) returns (r: bool)
      requires Valid()
      ensures r <==> MemoryHit(products, now) || ExpiryLive(storage, PRODUCT_CACHE_EXPIRY_KEY, now)
      ensures TwoLevelLookup(products, storage, PRODUCT_CACHE_KEY, PRODUCT_CACHE_EXPIRY_KEY, now).Some? ==> r
    {
      if MemoryHit(products, now) {
        return true;
      }
      var e := PRODUCT_CACHE_EXPIRY_KEY;
      r := e in storage && storage[e] != "" && ParseInt(storage[e]).Some? && now < ParseInt(storage[e]).value;
    }

    /** `isDoorCountsCacheValid`: the same check for the door counts. */
    method IsDoorCountsCacheValid(now: nat) returns (r: bool)
      requires Valid()
      ensures r <==> MemoryHit(doorCounts, now) || ExpiryLive(storage, DOOR_COUNTS_CACHE_EXPIRY_KEY, now)
      ensures TwoLevelLookup(doorCounts, storage, DOOR_COUNTS_CACHE_KEY, DOOR_COUNTS_CACHE_EXPIRY_KEY, now).Some? ==> r
    {
      if MemoryHit(doorCounts, now) {
        return true;
      }
      var e := DOOR_COUNTS_CACHE_EXPIRY_KEY;
      r := e in storage && storage[e] != "" && ParseInt(storage[e]).Some? && now < ParseInt(storage[e]).value;
    }

    /** `getCachedDoorsHome`: localStorage only. */
    method GetCachedDoorsHome(now: nat) returns (r: Option<string>)
      ensures r == StoredValue(storage, DOORS_HOME_CACHE_KEY, DOORS_HOME_CACHE_EXPIRY_KEY, now)
      ensures r.Some? ==> r.value != ""
    {
      var dk, ek := DOORS_HOME_CACHE_KEY, DOORS_HOME_CACHE_EXPIRY_KEY;
      if dk in storage && storage[dk] != "" && ek in storage && storage[ek] != "" {
        var expiry := ParseInt(storage[ek]);
        if expiry.Some? && now < expiry.value {
          return Some(storage[dk]);
        }
      }
      r := None;
    }

    /** `setCachedDoorsHome`: localStorage only, so a refused write leaves no trace of the page. */
    method SetCachedDoorsHome(data: string, now: nat, outcome: WriteOutcome)
      modifies this`storage
      ensures storage == WrittenAs(old(storage), DOORS_HOME_CACHE_KEY, DOORS_HOME_CACHE_EXPIRY_KEY, data, now + CACHE_DURATION, outcome)
    {
      match outcome {
        case BothStored =>
          storage := storage[DOORS_HOME_CACHE_KEY := data][DOORS_HOME_CACHE_EXPIRY_KEY := NatToString(now + CACHE_DURATION)];
        case PayloadOnly =>
          storage := storage[DOORS_HOME_CACHE_KEY := data];
        case NothingStored =>
      }
    }

    method ClearDoorsHomeCache()
      modifies this`storage
      ensures storage == old(storage) - {DOORS_HOME_CACHE_KEY, DOORS_HOME_CACHE_EXPIRY_KEY}
    {
      storage := storage - {DOORS_HOME_CACHE_KEY, DOORS_HOME_CACHE_EXPIRY_KEY};
    }
  }
}
