/** `src/utils/requestCache.ts`: the last result of each prompt's HTTP
    request, kept in local storage under `request_result_<promptId>`, plus
    the latest result of any prompt under `latest_request_result`. Saving
    prunes the per-prompt entries to the ten newest. Local storage is the
    class below, a map from keys to strings; JSON encoding and decoding,
    the clock and the key order of `allItems` are parameters. */
module RequestCache {
  import opened Js

  /** The `result` part of a cached record. */
  datatype Outcome = Outcome(
    success: bool,
    httpMethod: string,
    url: string,
    status: Option<int>,
    statusText: Option<string>,
    headers: Option<map<string, string>>,
    data: Option<JsValue>,
    error: Option<string>)

  /** `CachedRequestResult`. */
  datatype Cached = Cached(timestamp: int, promptId: string, result: Outcome)

  const CacheKeyPrefix := "request_result_"
  const LatestCacheKey := "latest_request_result"
  const MaxCacheItems := 10

  function KeyOf(promptId: string): string
  {
    CacheKeyPrefix + promptId
  }

  /** The latest key is not a per-prompt key. */
  lemma LatestIsNotPrefixed()
    ensures !StartsWith(LatestCacheKey, CacheKeyPrefix)
  {
    assert LatestCacheKey[0] != CacheKeyPrefix[0];
  }

  /** No prompt's key is the latest key. */
  lemma KeyOfIsNotLatest(promptId: string)
    ensures KeyOf(promptId) != LatestCacheKey
  {
    assert KeyOf(promptId)[0] == 'r';
    assert LatestCacheKey[0] == 'l';
  }

  /** `keys` lists each key of the store exactly once. */
  predicate Enumerates(items: map<string, string>, keys: seq<string>)
  {
    (forall i :: 0 <= i < |keys| ==> keys[i] in items) &&
    (forall k :: k in items ==> k in keys) &&
    (forall i, j :: 0 <= i < j < |keys| ==> keys[i] != keys[j])
  }

  /** `getItem` followed by the falsy check and `JSON.parse`. */
  function Lookup(items: map<string, string>, key: string, parse: string -> Option<Cached>): (r: Option<Cached>)
  {
    if key in items && items[key] != "" then parse(items[key]) else None
  }

  /** `getRequestResult` and `getLatestRequestResult` give null for a
      missing or empty entry and for one that does not decode. */
  lemma LookupNull(items: map<string, string>, key: string, parse: string -> Option<Cached>)
    ensures key !in items ==> Lookup(items, key, parse).None?
    ensures key in items && (items[key] == "" || parse(items[key]).None?) ==> Lookup(items, key, parse).None?
    ensures key in items && items[key] != "" && parse(items[key]).Some? ==> Lookup(items, key, parse) == parse(items[key])
  {
  }

  // ---------------------------------------------------------------------
  // Cleanup

  /** A per-prompt entry that `cleanupOldCache` considers. */
  predicate IsCacheKey(key: string)
  {
    StartsWith(key, CacheKeyPrefix) && key != LatestCacheKey
  }

  /** The `cacheItems` the first loop collects from the keys, in order: the
      per-prompt entries that decode, with their timestamps. */
  function Entries(items: map<string, string>, keys: seq<string>, parse: string -> Option<Cached>): (r: seq<(string, int)>)
    requires forall i :: 0 <= i < |keys| ==> keys[i] in items
    ensures forall e :: e in r ==> (e.0 in keys && e.0 in items && IsCacheKey(e.0) &&
      parse(items[e.0]).Some? && e.1 == parse(items[e.0]).value.timestamp)
    ensures forall i :: 0 <= i < |keys| && IsCacheKey(keys[i]) && parse(items[keys[i]]).Some? ==>
      (keys[i], parse(items[keys[i]]).value.timestamp) in r
    decreases |keys|
  {
    if |keys| == 0 then []
    else
      var rest := Entries(items, keys[..|keys| - 1], parse);
      var key := keys[|keys| - 1];
      assert forall i :: 0 <= i < |keys| - 1 ==> keys[i] == keys[..|keys| - 1][i];
      if IsCacheKey(key) && parse(items[key]).Some? then rest + [(key, parse(items[key]).value.timestamp)]
      else rest
  }

  /** No two entries share a key. */
  predicate DistinctKeys(s: seq<(string, int)>)
  {
    forall i, j :: 0 <= i < j < |s| ==> s[i].0 != s[j].0
  }

  /** Distinct keys give distinct entries. */
  lemma {:induction false} EntriesDistinct(items: map<string, string>, keys: seq<string>, parse: string -> Option<Cached>)
    requires Enumerates(items, keys)
    ensures DistinctKeys(Entries(items, keys, parse))
    decreases |keys|
  {
    if |keys| > 0 {
      var init := keys[..|keys| - 1];
      assert forall i, j :: 0 <= i < j < |init| ==> init[i] == keys[i] && init[j] == keys[j];
      EntriesDistinctPrefix(items, init, keys[|keys| - 1], parse);
    }
  }

  lemma {:induction false} EntriesDistinctPrefix(items: map<string, string>, init: seq<string>, last: string, parse: string -> Option<Cached>)
    requires forall i :: 0 <= i < |init| ==> init[i] in items
    requires last in items && last !in init
    requires forall i, j :: 0 <= i < j < |init| ==> init[i] != init[j]
    ensures DistinctKeys(Entries(items, init + [last], parse))
    decreases |init|
  {
    var keys := init + [last];
    assert keys[..|keys| - 1] == init;
    if |init| > 0 {
      var init' := init[..|init| - 1];
      assert init'+ [init[|init| - 1]] == init;
      assert forall i, j :: 0 <= i < j < |init'| ==> init'[i] == init[i] && init'[j] == init[j];
      EntriesDistinctPrefix(items, init', init[|init| - 1], parse);
    }
    var rest := Entries(items, init, parse);
    forall e | e in rest ensures e.0 != last {
      assert e.0 in init;
    }
  }

  /** The comparator `b.cached.timestamp - a.cached.timestamp`. */
  predicate SortedDesc(s: seq<(string, int)>)
  {
    forall i, j :: 0 <= i < j < |s| ==> s[i].1 >= s[j].1
  }

  /** One step of a stable insertion sort: `x` goes before the first
      entry that is not newer than it. */
  function Insert(x: (string, int), s: seq<(string, int)>): (r: seq<(string, int)>)
    ensures |r| == |s| + 1
    ensures multiset(r) == multiset(s) + multiset{x}
    ensures forall e :: e in r <==> e == x || e in s
    decreases |s|
  {
    if |s| == 0 || s[0].1 <= x.1 then [x] + s
    else
      assert s == [s[0]] + s[1..];
      [s[0]] + Insert(x, s[1..])
  }

  lemma {:induction false} InsertSorted(x: (string, int), s: seq<(string, int)>)
    requires SortedDesc(s)
    ensures SortedDesc(Insert(x, s))
    decreases |s|
  {
    if |s| == 0 || s[0].1 <= x.1 {
    } else {
      InsertSorted(x, s[1..]);
      var t := Insert(x, s[1..]);
      forall e | e in t ensures s[0].1 >= e.1 {
        if e != x {
          var k :| 0 <= k < |s[1..]| && s[1..][k] == e;
          assert s[k + 1] == e;
        }
      }
      assert forall j :: 0 <= j < |t| ==> t[j] in t;
    }
  }

  lemma {:induction false} InsertDistinct(x: (string, int), s: seq<(string, int)>)
    requires DistinctKeys(s)
    requires forall e :: e in s ==> e.0 != x.0
    ensures DistinctKeys(Insert(x, s))
    decreases |s|
  {
    if |s| == 0 || s[0].1 <= x.1 {
      var r := [x] + s;
      forall i, j | 0 <= i < j < |r| ensures r[i].0 != r[j].0 {
        if i > 0 {
          assert r[i] == s[i - 1] && r[j] == s[j - 1];
        } else {
          assert r[j] in s;
        }
      }
    } else {
      assert forall e :: e in s[1..] ==> e in s;
      assert forall i, j :: 0 <= i < j < |s[1..]| ==> s[1..][i] == s[i + 1] && s[1..][j] == s[j + 1];
      InsertDistinct(x, s[1..]);
      var t := Insert(x, s[1..]);
      var r := [s[0]] + t;
      forall i, j | 0 <= i < j < |r| ensures r[i].0 != r[j].0 {
        if i > 0 {
          assert r[i] == t[i - 1] && r[j] == t[j - 1];
        } else {
          assert r[j] in t;
          if r[j] != x {
            var k :| 0 <= k < |s[1..]| && s[1..][k] == r[j];
            assert s[k + 1] == r[j];
          }
        }
      }
    }
  }

  /** `cacheItems.sort(...)`: a stable sort, newest first. */
  function SortDesc(s: seq<(string, int)>): (r: seq<(string, int)>)
    ensures |r| == |s|
    ensures multiset(r) == multiset(s)
    ensures forall e :: e in r <==> e in s
    decreases |s|
  {
    if |s| == 0 then []
    else
      assert s == [s[0]] + s[1..];
      Insert(s[0], SortDesc(s[1..]))
  }

  /** The sort orders newest first and keeps the keys distinct. */
  lemma {:induction false} SortDescProperties(s: seq<(string, int)>)
    requires DistinctKeys(s)
    ensures SortedDesc(SortDesc(s)) && DistinctKeys(SortDesc(s))
    decreases |s|
  {
    if |s| > 0 {
      assert forall i, j :: 0 <= i < j < |s[1..]| ==> s[1..][i] == s[i + 1] && s[1..][j] == s[j + 1];
      SortDescProperties(s[1..]);
      InsertSorted(s[0], SortDesc(s[1..]));
      forall e | e in SortDesc(s[1..]) ensures e.0 != s[0].0 {
        var k :| 0 <= k < |s[1..]| && s[1..][k] == e;
        assert s[k + 1] == e;
      }
      InsertDistinct(s[0], SortDesc(s[1..]));
    }
  }

  /** The keys of some entries. */
  function KeySet(s: seq<(string, int)>): set<string>
  {
    set i | 0 <= i < |s| :: s[i].0
  }

  /** Where `slice(MAX_CACHE_ITEMS)` cuts the sorted entries. */
  function Cut(n: nat): (r: nat)
    ensures r <= n && r <= MaxCacheItems
    ensures r == n || r == MaxCacheItems
  {
    if n > MaxCacheItems then MaxCacheItems else n
  }

  /** The sorted `cacheItems`. */
  function Sorted(items: map<string, string>, keys: seq<string>, parse: string -> Option<Cached>): seq<(string, int)>
    requires forall i :: 0 <= i < |keys| ==> keys[i] in items
  {
    SortDesc(Entries(items, keys, parse))
  }

  /** The keys cleanup removes: those of `cacheItems.slice(10)` once
      sorted. */
  function Doomed(items: map<string, string>, keys: seq<string>, parse: string -> Option<Cached>): set<string>
    requires forall i :: 0 <= i < |keys| ==> keys[i] in items
  {
    var sorted := Sorted(items, keys, parse);
    KeySet(sorted[Cut(|sorted|)..])
  }

  /** The timestamp of a stored entry that decodes. */
  function Stamp(items: map<string, string>, key: string, parse: string -> Option<Cached>): int
    requires key in items && parse(items[key]).Some?
  {
    parse(items[key]).value.timestamp
  }

  /** Cleanup deletes only per-prompt entries that decode: the latest
      entry, other keys and undecodable entries are never deleted. */
  lemma DoomedAreDecodedCacheEntries(items: map<string, string>, keys: seq<string>, parse: string -> Option<Cached>)
    requires Enumerates(items, keys)
    ensures forall d :: d in Doomed(items, keys, parse) ==> d in items && IsCacheKey(d) && parse(items[d]).Some?
  {
    var sorted := Sorted(items, keys, parse);
    forall d | d in Doomed(items, keys, parse) ensures d in items && IsCacheKey(d) && parse(items[d]).Some? {
      var i :| 0 <= i < |sorted[Cut(|sorted|)..]| && sorted[Cut(|sorted|)..][i].0 == d;
      assert sorted[Cut(|sorted|) + i] in sorted;
    }
  }

  /** What the sort contributes: newest first, distinct keys, and the
      same entries. */
  lemma SortedFacts(items: map<string, string>, keys: seq<string>, parse: string -> Option<Cached>)
    requires Enumerates(items, keys)
    ensures var sorted := Sorted(items, keys, parse);
      SortedDesc(sorted) && DistinctKeys(sorted) && |sorted| == |Entries(items, keys, parse)| &&
      (forall e :: e in sorted <==> e in Entries(items, keys, parse))
  {
    EntriesDistinct(items, keys, parse);
    SortDescProperties(Entries(items, keys, parse));
  }

  /** The kept entries: the first ten of the sorted ones. */
  function Kept(items: map<string, string>, keys: seq<string>, parse: string -> Option<Cached>): seq<(string, int)>
    requires forall i :: 0 <= i < |keys| ==> keys[i] in items
  {
    var sorted := Sorted(items, keys, parse);
    sorted[..Cut(|sorted|)]
  }

  /** At most ten entries are kept, and all of them when there are no more
      than ten. */
  lemma KeptCount(items: map<string, string>, keys: seq<string>, parse: string -> Option<Cached>)
    requires Enumerates(items, keys)
    ensures |KeySet(Kept(items, keys, parse))| == Cut(|Entries(items, keys, parse)|) <= MaxCacheItems
  {
    var sorted := Sorted(items, keys, parse);
    var kept := Kept(items, keys, parse);
    SortedFacts(items, keys, parse);
    assert forall i, j :: 0 <= i < j < |kept| ==> kept[i] == sorted[i] && kept[j] == sorted[j];
    KeySetSize(kept);
  }

  /** A decodable per-prompt entry that survives cleanup is a kept one. */
  lemma RemainingAreKept(items: map<string, string>, keys: seq<string>, parse: string -> Option<Cached>, k: string)
    requires Enumerates(items, keys)
    requires k in items && k !in Doomed(items, keys, parse) && IsCacheKey(k) && parse(items[k]).Some?
    ensures k in KeySet(Kept(items, keys, parse))
  {
    var sorted := Sorted(items, keys, parse);
    var cut := Cut(|sorted|);
    SortedFacts(items, keys, parse);
    var n :| 0 <= n < |keys| && keys[n] == k;
    var e := (k, parse(items[k]).value.timestamp);
    assert e in sorted;
    var i :| 0 <= i < |sorted| && sorted[i] == e;
    if i < cut {
      assert Kept(items, keys, parse)[i] == e;
    }
  }

  /** A kept entry is a decodable per-prompt entry that survives cleanup. */
  lemma KeptRemain(items: map<string, string>, keys: seq<string>, parse: string -> Option<Cached>, k: string)
    requires Enumerates(items, keys)
    requires k in KeySet(Kept(items, keys, parse))
    ensures k in items && k !in Doomed(items, keys, parse) && IsCacheKey(k) && parse(items[k]).Some?
  {
    var sorted := Sorted(items, keys, parse);
    var cut := Cut(|sorted|);
    var kept := Kept(items, keys, parse);
    SortedFacts(items, keys, parse);
    var i :| 0 <= i < |kept| && kept[i].0 == k;
    assert sorted[i] == kept[i] && sorted[i] in sorted;
  }

  /** No kept entry is older than a deleted one. */
  lemma KeptNewer(items: map<string, string>, keys: seq<string>, parse: string -> Option<Cached>, k: string, d: string)
    requires Enumerates(items, keys)
    requires k in KeySet(Kept(items, keys, parse)) && d in Doomed(items, keys, parse)
    ensures k in items && d in items && parse(items[k]).Some? && parse(items[d]).Some?
    ensures Stamp(items, k, parse) >= Stamp(items, d, parse)
  {
    var sorted := Sorted(items, keys, parse);
    var cut := Cut(|sorted|);
    var kept := Kept(items, keys, parse);
    SortedFacts(items, keys, parse);
    var i :| 0 <= i < |kept| && kept[i].0 == k;
    var j :| 0 <= j < |sorted[cut..]| && sorted[cut..][j].0 == d;
    assert sorted[i] == kept[i] && sorted[i] in sorted;
    assert sorted[cut + j] == sorted[cut..][j] && sorted[cut + j] in sorted;
  }

  lemma KeySetAppend(s: seq<(string, int)>, x: (string, int))
    ensures KeySet(s + [x]) == KeySet(s) + {x.0}
  {
    var t := s + [x];
    assert forall i :: 0 <= i < |s| ==> t[i] == s[i];
    assert t[|s|] == x;
  }

  /** Distinct keys make as many keys as entries. */
  lemma {:induction false} KeySetSize(s: seq<(string, int)>)
    requires DistinctKeys(s)
    ensures |KeySet(s)| == |s|
    decreases |s|
  {
    if |s| > 0 {
      var init := s[..|s| - 1];
      assert forall i, j :: 0 <= i < j < |init| ==> init[i] == s[i] && init[j] == s[j];
      KeySetSize(init);
      assert KeySet(s) == KeySet(init) + {s[|s| - 1].0};
      assert s[|s| - 1].0 !in KeySet(init);
    } else {
      assert KeySet(s) == {};
    }
  }

  /** What `saveRequestResult` writes before cleanup: the same record under
      the prompt's key and under the latest key. */
  function Written(items: map<string, string>, promptId: string, record: string): (r: map<string, string>)
    ensures r.Keys == items.Keys + {KeyOf(promptId), LatestCacheKey}
    ensures r[KeyOf(promptId)] == record && r[LatestCacheKey] == record
    ensures forall k :: k in items && k != KeyOf(promptId) && k != LatestCacheKey ==> r[k] == items[k]
  {
    items[KeyOf(promptId) := record][LatestCacheKey := record]
  }

  /** A decodable per-prompt entry strictly newer than every other one
      survives cleanup. */
  lemma NewestNotDoomed(items: map<string, string>, keys: seq<string>, parse: string -> Option<Cached>, key: string)
    requires Enumerates(items, keys)
    requires key in items && IsCacheKey(key) && parse(items[key]).Some?
    requires forall k :: k in items && IsCacheKey(k) && k != key && parse(items[k]).Some? ==>
      Stamp(items, k, parse) < Stamp(items, key, parse)
    ensures key !in Doomed(items, keys, parse)
  {
    var sorted := Sorted(items, keys, parse);
    var cut := Cut(|sorted|);
    if key in Doomed(items, keys, parse) {
      assert sorted[0] == sorted[..cut][0];
      KeptRemain(items, keys, parse, sorted[0].0);
      KeptNewer(items, keys, parse, sorted[0].0, key);
    }
  }

  /** A save always leaves the record readable under the latest key, and
      under the prompt's key too when the record is strictly the newest
      decodable entry. */
  lemma {:induction false} SaveKeepsRecord(items: map<string, string>, promptId: string, c: Cached,
                                         record: string, keys: seq<string>, parse: string -> Option<Cached>)
    requires parse(record) == Some(c) && record != ""
    requires Enumerates(Written(items, promptId, record), keys)
    requires forall k :: k in items && IsCacheKey(k) && k != KeyOf(promptId) && parse(items[k]).Some? ==>
      parse(items[k]).value.timestamp < c.timestamp
    ensures var w := Written(items, promptId, record);
      var after := w - Doomed(w, keys, parse);
      Lookup(after, LatestCacheKey, parse) == Some(c) && Lookup(after, KeyOf(promptId), parse) == Some(c)
  {
    var w := Written(items, promptId, record);
    var key := KeyOf(promptId);
    LatestIsNotPrefixed();
    DoomedAreDecodedCacheEntries(w, keys, parse);
    KeyOfIsNotLatest(promptId);
    assert StartsWith(key, CacheKeyPrefix) by {
      assert key[..|CacheKeyPrefix|] == CacheKeyPrefix;
    }
    NewestNotDoomed(w, keys, parse, key);
  }

  /** Local storage. */
  class Store {
    var items: map<string, string>

    constructor (items: map<string, string>)
      ensures this.items == items
    {
      this.items := items;
    }

    /** The first loop of `cleanupOldCache`: the decodable per-prompt
        entries in key order; changes nothing. */
    method CollectEntries(keys: seq<string>, parse: string -> Option<Cached>) returns (cacheItems: seq<(string, int)>)
      requires Enumerates(items, keys)
      ensures cacheItems == Entries(items, keys, parse)
    {
      cacheItems := [];
      var i := 0;
      while i < |keys|
        invariant 0 <= i <= |keys|
        invariant cacheItems == Entries(items, keys[..i], parse)
      {
        var key := keys[i];
        assert keys[..i + 1][..i] == keys[..i];
        if IsCacheKey(key) {
          var cached := parse(items[key]);
          if cached.Some? {
            cacheItems := cacheItems + [(key, cached.value.timestamp)];
          }
        }
        i := i + 1;
      }
      assert keys[..i] == keys;
    }

    /** The last loop of `cleanupOldCache`: one `removeItem` per entry. */
    method RemoveEntries(itemsToDelete: seq<(string, int)>)
      modifies this
      ensures items == old(items) - KeySet(itemsToDelete)
    {
      var j := 0;
      while j < |itemsToDelete|
        invariant 0 <= j <= |itemsToDelete|
        invariant items == old(items) - KeySet(itemsToDelete[..j])
      {
        assert itemsToDelete[..j + 1] == itemsToDelete[..j] + [itemsToDelete[j]];
        KeySetAppend(itemsToDelete[..j], itemsToDelete[j]);
        items := items - {itemsToDelete[j].0};
        j := j + 1;
      }
      assert itemsToDelete[..j] == itemsToDelete;
    }

    /** `cleanupOldCache`, given the order in which `allItems` lists the
        keys: collect, sort newest first, remove all but the first ten. */
    method Cleanup(keys: seq<string>, parse: string -> Option<Cached>)
      modifies this
      requires Enumerates(items, keys)
      ensures items == old(items) - Doomed(old(items), keys, parse)
    {
      var cacheItems := CollectEntries(keys, parse);
      var sorted := SortDesc(cacheItems);
      var itemsToDelete := sorted[Cut(|sorted|)..];
      RemoveEntries(itemsToDelete);
    }

    /** `saveRequestResult`: both writes, then cleanup over the keys as
        `allItems` then lists them. */
    method SaveRequestResult(promptId: string, result: Outcome, now: int, stringify: Cached -> string,
                             parse: string -> Option<Cached>, keys: seq<string>)
      modifies this
      requires Enumerates(Written(items, promptId, stringify(Cached(now, promptId, result))), keys)
      ensures var w := Written(old(items), promptId, stringify(Cached(now, promptId, result)));
        items == w - Doomed(w, keys, parse)
    {
      var cached := Cached(now, promptId, result);
      items := items[KeyOf(promptId) := stringify(cached)];
      items := items[LatestCacheKey := stringify(cached)];
      Cleanup(keys, parse);
    }

    /** `getRequestResult`; changes nothing. */
    method GetRequestResult(promptId: string, parse: string -> Option<Cached>) returns (r: Option<Cached>)
      ensures r == Lookup(items, KeyOf(promptId), parse)
    {
      var key := KeyOf(promptId);
      if key !in items || items[key] == "" {
        return None;
      }
      r := parse(items[key]);
    }

    /** `getLatestRequestResult`; changes nothing. */
    method GetLatestRequestResult(parse: string -> Option<Cached>) returns (r: Option<Cached>)
      ensures r == Lookup(items, LatestCacheKey, parse)
    {
      if LatestCacheKey !in items || items[LatestCacheKey] == "" {
        return None;
      }
      r := parse(items[LatestCacheKey]);
    }

    /** `clearRequestResult`: the prompt's entry goes, and the latest entry
        goes too when it decodes to a record of the same prompt. */
    method ClearRequestResult(promptId: string, parse: string -> Option<Cached>)
      modifies this
      ensures var latest := Lookup(old(items), LatestCacheKey, parse);
        var clearLatest := latest.Some? && latest.value.promptId == promptId;
        forall k :: k in items <==> k in old(items) && k != KeyOf(promptId) && !(clearLatest && k == LatestCacheKey)
      ensures forall k :: k in items ==> items[k] == old(items)[k]
    {
      KeyOfIsNotLatest(promptId);
      items := items - {KeyOf(promptId)};
      var latest := GetLatestRequestResult(parse);
      if latest.Some? && latest.value.promptId == promptId {
        items := items - {LatestCacheKey};
      }
    }

    /** `clearAllRequestResults`, over the keys in the order `allItems`
        lists them: every per-prompt key and the latest key go, nothing
        else changes. */
    method ClearAllRequestResults(keys: seq<string>)
      modifies this
      requires Enumerates(items, keys)
      ensures forall k :: k in items <==> k in old(items) && !StartsWith(k, CacheKeyPrefix) && k != LatestCacheKey
      ensures forall k :: k in items ==> items[k] == old(items)[k]
    {
      var i := 0;
      while i < |keys|
        invariant 0 <= i <= |keys|
        invariant forall k :: k in items <==> (k in old(items) &&
          !(k in keys[..i] && (StartsWith(k, CacheKeyPrefix) || k == LatestCacheKey)))
        invariant forall k :: k in items ==> items[k] == old(items)[k]
      {
        var key := keys[i];
        if StartsWith(key, CacheKeyPrefix) || key == LatestCacheKey {
          items := items - {key};
        }
        assert keys[..i + 1] == keys[..i] + [key];
        i := i + 1;
      }
      assert keys[..i] == keys;
    }
  }
}
