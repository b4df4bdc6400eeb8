/** The pair cache and the tiled matrix build (`PairCache` and the fill loop of
    `build_large_matrix` in vrp/matrix.py). Travel values are whole as they arrive; snapping,
    versions and the wording of a degraded reason are not modelled. */
module MatrixBuild {
  import opened Common
  import opened Tiles

  type Key = (nat, nat)

  datatype Entry = Entry(key: Key, travel: Travel)

  // ------------------------------------------------------------------
  // Recency lists, oldest first
  // ------------------------------------------------------------------

  ghost predicate DistinctKeys(es: seq<Entry>) {
    forall i, j :: 0 <= i < j < |es| ==> es[i].key != es[j].key
  }

  function Lookup(es: seq<Entry>, key: Key): Option<Travel> {
    if es == [] then None
    else if es[0].key == key then Some(es[0].travel)
    else Lookup(es[1..], key)
  }

  function Without(es: seq<Entry>, key: Key): seq<Entry> {
    if es == [] then []
    else if es[0].key == key then Without(es[1..], key)
    else [es[0]] + Without(es[1..], key)
  }

  function Newest(es: seq<Entry>, n: nat): seq<Entry> {
    if |es| <= n then es else es[|es| - n..]
  }

  lemma {:induction false} WithoutMembers(es: seq<Entry>, key: Key)
    ensures forall e :: e in Without(es, key) <==> e in es && e.key != key
    ensures DistinctKeys(es) ==> DistinctKeys(Without(es, key))
    ensures |Without(es, key)| <= |es|
  {
    if es != [] {
      WithoutMembers(es[1..], key);
      assert es == [es[0]] + es[1..];
      var rest := Without(es[1..], key);
      if DistinctKeys(es) {
        forall j | 0 <= j < |rest|
          ensures rest[j].key != es[0].key
        {
          assert rest[j] in rest && rest[j] in es[1..];
        }
      }
    }
  }

  lemma {:induction false} LookupMeans(es: seq<Entry>, key: Key)
    ensures Lookup(es, key).Some? ==> Entry(key, Lookup(es, key).value) in es
    ensures Lookup(es, key).None? ==> forall e :: e in es ==> e.key != key
  {
    if es != [] {
      LookupMeans(es[1..], key);
      assert es == [es[0]] + es[1..];
    }
  }

  lemma {:induction false} WithoutShrinks(es: seq<Entry>, key: Key)
    requires Lookup(es, key).Some?
    ensures |Without(es, key)| < |es|
  {
    if es[0].key == key {
      WithoutMembers(es[1..], key);
    } else {
      WithoutShrinks(es[1..], key);
    }
  }

  /** The entry made the newest, the rest in their order. */
  function Touched(es: seq<Entry>, e: Entry): seq<Entry> {
    Without(es, e.key) + [e]
  }

  lemma {:induction false} TouchedDistinct(es: seq<Entry>, e: Entry)
    requires DistinctKeys(es)
    ensures DistinctKeys(Touched(es, e))
  {
    WithoutMembers(es, e.key);
    assert forall i :: 0 <= i < |Without(es, e.key)| ==> Without(es, e.key)[i] in Without(es, e.key);
  }

  lemma {:induction false} NewestDistinct(es: seq<Entry>, n: nat)
    requires DistinctKeys(es)
    ensures DistinctKeys(Newest(es, n)) && |Newest(es, n)| <= n
  {
  }

  /** An entry in the list is what its key looks up. */
  lemma {:induction false} LookupFinds(es: seq<Entry>, e: Entry)
    requires DistinctKeys(es) && e in es
    ensures Lookup(es, e.key) == Some(e.travel)
  {
    if es[0].key == e.key {
      var i :| 0 <= i < |es| && es[i] == e;
    } else {
      assert es == [es[0]] + es[1..];
      LookupFinds(es[1..], e);
    }
  }

  class PairCache {
    var entries: seq<Entry>
    const maxEntries: nat
    var hits: nat
    var misses: nat

    ghost predicate Valid()
      reads this
    {
      DistinctKeys(entries) && |entries| <= maxEntries
    }

    constructor (maxEntries: nat)
      ensures Valid() && entries == [] && this.maxEntries == maxEntries && hits == misses == 0
    {
      this.maxEntries := maxEntries;
      entries := [];
      hits, misses := 0, 0;
    }

    /** `get`: a hit becomes the newest entry and is counted; a miss only is counted. */
    method Get(key: Key) returns (found: Option<Travel>)
      requires Valid()
      modifies this
      ensures Valid()
      ensures found == Lookup(old(entries), key)
      ensures found.Some? ==>
        entries == Touched(old(entries), Entry(key, found.value)) && hits == old(hits) + 1 && misses == old(misses)
      ensures found.None? ==> entries == old(entries) && hits == old(hits) && misses == old(misses) + 1
    {
      found := Lookup(entries, key);
      if found.None? {
        misses := misses + 1;
        return;
      }
      TouchedDistinct(entries, Entry(key, found.value));
      WithoutShrinks(entries, key);
      entries := Touched(entries, Entry(key, found.value));
      hits := hits + 1;
    }

    /** `put`: the pair becomes the newest entry, and the oldest are dropped down to the limit. */
    method Put(key: Key, travel: Travel)
      requires Valid()
      modifies this`entries
      ensures Valid()
      ensures entries == Newest(Touched(old(entries), Entry(key, travel)), maxEntries)
    {
      hide Touched, DistinctKeys;
      TouchedDistinct(entries, Entry(key, travel));
      entries := Touched(entries, Entry(key, travel));
      ghost var all, dropped := entries, 0;
      while |entries| > maxEntries
        invariant 0 <= dropped <= |all| && entries == all[dropped..]
        invariant dropped > 0 ==> |entries| >= maxEntries
      {
        dropped := dropped + 1;
        entries := entries[1..];
      }
      NewestDistinct(all, maxEntries);
    }
  }

  // ------------------------------------------------------------------
  // Least recently used goes first
  // ------------------------------------------------------------------

  datatype Use = Put(entry: Entry) | Get(key: Key)

  function UsedKey(use: Use): Key {
    if use.Put? then use.entry.key else use.key
  }

  /** What one use does to the recency list. */
  function Apply(es: seq<Entry>, use: Use, n: nat): seq<Entry> {
    match use
    case Put(e) => Newest(Touched(es, e), n)
    case Get(key) =>
      var found := Lookup(es, key);
      if found.Some? then Touched(es, Entry(key, found.value)) else es
  }

  function ApplyAll(es: seq<Entry>, uses: seq<Use>, n: nat): seq<Entry> {
    if uses == [] then es else Apply(ApplyAll(es, uses[..|uses| - 1], n), uses[|uses| - 1], n)
  }

  function KeysOf(es: seq<Entry>): set<Key> {
    set e | e in es :: e.key
  }

  function KeysUsed(uses: seq<Use>): set<Key> {
    set u | u in uses :: UsedKey(u)
  }

  /** The entry is in the list, and everything newer than it has a key among these. */
  ghost predicate Recent(es: seq<Entry>, e: Entry, keys: set<Key>, early: seq<Entry>, late: seq<Entry>) {
    es == early + [e] + late && DistinctKeys(es) && KeysOf(late) <= keys
  }

  lemma {:induction false} WithoutSplits(a: seq<Entry>, b: seq<Entry>, key: Key)
    ensures Without(a + b, key) == Without(a, key) + Without(b, key)
  {
    if a == [] {
      assert a + b == b;
    } else {
      WithoutSplits(a[1..], b, key);
      assert (a + b)[1..] == a[1..] + b;
    }
  }

  lemma {:induction false} DistinctSize(es: seq<Entry>)
    requires DistinctKeys(es)
    ensures |KeysOf(es)| == |es|
  {
    if es != [] {
      var front, last := es[..|es| - 1], es[|es| - 1];
      DistinctSize(front);
      assert es == front + [last];
      assert KeysOf(es) == KeysOf(front) + {last.key};
      assert last.key !in KeysOf(front);
    }
  }

  lemma {:induction false} TouchKeepsRecent(es: seq<Entry>, e: Entry, keys: set<Key>, early: seq<Entry>, late: seq<Entry>,
                                            other: Entry) returns (early': seq<Entry>, late': seq<Entry>)
    requires Recent(es, e, keys, early, late) && other.key != e.key
    ensures Recent(Touched(es, other), e, keys + {other.key}, early', late')
  {
    early', late' := Without(early, other.key), Touched(late, other);
    WithoutSplits(early + [e], late, other.key);
    WithoutSplits(early, [e], other.key);
    TouchedDistinct(es, other);
    WithoutMembers(late, other.key);
  }

  lemma {:induction false} TrimKeepsRecent(es: seq<Entry>, e: Entry, keys: set<Key>, early: seq<Entry>, late: seq<Entry>,
                                           n: nat) returns (early': seq<Entry>)
    requires Recent(es, e, keys, early, late) && |keys| < n
    ensures Recent(Newest(es, n), e, keys, early', late)
  {
    DistinctNewer(es, early + [e], late);
    DistinctSize(late);
    FewerKeys(KeysOf(late), keys);
    if |es| <= n {
      early' := early;
    } else {
      var cut := |es| - n;
      early' := early[cut..];
      assert Newest(es, n) == early' + [e] + late;
    }
  }

  lemma {:induction false} DistinctNewer(es: seq<Entry>, front: seq<Entry>, late: seq<Entry>)
    requires es == front + late && DistinctKeys(es)
    ensures DistinctKeys(late)
  {
    forall i, j | 0 <= i < j < |late|
      ensures late[i].key != late[j].key
    {
      assert es[|front| + i] == late[i] && es[|front| + j] == late[j];
    }
  }

  lemma {:induction false} FewerKeys(a: set<Key>, b: set<Key>)
    requires a <= b
    ensures |a| <= |b|
  {
    assert |b - a| == |b| - |a|;
  }

  lemma {:induction false} UseKeepsRecent(es: seq<Entry>, e: Entry, keys: set<Key>, early: seq<Entry>, late: seq<Entry>,
                                          use: Use, n: nat) returns (early': seq<Entry>, late': seq<Entry>)
    requires Recent(es, e, keys, early, late) && UsedKey(use) != e.key && |keys + {UsedKey(use)}| < n
    ensures Recent(Apply(es, use, n), e, keys + {UsedKey(use)}, early', late')
  {
    match use
    case Put(other) =>
      early', late' := TouchKeepsRecent(es, e, keys, early, late, other);
      early' := TrimKeepsRecent(Touched(es, other), e, keys + {other.key}, early', late', n);
    case Get(key) =>
      var found := Lookup(es, key);
      if found.Some? {
        early', late' := TouchKeepsRecent(es, e, keys, early, late, Entry(key, found.value));
      } else {
        early', late' := early, late;
      }
  }

  lemma {:induction false} UsesKeepRecent(es: seq<Entry>, e: Entry, early: seq<Entry>, uses: seq<Use>, n: nat)
    returns (early': seq<Entry>, late': seq<Entry>)
    requires Recent(es, e, {}, early, [])
    requires e.key !in KeysUsed(uses) && |KeysUsed(uses)| < n
    ensures Recent(ApplyAll(es, uses, n), e, KeysUsed(uses), early', late')
  {
    if uses == [] {
      early', late' := early, [];
    } else {
      var front, last := uses[..|uses| - 1], uses[|uses| - 1];
      assert uses == front + [last];
      assert KeysUsed(uses) == KeysUsed(front) + {UsedKey(last)};
      FewerKeys(KeysUsed(front), KeysUsed(uses));
      early', late' := UsesKeepRecent(es, e, early, front, n);
      early', late' := UseKeepsRecent(ApplyAll(es, front, n), e, KeysUsed(front), early', late', last, n);
    }
  }

  /** An entry just used survives any uses of fewer other keys than the cache holds: only the
      least recently used are ever dropped. */
  lemma {:induction false} RecentlyUsedSurvives(es: seq<Entry>, e: Entry, uses: seq<Use>, n: nat)
    requires DistinctKeys(es) && es != [] && es[|es| - 1] == e
    requires e.key !in KeysUsed(uses) && |KeysUsed(uses)| < n
    ensures Lookup(ApplyAll(es, uses, n), e.key) == Some(e.travel)
  {
    var early, late := UsesKeepRecent(es, e, es[..|es| - 1], uses, n);
    assert ApplyAll(es, uses, n)[|early|] == e;
    LookupFinds(ApplyAll(es, uses, n), e);
  }

  // ------------------------------------------------------------------
  // What the cache says and what the provider says
  // ------------------------------------------------------------------

  /** How a coordinate pair is rounded to become part of a key. */
  type Rounding = Place -> nat

  function KeyOf(rounding: Rounding, a: Place, b: Place): Key {
    (rounding(a), rounding(b))
  }

  /** Places that round alike travel alike: they are one doorway to the provider. */
  ghost predicate SameDoorways(provider: Provider, rounding: Rounding) {
    forall a, b, c, d ::
      KeyOf(rounding, a, b) == KeyOf(rounding, c, d) ==> provider(a, b) == provider(c, d)
  }

  /** Every entry was the provider's answer for some pair that has its key. */
  ghost predicate Learnt(es: seq<Entry>, provider: Provider, rounding: Rounding) {
    forall e :: e in es ==> LearntFrom(e, provider, rounding)
  }

  ghost predicate LearntFrom(e: Entry, provider: Provider, rounding: Rounding) {
    exists a, b :: KeyOf(rounding, a, b) == e.key && e.travel == provider(a, b)
  }

  /** Nothing in the cache can be wrong about any pair. */
  ghost predicate Trusted(es: seq<Entry>, provider: Provider, rounding: Rounding) {
    SameDoorways(provider, rounding) && Learnt(es, provider, rounding)
  }

  lemma {:induction false} FoundIsTrue(es: seq<Entry>, provider: Provider, rounding: Rounding, a: Place, b: Place)
    requires Trusted(es, provider, rounding) && Lookup(es, KeyOf(rounding, a, b)).Some?
    ensures Lookup(es, KeyOf(rounding, a, b)).value == provider(a, b)
  {
    LookupMeans(es, KeyOf(rounding, a, b));
    var e := Entry(KeyOf(rounding, a, b), Lookup(es, KeyOf(rounding, a, b)).value);
    assert LearntFrom(e, provider, rounding);
  }

  lemma {:induction false} TouchedLearnt(es: seq<Entry>, provider: Provider, rounding: Rounding, e: Entry)
    requires Learnt(es, provider, rounding) && LearntFrom(e, provider, rounding)
    ensures Learnt(Touched(es, e), provider, rounding)
  {
    WithoutMembers(es, e.key);
  }

  lemma {:induction false} NewestLearnt(es: seq<Entry>, provider: Provider, rounding: Rounding, n: nat)
    requires Learnt(es, provider, rounding)
    ensures Learnt(Newest(es, n), provider, rounding)
  {
    assert forall e :: e in Newest(es, n) ==> e in es;
  }

  ghost predicate SameLookups(a: seq<Entry>, b: seq<Entry>) {
    forall key :: Lookup(a, key) == Lookup(b, key)
  }

  lemma {:induction false} LookupLast(es: seq<Entry>, e: Entry, key: Key)
    ensures Lookup(es + [e], key) == if Lookup(es, key).Some? then Lookup(es, key)
                                     else if e.key == key then Some(e.travel) else None
  {
    if es != [] {
      assert (es + [e])[1..] == es[1..] + [e];
      LookupLast(es[1..], e, key);
    } else {
      assert es + [e] == [e] && [e][1..] == [];
    }
  }

  lemma {:induction false} LookupWithout(es: seq<Entry>, gone: Key, key: Key)
    ensures Lookup(Without(es, gone), key) == if key == gone then None else Lookup(es, key)
  {
    if es != [] {
      LookupWithout(es[1..], gone, key);
    }
  }

  /** Using an entry changes no answer. */
  lemma {:induction false} TouchedLookups(es: seq<Entry>, key: Key)
    requires Lookup(es, key).Some?
    ensures SameLookups(Touched(es, Entry(key, Lookup(es, key).value)), es)
  {
    var e := Entry(key, Lookup(es, key).value);
    forall k
      ensures Lookup(Touched(es, e), k) == Lookup(es, k)
    {
      LookupLast(Without(es, key), e, k);
      LookupWithout(es, key, k);
    }
  }

  // ------------------------------------------------------------------
  // Filling the matrix
  // ------------------------------------------------------------------

  const UNKNOWN := Travel(-1, -1)

  type Grid = array2<Travel>

  ghost predicate Sized(m: Grid, places: seq<Place>) {
    m.Length0 == |places| && m.Length1 == |places|
  }

  /** The cell holds what the provider says. */
  ghost predicate Right(m: Grid, places: seq<Place>, provider: Provider, i: nat, j: nat)
    requires Sized(m, places) && i < |places| && j < |places|
    reads m
  {
    m[i, j] == provider(places[i], places[j])
  }

  /** Every cell is right or unknown: nothing is ever invented. */
  ghost predicate Honest(m: Grid, places: seq<Place>, provider: Provider)
    requires Sized(m, places)
    reads m
  {
    forall i, j :: 0 <= i < |places| && 0 <= j < |places| ==> Right(m, places, provider, i, j) || m[i, j] == UNKNOWN
  }

  ghost predicate Bounded(t: Tile, size: nat) {
    t.sources.from < t.sources.to <= size && t.destinations.from < t.destinations.to <= size
  }

  ghost predicate TileRight(m: Grid, places: seq<Place>, provider: Provider, t: Tile)
    requires Sized(m, places)
    reads m
  {
    forall i: nat, j: nat :: i < |places| && j < |places| && Covers(t, i, j) ==> Right(m, places, provider, i, j)
  }

  /** Whatever was right stays right, and nothing is invented. */
  twostate predicate Keeps(m: Grid, places: seq<Place>, provider: Provider)
    requires Sized(m, places)
    reads m
  {
    && (forall t: Tile :: old(TileRight(m, places, provider, t)) ==> TileRight(m, places, provider, t))
    && (old(Honest(m, places, provider)) ==> Honest(m, places, provider))
  }

  /** What the cache holds for a cell, if anything. */
  function Held(es: seq<Entry>, places: seq<Place>, rounding: Rounding, i: nat, j: nat): Option<Travel>
    requires i < |places| && j < |places|
  {
    Lookup(es, KeyOf(rounding, places[i], places[j]))
  }

  /** The cache holds something for every cell of the tile. */
  ghost predicate TileHeld(es: seq<Entry>, places: seq<Place>, rounding: Rounding, t: Tile) {
    forall i: nat, j: nat :: i < |places| && j < |places| && Covers(t, i, j) ==> Held(es, places, rounding, i, j).Some?
  }

  /** Every cell of the tile shows what the cache holds for it. */
  ghost predicate TileShown(m: Grid, es: seq<Entry>, places: seq<Place>, rounding: Rounding, t: Tile)
    requires Sized(m, places)
    reads m
  {
    forall i: nat, j: nat :: i < |places| && j < |places| && Covers(t, i, j) && Held(es, places, rounding, i, j).Some? ==>
      m[i, j] == Held(es, places, rounding, i, j).value
  }

  /** What showed what this cache holds still does. */
  twostate predicate KeepsShown(m: Grid, es: seq<Entry>, places: seq<Place>, rounding: Rounding)
    requires Sized(m, places)
    reads m
  {
    forall t: Tile :: old(TileShown(m, es, places, rounding, t)) ==> TileShown(m, es, places, rounding, t)
  }

  /** One cell filled. */
  method FillCell(m: Grid, ghost es: seq<Entry>, places: seq<Place>, ghost provider: Provider, ghost rounding: Rounding,
                  i: nat, j: nat, travel: Travel)
    requires Sized(m, places) && i < |places| && j < |places|
    modifies m
    ensures m[i, j] == travel
    ensures travel == provider(places[i], places[j]) ==> Right(m, places, provider, i, j) && Keeps(m, places, provider)
    ensures Held(es, places, rounding, i, j) == Some(travel) ==> KeepsShown(m, es, places, rounding)
  {
    m[i, j] := travel;
    if travel == provider(places[i], places[j]) {
      forall t: Tile | old(TileRight(m, places, provider, t))
        ensures TileRight(m, places, provider, t)
      {
        forall x: nat, y: nat | x < |places| && y < |places| && Covers(t, x, y)
          ensures Right(m, places, provider, x, y)
        {
          assert old(Right(m, places, provider, x, y));
        }
      }
      if old(Honest(m, places, provider)) {
        forall x, y | 0 <= x < |places| && 0 <= y < |places|
          ensures Right(m, places, provider, x, y) || m[x, y] == UNKNOWN
        {
          assert old(Right(m, places, provider, x, y)) || old(m[x, y]) == UNKNOWN;
        }
      }
    }
  }

  /** One lookup of the cache for one cell: a hit is shown, and no answer of the cache changes. */
  method ServeCell(m: Grid, cache: PairCache, ghost es: seq<Entry>, places: seq<Place>, ghost provider: Provider,
                   rounding: Rounding, i: nat, j: nat) returns (hit: bool)
    requires Sized(m, places) && i < |places| && j < |places| && cache.Valid() && SameLookups(cache.entries, es)
    modifies m, cache
    ensures cache.Valid() && SameLookups(cache.entries, es)
    ensures Learnt(old(cache.entries), provider, rounding) ==> Learnt(cache.entries, provider, rounding)
    ensures hit <==> Held(es, places, rounding, i, j).Some?
    ensures hit ==> Some(m[i, j]) == Held(es, places, rounding, i, j)
    ensures KeepsShown(m, es, places, rounding)
    ensures Trusted(old(cache.entries), provider, rounding) ==> Keeps(m, places, provider)
    ensures cache.hits + cache.misses == old(cache.hits + cache.misses) + 1
  {
    hide Learnt, SameDoorways, Lookup, Touched;
    var key := KeyOf(rounding, places[i], places[j]);
    ghost var before := cache.entries;
    var found := cache.Get(key);
    hit := found.Some?;
    assert Lookup(before, key) == Lookup(es, key);
    if hit {
      TouchedLookups(before, key);
      if Learnt(before, provider, rounding) {
        FoundIsLearnt(before, provider, rounding, key);
        TouchedLearnt(before, provider, rounding, Entry(key, found.value));
      }
      if Trusted(before, provider, rounding) {
        FoundIsTrue(before, provider, rounding, places[i], places[j]);
      }
      FillCell(m, es, places, provider, rounding, i, j, found.value);
    }
  }

  lemma {:induction false} FoundIsLearnt(es: seq<Entry>, provider: Provider, rounding: Rounding, key: Key)
    requires Learnt(es, provider, rounding) && Lookup(es, key).Some?
    ensures LearntFrom(Entry(key, Lookup(es, key).value), provider, rounding)
  {
    LookupMeans(es, key);
  }

  lemma {:induction false} NextColumn(m: Grid, places: seq<Place>, provider: Provider, i: nat, from: nat, j: nat)
    requires Sized(m, places) && i < |places| && j < |places|
    requires TileRight(m, places, provider, Tile(Band(i, i + 1), Band(from, j))) && Right(m, places, provider, i, j)
    ensures TileRight(m, places, provider, Tile(Band(i, i + 1), Band(from, j + 1)))
  {
    forall x: nat, y: nat | x < |places| && y < |places| && Covers(Tile(Band(i, i + 1), Band(from, j + 1)), x, y)
      ensures Right(m, places, provider, x, y)
    {
      assert Covers(Tile(Band(i, i + 1), Band(from, j)), x, y) || (x == i && y == j);
    }
  }

  lemma {:induction false} NextRow(m: Grid, places: seq<Place>, provider: Provider, from: nat, i: nat, columns: Band)
    requires Sized(m, places)
    requires TileRight(m, places, provider, Tile(Band(from, i), columns))
    requires TileRight(m, places, provider, Tile(Band(i, i + 1), columns))
    ensures TileRight(m, places, provider, Tile(Band(from, i + 1), columns))
  {
    forall x: nat, y: nat | x < |places| && y < |places| && Covers(Tile(Band(from, i + 1), columns), x, y)
      ensures Right(m, places, provider, x, y)
    {
      assert Covers(Tile(Band(from, i), columns), x, y) || Covers(Tile(Band(i, i + 1), columns), x, y);
    }
  }

  /** The same for what a cache holds. */
  lemma {:induction false} NextShown(m: Grid, es: seq<Entry>, places: seq<Place>, rounding: Rounding, i: nat, from: nat, j: nat)
    requires Sized(m, places) && i < |places| && j < |places|
    requires TileShown(m, es, places, rounding, Tile(Band(i, i + 1), Band(from, j)))
    requires Held(es, places, rounding, i, j).Some? ==> Some(m[i, j]) == Held(es, places, rounding, i, j)
    ensures TileShown(m, es, places, rounding, Tile(Band(i, i + 1), Band(from, j + 1)))
  {
    forall x: nat, y: nat | x < |places| && y < |places| && Covers(Tile(Band(i, i + 1), Band(from, j + 1)), x, y)
      ensures Held(es, places, rounding, x, y).Some? ==> m[x, y] == Held(es, places, rounding, x, y).value
    {
      assert Covers(Tile(Band(i, i + 1), Band(from, j)), x, y) || (x == i && y == j);
    }
  }

  lemma {:induction false} NextRowShown(m: Grid, es: seq<Entry>, places: seq<Place>, rounding: Rounding, from: nat, i: nat,
                                        columns: Band)
    requires Sized(m, places)
    requires TileShown(m, es, places, rounding, Tile(Band(from, i), columns))
    requires TileShown(m, es, places, rounding, Tile(Band(i, i + 1), columns))
    ensures TileShown(m, es, places, rounding, Tile(Band(from, i + 1), columns))
  {
    forall x: nat, y: nat | x < |places| && y < |places| && Covers(Tile(Band(from, i + 1), columns), x, y)
      ensures Held(es, places, rounding, x, y).Some? ==> m[x, y] == Held(es, places, rounding, x, y).value
    {
      assert Covers(Tile(Band(from, i), columns), x, y) || Covers(Tile(Band(i, i + 1), columns), x, y);
    }
  }

  lemma {:induction false} NothingShown(m: Grid, es: seq<Entry>, places: seq<Place>, rounding: Rounding, t: Tile)
    requires Sized(m, places) && (t.sources.from == t.sources.to || t.destinations.from == t.destinations.to)
    ensures TileShown(m, es, places, rounding, t) && TileHeld(es, places, rounding, t)
  {
  }

  lemma {:induction false} NextHeld(es: seq<Entry>, places: seq<Place>, rounding: Rounding, i: nat, from: nat, j: nat)
    requires i < |places| && from <= j < |places|
    ensures TileHeld(es, places, rounding, Tile(Band(i, i + 1), Band(from, j + 1)))
       <==> TileHeld(es, places, rounding, Tile(Band(i, i + 1), Band(from, j))) && Held(es, places, rounding, i, j).Some?
  {
    var more, part := Tile(Band(i, i + 1), Band(from, j + 1)), Tile(Band(i, i + 1), Band(from, j));
    assert forall x: nat, y: nat :: (Covers(more, x, y) <==> Covers(part, x, y) || (x == i && y == j));
  }

  lemma {:induction false} NextRowHeld(es: seq<Entry>, places: seq<Place>, rounding: Rounding, from: nat, i: nat,
                                       columns: Band)
    requires from <= i
    ensures TileHeld(es, places, rounding, Tile(Band(from, i + 1), columns))
       <==> (&& TileHeld(es, places, rounding, Tile(Band(from, i), columns))
             && TileHeld(es, places, rounding, Tile(Band(i, i + 1), columns)))
  {
    var more, part, row := Tile(Band(from, i + 1), columns), Tile(Band(from, i), columns), Tile(Band(i, i + 1), columns);
    assert forall x: nat, y: nat :: (Covers(more, x, y) <==> Covers(part, x, y) || Covers(row, x, y));
  }

  /** One row of a tile. */
  method ServeRow(m: Grid, cache: PairCache, ghost es: seq<Entry>, places: seq<Place>, ghost provider: Provider,
                  rounding: Rounding, i: nat, columns: Band) returns (missing: bool)
    requires Sized(m, places) && i < |places| && columns.from <= columns.to <= |places|
    requires cache.Valid() && SameLookups(cache.entries, es)
    modifies m, cache
    ensures cache.Valid() && SameLookups(cache.entries, es)
    ensures Learnt(old(cache.entries), provider, rounding) ==> Learnt(cache.entries, provider, rounding)
    ensures !missing <==> TileHeld(es, places, rounding, Tile(Band(i, i + 1), columns))
    ensures TileShown(m, es, places, rounding, Tile(Band(i, i + 1), columns)) && KeepsShown(m, es, places, rounding)
    ensures Trusted(old(cache.entries), provider, rounding) ==> Keeps(m, places, provider)
    ensures cache.hits + cache.misses == old(cache.hits + cache.misses) + Width(columns)
  {
    hide Learnt, SameDoorways, TileRight, TileShown, TileHeld, SameLookups, Held;
    missing := false;
    NothingShown(m, es, places, rounding, Tile(Band(i, i + 1), Band(columns.from, columns.from)));
    for j := columns.from to columns.to
      invariant cache.Valid() && SameLookups(cache.entries, es)
      invariant Learnt(old(cache.entries), provider, rounding) ==> Learnt(cache.entries, provider, rounding)
      invariant !missing <==> TileHeld(es, places, rounding, Tile(Band(i, i + 1), Band(columns.from, j)))
      invariant TileShown(m, es, places, rounding, Tile(Band(i, i + 1), Band(columns.from, j)))
      invariant KeepsShown(m, es, places, rounding)
      invariant Trusted(old(cache.entries), provider, rounding) ==> Keeps(m, places, provider)
      invariant cache.hits + cache.misses == old(cache.hits + cache.misses) + (j - columns.from)
    {
      var hit := ServeCell(m, cache, es, places, provider, rounding, i, j);
      missing := missing || !hit;
      NextShown(m, es, places, rounding, i, columns.from, j);
      NextHeld(es, places, rounding, i, columns.from, j);
    }
    assert columns == Band(columns.from, columns.to);
  }

  /** The cache serves what it can of a tile, each cell looked up once. */
  method ServeTile(m: Grid, cache: PairCache, ghost es: seq<Entry>, places: seq<Place>, ghost provider: Provider,
                   rounding: Rounding, t: Tile) returns (missing: bool)
    requires Sized(m, places) && Bounded(t, |places|) && cache.Valid() && SameLookups(cache.entries, es)
    modifies m, cache
    ensures cache.Valid() && SameLookups(cache.entries, es)
    ensures Learnt(old(cache.entries), provider, rounding) ==> Learnt(cache.entries, provider, rounding)
    ensures !missing <==> TileHeld(es, places, rounding, t)
    ensures TileShown(m, es, places, rounding, t) && KeepsShown(m, es, places, rounding)
    ensures Trusted(old(cache.entries), provider, rounding) ==> Keeps(m, places, provider)
    ensures cache.hits + cache.misses == old(cache.hits + cache.misses) + Cells(t)
  {
    hide Learnt, SameDoorways, TileRight, TileShown, TileHeld, SameLookups, Held;
    missing := false;
    NothingShown(m, es, places, rounding, Tile(Band(t.sources.from, t.sources.from), t.destinations));
    for i := t.sources.from to t.sources.to
      invariant cache.Valid() && SameLookups(cache.entries, es)
      invariant Learnt(old(cache.entries), provider, rounding) ==> Learnt(cache.entries, provider, rounding)
      invariant !missing <==> TileHeld(es, places, rounding, Tile(Band(t.sources.from, i), t.destinations))
      invariant TileShown(m, es, places, rounding, Tile(Band(t.sources.from, i), t.destinations))
      invariant KeepsShown(m, es, places, rounding)
      invariant Trusted(old(cache.entries), provider, rounding) ==> Keeps(m, places, provider)
      invariant cache.hits + cache.misses
             == old(cache.hits + cache.misses) + (i - t.sources.from) * Width(t.destinations)
    {
      var gap := ServeRow(m, cache, es, places, provider, rounding, i, t.destinations);
      missing := missing || gap;
      NextRowShown(m, es, places, rounding, t.sources.from, i, t.destinations);
      NextRowHeld(es, places, rounding, t.sources.from, i, t.destinations);
      assert (i + 1 - t.sources.from) * Width(t.destinations)
          == (i - t.sources.from) * Width(t.destinations) + Width(t.destinations);
    }
    assert t == Tile(Band(t.sources.from, t.sources.to), t.destinations);
  }

  /** What a trusted cache shows is right. */
  lemma {:induction false} ShownIsRight(m: Grid, es: seq<Entry>, places: seq<Place>, provider: Provider, rounding: Rounding,
                                        t: Tile)
    requires Sized(m, places) && Trusted(es, provider, rounding)
    requires TileHeld(es, places, rounding, t) && TileShown(m, es, places, rounding, t)
    ensures TileRight(m, places, provider, t)
  {
    forall i: nat, j: nat | i < |places| && j < |places| && Covers(t, i, j)
      ensures Right(m, places, provider, i, j)
    {
      FoundIsTrue(es, provider, rounding, places[i], places[j]);
    }
  }

  lemma {:induction false} NothingCovered(m: Grid, places: seq<Place>, provider: Provider, t: Tile)
    requires Sized(m, places) && (t.sources.from == t.sources.to || t.destinations.from == t.destinations.to)
    ensures TileRight(m, places, provider, t)
  {
  }

  /** A fetched tile is written into the matrix and the cache, cell by cell. */
  method WriteRow(m: Grid, cache: PairCache, places: seq<Place>, ghost provider: Provider, rounding: Rounding, i: nat,
                  columns: Band, row: seq<Travel>)
    requires Sized(m, places) && i < |places| && columns.from <= columns.to <= |places| && cache.Valid()
    requires |row| == Width(columns)
    requires forall c :: 0 <= c < |row| ==> row[c] == provider(places[i], places[columns.from + c])
    modifies m, cache
    ensures cache.Valid()
    ensures Learnt(old(cache.entries), provider, rounding) ==> Learnt(cache.entries, provider, rounding)
    ensures Keeps(m, places, provider)
    ensures TileRight(m, places, provider, Tile(Band(i, i + 1), columns))
    ensures cache.hits + cache.misses == old(cache.hits + cache.misses)
  {
    hide Learnt, Touched, Newest, TileRight, TileShown;
    NothingCovered(m, places, provider, Tile(Band(i, i + 1), Band(columns.from, columns.from)));
    for j := columns.from to columns.to
      invariant cache.Valid()
      invariant Learnt(old(cache.entries), provider, rounding) ==> Learnt(cache.entries, provider, rounding)
      invariant Keeps(m, places, provider)
      invariant TileRight(m, places, provider, Tile(Band(i, i + 1), Band(columns.from, j)))
      invariant cache.hits + cache.misses == old(cache.hits + cache.misses)
    {
      var travel := row[j - columns.from];
      assert travel == provider(places[i], places[j]);
      FillCell(m, cache.entries, places, provider, rounding, i, j, travel);
      var key := KeyOf(rounding, places[i], places[j]);
      if Learnt(cache.entries, provider, rounding) {
        assert LearntFrom(Entry(key, travel), provider, rounding);
        TouchedLearnt(cache.entries, provider, rounding, Entry(key, travel));
        NewestLearnt(Touched(cache.entries, Entry(key, travel)), provider, rounding, cache.maxEntries);
      }
      cache.Put(key, travel);
      NextColumn(m, places, provider, i, columns.from, j);
    }
    assert columns == Band(columns.from, columns.to);
  }

  method WriteTile(m: Grid, cache: PairCache, places: seq<Place>, ghost provider: Provider, rounding: Rounding, t: Tile,
                   body: seq<seq<Travel>>)
    requires Sized(m, places) && Bounded(t, |places|) && cache.Valid()
    requires BlockOf(places, provider, t, body)
    modifies m, cache
    ensures cache.Valid()
    ensures Learnt(old(cache.entries), provider, rounding) ==> Learnt(cache.entries, provider, rounding)
    ensures Keeps(m, places, provider) && TileRight(m, places, provider, t)
    ensures cache.hits + cache.misses == old(cache.hits + cache.misses)
  {
    hide Learnt, TileRight;
    NothingCovered(m, places, provider, Tile(Band(t.sources.from, t.sources.from), t.destinations));
    for i := t.sources.from to t.sources.to
      invariant cache.Valid()
      invariant Learnt(old(cache.entries), provider, rounding) ==> Learnt(cache.entries, provider, rounding)
      invariant Keeps(m, places, provider)
      invariant TileRight(m, places, provider, Tile(Band(t.sources.from, i), t.destinations))
      invariant cache.hits + cache.misses == old(cache.hits + cache.misses)
    {
      WriteRow(m, cache, places, provider, rounding, i, t.destinations, body[i - t.sources.from]);
      NextRow(m, places, provider, t.sources.from, i, t.destinations);
    }
    assert t == Tile(Band(t.sources.from, t.sources.to), t.destinations);
  }

  // ------------------------------------------------------------------
  // The whole matrix
  // ------------------------------------------------------------------

  /** The matrix one unchunked request would give. */
  ghost predicate Unchunked(places: seq<Place>, provider: Provider, rows: seq<seq<Travel>>) {
    && |rows| == |places|
    && forall i :: 0 <= i < |rows| ==>
      && |rows[i]| == |places|
      && forall j :: 0 <= j < |rows[i]| ==> rows[i][j] == provider(places[i], places[j])
  }

  /** Every cell is the provider's or unknown. */
  ghost predicate NothingInvented(places: seq<Place>, provider: Provider, rows: seq<seq<Travel>>) {
    && |rows| == |places|
    && forall i :: 0 <= i < |rows| ==>
      && |rows[i]| == |places|
      && forall j :: 0 <= j < |rows[i]| ==> rows[i][j] == provider(places[i], places[j]) || rows[i][j] == UNKNOWN
  }

  ghost predicate TilesRight(m: Grid, places: seq<Place>, provider: Provider, tiles: seq<Tile>, k: nat)
    requires Sized(m, places) && k <= |tiles|
    reads m
  {
    forall x :: 0 <= x < k ==> TileRight(m, places, provider, tiles[x])
  }

  /** One turn of the loop: what the cache holds is served; if anything is missing the tile is
      fetched, and a fetch that fails leaves what was served. A tile the cache holds whole shows what
      the cache holds; a tile that is fetched is right; and with a cache that can be trusted, so is
      one that is not. */
  method BuildTile(m: Grid, cache: PairCache, places: seq<Place>, provider: Provider, rounding: Rounding, t: Tile,
                   answers: bool) returns (failed: bool)
    requires Sized(m, places) && Bounded(t, |places|) && cache.Valid()
    modifies m, cache
    ensures cache.Valid()
    ensures Learnt(old(cache.entries), provider, rounding) ==> Learnt(cache.entries, provider, rounding)
    ensures failed <==> !TileHeld(old(cache.entries), places, rounding, t) && !answers
    ensures TileHeld(old(cache.entries), places, rounding, t) ==>
      && SameLookups(cache.entries, old(cache.entries))
      && TileShown(m, old(cache.entries), places, rounding, t) && KeepsShown(m, old(cache.entries), places, rounding)
    ensures !TileHeld(old(cache.entries), places, rounding, t) && answers ==> TileRight(m, places, provider, t)
    ensures Trusted(old(cache.entries), provider, rounding) ==>
      Keeps(m, places, provider) && (!failed ==> TileRight(m, places, provider, t))
    ensures cache.hits + cache.misses == old(cache.hits + cache.misses) + Cells(t)
  {
    hide TileRight, TileShown, TileHeld, Learnt, SameDoorways;
    ghost var es := cache.entries;
    var missing := ServeTile(m, cache, es, places, provider, rounding, t);
    failed := missing && !answers;
    if missing && answers {
      var body := FetchTile(places, t, provider);
      WriteTile(m, cache, places, provider, rounding, t, body);
    } else if !missing && Trusted(es, provider, rounding) {
      ShownIsRight(m, es, places, provider, rounding, t);
    }
  }

  /** Every cell lies in some tile, so when every tile is right the matrix is. */
  lemma {:induction false} AllTilesRight(m: Grid, places: seq<Place>, provider: Provider, tiles: seq<Tile>, cap: int,
                                         i: nat, j: nat)
    requires Sized(m, places) && Tiling(tiles, |places|, cap) && TilesRight(m, places, provider, tiles, |tiles|)
    requires i < |places| && j < |places|
    ensures Right(m, places, provider, i, j)
  {
    CountedIsCovered(tiles, i, j);
    var k :| 0 <= k < |tiles| && Covers(tiles[k], i, j);
    assert TileRight(m, places, provider, tiles[k]);
  }

  method Rows(m: Grid, places: seq<Place>) returns (rows: seq<seq<Travel>>)
    requires Sized(m, places)
    ensures |rows| == |places|
    ensures forall i :: 0 <= i < |rows| ==> |rows[i]| == |places| && forall j :: 0 <= j < |places| ==> rows[i][j] == m[i, j]
  {
    rows := [];
    for i := 0 to |places|
      invariant |rows| == i
      invariant forall x :: 0 <= x < i ==> |rows[x]| == |places| && forall j :: 0 <= j < |places| ==> rows[x][j] == m[x, j]
    {
      var row: seq<Travel> := [];
      for j := 0 to |places|
        invariant |row| == j && forall y :: 0 <= y < j ==> row[y] == m[i, y]
      {
        row := row + [m[i, j]];
      }
      rows := rows + [row];
    }
  }

  /** Every tile whose fetch would be answered is right. */
  ghost predicate AnsweredRight(m: Grid, places: seq<Place>, provider: Provider, tiles: seq<Tile>, answers: nat -> bool,
                                k: nat)
    requires Sized(m, places) && k <= |tiles|
    reads m
  {
    forall x :: 0 <= x < k && answers(x) ==> TileRight(m, places, provider, tiles[x])
  }

  /** A failed fetch costs only its own tile: the cells of every other tile are the provider's. */
  ghost predicate OnlyFailedUnknown(places: seq<Place>, provider: Provider, rows: seq<seq<Travel>>, tiles: seq<Tile>,
                                    answers: nat -> bool)
    requires NothingInvented(places, provider, rows)
  {
    forall x, i: nat, j: nat :: 0 <= x < |tiles| && answers(x) && i < |places| && j < |places| && Covers(tiles[x], i, j) ==>
      rows[i][j] == provider(places[i], places[j])
  }

  /** The cache holds something for every pair. */
  ghost predicate AllHeld(es: seq<Entry>, places: seq<Place>, rounding: Rounding) {
    forall i: nat, j: nat :: i < |places| && j < |places| ==> Held(es, places, rounding, i, j).Some?
  }

  /** Every cell is what the cache held for its pair. */
  ghost predicate FromCache(es: seq<Entry>, places: seq<Place>, rounding: Rounding, rows: seq<seq<Travel>>) {
    && |rows| == |places|
    && forall i :: 0 <= i < |rows| ==>
      && |rows[i]| == |places|
      && forall j :: 0 <= j < |rows[i]| ==> Some(rows[i][j]) == Held(es, places, rounding, i, j)
  }

  ghost predicate TilesShown(m: Grid, es: seq<Entry>, places: seq<Place>, rounding: Rounding, tiles: seq<Tile>, k: nat)
    requires Sized(m, places) && k <= |tiles|
    reads m
  {
    forall x :: 0 <= x < k ==> TileShown(m, es, places, rounding, tiles[x])
  }

  /** What the build promises of its answer, from what the cache held before. */
  ghost predicate Built(es: seq<Entry>, places: seq<Place>, provider: Provider, rounding: Rounding, answers: nat -> bool,
                        rows: seq<seq<Travel>>, degraded: bool, tiles: seq<Tile>)
  {
    && (AllHeld(es, places, rounding) ==> FromCache(es, places, rounding, rows) && !degraded)
    && (Trusted(es, provider, rounding) ==>
          && NothingInvented(places, provider, rows) && OnlyFailedUnknown(places, provider, rows, tiles, answers)
          && (!degraded ==> Unchunked(places, provider, rows)))
  }

  /** `build_large_matrix`, over a provider whose fetch of the k-th tile may fail. With a cache that
      can be trusted no cell is ever invented, a failed fetch costs only its own tile, and a matrix
      not marked degraded is the one an unchunked request would give, whatever the cap, the cache's
      size and what it already held. Trusted or not, a cache that holds every pair is believed. */
  method BuildLargeMatrix(places: seq<Place>, provider: Provider, rounding: Rounding, maxCells: int, cache: PairCache,
                          answers: nat -> bool)
    returns (r: Result<(seq<seq<Travel>>, bool)>, ghost tiles: seq<Tile>)
    requires cache.Valid()
    modifies cache
    ensures cache.Valid()
    ensures Learnt(old(cache.entries), provider, rounding) ==> Learnt(cache.entries, provider, rounding)
    ensures r.Success? <==> places != [] && maxCells > 0
    ensures r.Success? ==> Tiling(tiles, |places|, maxCells)
    ensures r.Success? ==> Built(old(cache.entries), places, provider, rounding, answers, r.value.0, r.value.1, tiles)
    ensures r.Success? && (forall k :: answers(k)) ==> !r.value.1
  {
    hide Learnt, SameDoorways, TileRight, Tiling, Honest, TileShown, TileHeld, SameLookups, AllHeld, Built;
    if places == [] {
      return Failure("cannot build a matrix over no locations"), [];
    }
    var planned := PlanTiles(|places|, maxCells);
    if planned.Failure? {
      return Failure(planned.reason), [];
    }
    tiles := planned.value;
    ghost var es := cache.entries;
    var m := new Travel[|places|, |places|]((i, j) => UNKNOWN);
    var degraded := false;
    AllUnknown(m, places, provider, tiles);
    SameAgain(es);
    for k := 0 to |planned.value|
      invariant cache.Valid()
      invariant Learnt(es, provider, rounding) ==> Learnt(cache.entries, provider, rounding)
      invariant AllHeld(es, places, rounding) ==>
        SameLookups(cache.entries, es) && TilesShown(m, es, places, rounding, tiles, k) && !degraded
      invariant Trusted(es, provider, rounding) ==>
        Honest(m, places, provider) && AnsweredRight(m, places, provider, tiles, answers, k)
      invariant Trusted(es, provider, rounding) && !degraded ==> TilesRight(m, places, provider, tiles, k)
      invariant (forall x :: answers(x)) ==> !degraded
    {
      TileBounded(tiles, |places|, maxCells, k);
      ghost var before := cache.entries;
      if AllHeld(es, places, rounding) {
        AllHeldIsTileHeld(es, before, places, rounding, tiles[k]);
        SameTilesShown(m, es, before, places, rounding, tiles, k);
      }
      var failed := BuildTile(m, cache, places, provider, rounding, planned.value[k], answers(k));
      degraded := degraded || failed;
      if AllHeld(es, places, rounding) {
        SameTilesShown(m, before, es, places, rounding, tiles, k + 1);
        SameTransitive(cache.entries, before, es);
      }
      if Trusted(es, provider, rounding) && !degraded {
        OneMoreRight(m, places, provider, tiles, k);
      }
    }
    var rows := Rows(m, places);
    RowsAreBuilt(m, es, places, provider, rounding, answers, tiles, maxCells, rows, degraded);
    return Success((rows, degraded)), tiles;
  }

  lemma {:induction false} SameAgain(es: seq<Entry>)
    ensures SameLookups(es, es)
  {
  }

  lemma {:induction false} SameTransitive(a: seq<Entry>, b: seq<Entry>, c: seq<Entry>)
    requires SameLookups(a, b) && SameLookups(b, c)
    ensures SameLookups(a, c)
  {
  }

  lemma {:induction false} AllHeldIsTileHeld(es: seq<Entry>, now: seq<Entry>, places: seq<Place>, rounding: Rounding, t: Tile)
    requires AllHeld(es, places, rounding) && SameLookups(now, es)
    ensures TileHeld(now, places, rounding, t)
  {
    forall i: nat, j: nat | i < |places| && j < |places| && Covers(t, i, j)
      ensures Held(now, places, rounding, i, j).Some?
    {
      assert Held(es, places, rounding, i, j).Some?;
    }
  }

  lemma {:induction false} SameTilesShown(m: Grid, a: seq<Entry>, b: seq<Entry>, places: seq<Place>, rounding: Rounding,
                                          tiles: seq<Tile>, k: nat)
    requires Sized(m, places) && k <= |tiles| && (SameLookups(a, b) || SameLookups(b, a))
    ensures TilesShown(m, a, places, rounding, tiles, k) <==> TilesShown(m, b, places, rounding, tiles, k)
  {
    forall i: nat, j: nat | i < |places| && j < |places|
      ensures Held(a, places, rounding, i, j) == Held(b, places, rounding, i, j)
    {
    }
    forall x | 0 <= x < k
      ensures TileShown(m, a, places, rounding, tiles[x]) <==> TileShown(m, b, places, rounding, tiles[x])
    {
    }
  }

  lemma {:induction false} RowsAreBuilt(m: Grid, es: seq<Entry>, places: seq<Place>, provider: Provider, rounding: Rounding,
                                        answers: nat -> bool, tiles: seq<Tile>, cap: int, rows: seq<seq<Travel>>,
                                        degraded: bool)
    requires Sized(m, places) && Tiling(tiles, |places|, cap) && |rows| == |places|
    requires forall i :: 0 <= i < |rows| ==> |rows[i]| == |places| && forall j :: 0 <= j < |places| ==> rows[i][j] == m[i, j]
    requires AllHeld(es, places, rounding) ==> TilesShown(m, es, places, rounding, tiles, |tiles|) && !degraded
    requires Trusted(es, provider, rounding) ==>
      Honest(m, places, provider) && AnsweredRight(m, places, provider, tiles, answers, |tiles|)
    requires Trusted(es, provider, rounding) && !degraded ==> TilesRight(m, places, provider, tiles, |tiles|)
    ensures Built(es, places, provider, rounding, answers, rows, degraded, tiles)
  {
    hide Trusted, Tiling, Honest, AnsweredRight, TilesRight, TileShown, Held, AllHeld;
    if Trusted(es, provider, rounding) {
      RowsMean(m, places, provider, tiles, cap, rows, degraded, answers);
    }
    if AllHeld(es, places, rounding) {
      forall i, j | 0 <= i < |rows| && 0 <= j < |rows[i]|
        ensures Some(rows[i][j]) == Held(es, places, rounding, i, j)
      {
        AllTilesShown(m, es, places, rounding, tiles, cap, i, j);
      }
    }
  }

  lemma {:induction false} AllTilesShown(m: Grid, es: seq<Entry>, places: seq<Place>, rounding: Rounding, tiles: seq<Tile>,
                                         cap: int, i: nat, j: nat)
    requires Sized(m, places) && Tiling(tiles, |places|, cap) && TilesShown(m, es, places, rounding, tiles, |tiles|)
    requires AllHeld(es, places, rounding) && i < |places| && j < |places|
    ensures Some(m[i, j]) == Held(es, places, rounding, i, j)
  {
    CountedIsCovered(tiles, i, j);
    var k :| 0 <= k < |tiles| && Covers(tiles[k], i, j);
    assert TileShown(m, es, places, rounding, tiles[k]);
  }

  // ------------------------------------------------------------------
  // When a cached build is the plain one
  // ------------------------------------------------------------------

  /** A cache that learnt every pair from the provider gives the matrix the provider would. */
  ghost predicate CacheIsTransparent(provider: Provider, rounding: Rounding) {
    forall es, places, rows ::
      (DistinctKeys(es) && Learnt(es, provider, rounding) && AllHeld(es, places, rounding)
       && FromCache(es, places, rounding, rows)) ==> Unchunked(places, provider, rows)
  }

  /** The cached build is the plain one, for every cache learnt from the same provider, exactly when
      places that round to one key travel alike. */
  lemma {:induction false} TransparentExactly(provider: Provider, rounding: Rounding)
    ensures CacheIsTransparent(provider, rounding) <==> SameDoorways(provider, rounding)
    ensures SameDoorways(provider, rounding) ==>
      forall es :: Learnt(es, provider, rounding) ==> Trusted(es, provider, rounding)
  {
    hide CacheIsTransparent;
    if SameDoorways(provider, rounding) {
      TransparentFromDoorways(provider, rounding);
    } else {
      var a, b, c, d :| KeyOf(rounding, a, b) == KeyOf(rounding, c, d) && provider(a, b) != provider(c, d);
      StaleEntryShows(provider, rounding, a, b, c, d);
    }
  }

  lemma {:induction false} TransparentFromDoorways(provider: Provider, rounding: Rounding)
    requires SameDoorways(provider, rounding)
    ensures CacheIsTransparent(provider, rounding)
  {
    forall es, places, rows | DistinctKeys(es) && Learnt(es, provider, rounding) && AllHeld(es, places, rounding)
      && FromCache(es, places, rounding, rows)
      ensures Unchunked(places, provider, rows)
    {
      forall i, j | 0 <= i < |rows| && 0 <= j < |rows[i]|
        ensures rows[i][j] == provider(places[i], places[j])
      {
        assert Some(rows[i][j]) == Held(es, places, rounding, i, j);
        FoundIsTrue(es, provider, rounding, places[i], places[j]);
      }
    }
  }

  /** The four pairs of two places, the second pair as the provider answers for its double. */
  function Stale(provider: Provider, rounding: Rounding, a: Place, b: Place, c: Place, d: Place): seq<Entry> {
    var stale := Entry(KeyOf(rounding, a, b), provider(c, d));
    if rounding(a) == rounding(b) then [stale]
    else [stale, Entry(KeyOf(rounding, a, a), provider(a, a)), Entry(KeyOf(rounding, b, a), provider(b, a)),
          Entry(KeyOf(rounding, b, b), provider(b, b))]
  }

  lemma {:induction false} StaleIsHeld(provider: Provider, rounding: Rounding, a: Place, b: Place, c: Place, d: Place)
    requires KeyOf(rounding, a, b) == KeyOf(rounding, c, d)
    ensures var es := Stale(provider, rounding, a, b, c, d);
            && DistinctKeys(es) && Learnt(es, provider, rounding) && AllHeld(es, [a, b], rounding)
            && Held(es, [a, b], rounding, 0, 1) == Some(provider(c, d))
  {
    var es := Stale(provider, rounding, a, b, c, d);
    assert LearntFrom(es[0], provider, rounding);
    if rounding(a) != rounding(b) {
      assert LearntFrom(es[1], provider, rounding) && LearntFrom(es[2], provider, rounding)
          && LearntFrom(es[3], provider, rounding);
      LookupFinds(es, es[1]);
      LookupFinds(es, es[2]);
      LookupFinds(es, es[3]);
    }
    LookupFinds(es, es[0]);
  }

  /** Where two such pairs travel differently, a cache that knows the one answers for the other. */
  lemma {:induction false} StaleEntryShows(provider: Provider, rounding: Rounding, a: Place, b: Place, c: Place, d: Place)
    requires KeyOf(rounding, a, b) == KeyOf(rounding, c, d) && provider(a, b) != provider(c, d)
    ensures !CacheIsTransparent(provider, rounding)
  {
    hide AllHeld, Learnt, DistinctKeys, Stale;
    var es, places := Stale(provider, rounding, a, b, c, d), [a, b];
    StaleIsHeld(provider, rounding, a, b, c, d);
    HeldAt(es, places, rounding);
    var rows := [[Held(es, places, rounding, 0, 0).value, Held(es, places, rounding, 0, 1).value],
                 [Held(es, places, rounding, 1, 0).value, Held(es, places, rounding, 1, 1).value]];
    assert FromCache(es, places, rounding, rows);
    assert rows[0][1] == provider(c, d);
    assert !Unchunked(places, provider, rows);
  }

  lemma {:induction false} HeldAt(es: seq<Entry>, places: seq<Place>, rounding: Rounding)
    requires |places| == 2 && AllHeld(es, places, rounding)
    ensures Held(es, places, rounding, 0, 0).Some? && Held(es, places, rounding, 0, 1).Some?
    ensures Held(es, places, rounding, 1, 0).Some? && Held(es, places, rounding, 1, 1).Some?
  {
  }

  lemma {:induction false} AllUnknown(m: Grid, places: seq<Place>, provider: Provider, tiles: seq<Tile>)
    requires Sized(m, places) && forall i, j :: 0 <= i < m.Length0 && 0 <= j < m.Length1 ==> m[i, j] == UNKNOWN
    ensures Honest(m, places, provider) && TilesRight(m, places, provider, tiles, 0)
  {
  }

  lemma {:induction false} TileBounded(tiles: seq<Tile>, size: nat, cap: int, k: nat)
    requires Tiling(tiles, size, cap) && k < |tiles|
    ensures Bounded(tiles[k], size)
  {
    assert tiles[k] in tiles;
  }

  lemma {:induction false} OneMoreRight(m: Grid, places: seq<Place>, provider: Provider, tiles: seq<Tile>, k: nat)
    requires Sized(m, places) && k < |tiles|
    requires TilesRight(m, places, provider, tiles, k) && TileRight(m, places, provider, tiles[k])
    ensures TilesRight(m, places, provider, tiles, k + 1)
  {
  }

  lemma {:induction false} RowsMean(m: Grid, places: seq<Place>, provider: Provider, tiles: seq<Tile>, cap: int,
                                    rows: seq<seq<Travel>>, degraded: bool, answers: nat -> bool)
    requires Sized(m, places) && Tiling(tiles, |places|, cap) && Honest(m, places, provider)
    requires AnsweredRight(m, places, provider, tiles, answers, |tiles|)
    requires !degraded ==> TilesRight(m, places, provider, tiles, |tiles|)
    requires |rows| == |places|
    requires forall i :: 0 <= i < |rows| ==> |rows[i]| == |places| && forall j :: 0 <= j < |places| ==> rows[i][j] == m[i, j]
    ensures NothingInvented(places, provider, rows) && OnlyFailedUnknown(places, provider, rows, tiles, answers)
    ensures !degraded ==> Unchunked(places, provider, rows)
  {
    hide Tiling, TilesRight;
    forall x, i: nat, j: nat | 0 <= x < |tiles| && answers(x) && i < |places| && j < |places| && Covers(tiles[x], i, j)
      ensures rows[i][j] == provider(places[i], places[j])
    {
      assert TileRight(m, places, provider, tiles[x]) && Right(m, places, provider, i, j);
    }
    forall i, j | 0 <= i < |rows| && 0 <= j < |rows[i]|
      ensures rows[i][j] == provider(places[i], places[j]) || (degraded && rows[i][j] == UNKNOWN)
    {
      assert rows[i][j] == m[i, j];
      if !degraded {
        AllTilesRight(m, places, provider, tiles, cap, i, j);
      } else {
        assert Right(m, places, provider, i, j) || m[i, j] == UNKNOWN;
      }
    }
  }
}
