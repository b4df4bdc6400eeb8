/** Tiling a large matrix (`plan_tiles` of vrp/matrix.py) and asking for one tile with
    tile-local indices (`_fetch_tile`). */
module Tiles {
  import opened Common

  /** The half-open stretch `from..to`. */
  datatype Band = Band(from: nat, to: nat)

  datatype Tile = Tile(sources: Band, destinations: Band)

  predicate In(x: nat, b: Band) {
    b.from <= x < b.to
  }

  predicate Covers(t: Tile, i: nat, j: nat) {
    In(i, t.sources) && In(j, t.destinations)
  }

  function Width(b: Band): int {
    b.to - b.from
  }

  function Cells(t: Tile): int {
    Width(t.sources) * Width(t.destinations)
  }

  // ------------------------------------------------------------------
  // Bands
  // ------------------------------------------------------------------

  /** `range(from, size, block)`, each start with its stretch. */
  function Bands(from: nat, size: nat, block: nat): seq<Band>
    requires block > 0
    decreases size - from
  {
    if from >= size then [] else [Band(from, Min(from + block, size))] + Bands(from + block, size, block)
  }

  /** How many bands hold `x`. */
  function HoldsIn(bands: seq<Band>, x: nat): nat {
    if bands == [] then 0 else (if In(x, bands[0]) then 1 else 0) + HoldsIn(bands[1..], x)
  }

  /** Every index lies in exactly one band. */
  lemma {:induction false} BandsCoverOnce(from: nat, size: nat, block: nat, x: nat)
    requires block > 0
    ensures HoldsIn(Bands(from, size, block), x) == if from <= x < size then 1 else 0
    decreases size - from
  {
    if from < size {
      BandsCoverOnce(from + block, size, block, x);
    }
  }

  lemma {:induction false} BandsFit(from: nat, size: nat, block: nat)
    requires block > 0
    ensures forall b :: b in Bands(from, size, block) ==> b.from < b.to <= size && Width(b) <= block
    decreases size - from
  {
    if from < size {
      BandsFit(from + block, size, block);
    }
  }

  // ------------------------------------------------------------------
  // Tiles
  // ------------------------------------------------------------------

  function Row(sources: Band, columns: seq<Band>): seq<Tile> {
    if columns == [] then [] else [Tile(sources, columns[0])] + Row(sources, columns[1..])
  }

  function Blocks(rows: seq<Band>, columns: seq<Band>): seq<Tile> {
    if rows == [] then [] else Row(rows[0], columns) + Blocks(rows[1..], columns)
  }

  /** How many tiles cover a cell. */
  function CoverCount(tiles: seq<Tile>, i: nat, j: nat): nat {
    if tiles == [] then 0 else (if Covers(tiles[0], i, j) then 1 else 0) + CoverCount(tiles[1..], i, j)
  }

  lemma {:induction false} CountAppends(a: seq<Tile>, b: seq<Tile>, i: nat, j: nat)
    ensures CoverCount(a + b, i, j) == CoverCount(a, i, j) + CoverCount(b, i, j)
  {
    if a == [] {
      assert a + b == b;
    } else {
      CountAppends(a[1..], b, i, j);
      assert (a + b)[1..] == a[1..] + b;
    }
  }

  lemma {:induction false} RowCovers(sources: Band, columns: seq<Band>, i: nat, j: nat)
    ensures CoverCount(Row(sources, columns), i, j) == if In(i, sources) then HoldsIn(columns, j) else 0
  {
    if columns != [] {
      RowCovers(sources, columns[1..], i, j);
    }
  }

  lemma {:induction false} BlocksCover(rows: seq<Band>, columns: seq<Band>, i: nat, j: nat)
    requires HoldsIn(columns, j) <= 1
    ensures CoverCount(Blocks(rows, columns), i, j) == if HoldsIn(columns, j) == 1 then HoldsIn(rows, i) else 0
  {
    if rows != [] {
      RowCovers(rows[0], columns, i, j);
      BlocksCover(rows[1..], columns, i, j);
      CountAppends(Row(rows[0], columns), Blocks(rows[1..], columns), i, j);
    }
  }

  ghost predicate FitsWithin(tiles: seq<Tile>, size: nat, cap: int) {
    forall t :: t in tiles ==>
      t.sources.from < t.sources.to <= size && t.destinations.from < t.destinations.to <= size && 1 <= Cells(t) <= cap
  }

  lemma {:induction false} RowFits(sources: Band, columns: seq<Band>, size: nat, block: nat, cap: int)
    requires sources.from < sources.to <= size && Width(sources) <= block && block * block <= cap
    requires forall b :: b in columns ==> b.from < b.to <= size && Width(b) <= block
    ensures FitsWithin(Row(sources, columns), size, cap)
  {
    if columns != [] {
      assert forall b :: b in columns[1..] ==> b in columns;
      RowFits(sources, columns[1..], size, block, cap);
      assert columns[0] in columns;
      SmallTile(Width(sources), Width(columns[0]), block, cap);
    }
  }

  lemma {:induction false} SmallTile(a: int, b: int, block: nat, cap: int)
    requires 1 <= a <= block && 1 <= b <= block && block * block <= cap
    ensures 1 <= a * b <= cap
  {
    MulMonotone(a, block, b);
    MulMonotone(b, block, block);
    MulMonotone(1, a, b);
  }

  lemma {:induction false} BlocksFit(rows: seq<Band>, columns: seq<Band>, size: nat, block: nat, cap: int)
    requires block * block <= cap
    requires forall b :: b in rows ==> b.from < b.to <= size && Width(b) <= block
    requires forall b :: b in columns ==> b.from < b.to <= size && Width(b) <= block
    ensures FitsWithin(Blocks(rows, columns), size, cap)
  {
    if rows != [] {
      assert rows[0] in rows && forall b :: b in rows[1..] ==> b in rows;
      RowFits(rows[0], columns, size, block, cap);
      BlocksFit(rows[1..], columns, size, block, cap);
    }
  }

  /** `int(n ** 0.5)`, exact. */
  method Root(n: nat) returns (r: nat)
    ensures r * r <= n < (r + 1) * (r + 1)
  {
    r := 0;
    while (r + 1) * (r + 1) <= n
      invariant r * r <= n
      decreases n - r * r
    {
      assert (r + 1) * (r + 1) == r * r + 2 * r + 1;
      r := r + 1;
    }
  }

  /** The tiles cover every cell of the matrix exactly once, each within the cap. */
  ghost predicate Tiling(tiles: seq<Tile>, size: nat, cap: int) {
    && FitsWithin(tiles, size, cap)
    && forall i: nat, j: nat :: CoverCount(tiles, i, j) == if i < size && j < size then 1 else 0
  }

  /** The largest square block within the cap. */
  ghost predicate LargestBlock(block: nat, cap: int) {
    block > 0 && block * block <= cap < (block + 1) * (block + 1)
  }

  /** `plan_tiles`: one tile when the cap allows, otherwise the largest square blocks it does. */
  method PlanTiles(size: int, maxCells: int) returns (r: Result<seq<Tile>>)
    ensures r.Success? <==> size > 0 && maxCells > 0
    ensures r.Success? ==> Tiling(r.value, size, maxCells)
    ensures r.Success? && size * size <= maxCells ==> r.value == [Tile(Band(0, size), Band(0, size))]
    ensures r.Success? && size * size > maxCells ==>
      exists block: nat :: LargestBlock(block, maxCells) && r.value == Blocks(Bands(0, size, block), Bands(0, size, block))
  {
    if size <= 0 {
      return Failure("cannot tile a matrix of no locations");
    }
    if maxCells <= 0 {
      return Failure("max_cells must be positive");
    }
    if size * size <= maxCells {
      WholeTiles(size, maxCells);
      return Success([Tile(Band(0, size), Band(0, size))]);
    }
    var root := Root(maxCells);
    var block := Max(1, root);
    var rows := Bands(0, size, block);
    SquaresTile(size, block, maxCells);
    assert LargestBlock(block, maxCells);
    return Success(Blocks(rows, rows));
  }

  lemma {:induction false} WholeTiles(size: nat, cap: int)
    requires 1 <= size && size * size <= cap
    ensures Tiling([Tile(Band(0, size), Band(0, size))], size, cap)
  {
    SmallTile(size, size, size, cap);
    var tiles := [Tile(Band(0, size), Band(0, size))];
    forall i: nat, j: nat
      ensures CoverCount(tiles, i, j) == if i < size && j < size then 1 else 0
    {
      assert tiles[1..] == [];
    }
  }

  lemma {:induction false} SquaresTile(size: nat, block: nat, cap: int)
    requires block > 0 && block * block <= cap
    ensures Tiling(Blocks(Bands(0, size, block), Bands(0, size, block)), size, cap)
  {
    var bands := Bands(0, size, block);
    BandsFit(0, size, block);
    BlocksFit(bands, bands, size, block, cap);
    forall i: nat, j: nat
      ensures CoverCount(Blocks(bands, bands), i, j) == if i < size && j < size then 1 else 0
    {
      BandsCoverOnce(0, size, block, i);
      BandsCoverOnce(0, size, block, j);
      BlocksCover(bands, bands, i, j);
    }
  }

  lemma {:induction false} CountedIsCovered(tiles: seq<Tile>, i: nat, j: nat)
    requires CoverCount(tiles, i, j) > 0
    ensures exists k :: 0 <= k < |tiles| && Covers(tiles[k], i, j)
  {
    if Covers(tiles[0], i, j) {
    } else {
      CountedIsCovered(tiles[1..], i, j);
      var k :| 0 <= k < |tiles[1..]| && Covers(tiles[1..][k], i, j);
      assert Covers(tiles[k + 1], i, j);
    }
  }

  // ------------------------------------------------------------------
  // Asking for one tile
  // ------------------------------------------------------------------

  /** A coordinate pair, as an abstract value. */
  type Place = nat

  datatype Travel = Travel(duration: int, distance: int)

  type Provider = (Place, Place) -> Travel

  datatype Request = Request(coordinates: seq<Place>, sources: seq<nat>, destinations: seq<nat>)

  /** What the service answers: one row a source, one column a destination. */
  function Answer(provider: Provider, request: Request): seq<seq<Travel>>
    requires forall s :: s in request.sources ==> s < |request.coordinates|
    requires forall d :: d in request.destinations ==> d < |request.coordinates|
  {
    seq(|request.sources|, row requires 0 <= row < |request.sources| =>
      seq(|request.destinations|, column requires 0 <= column < |request.destinations| =>
        assert request.sources[row] in request.sources && request.destinations[column] in request.destinations;
        provider(request.coordinates[request.sources[row]], request.coordinates[request.destinations[column]])))
  }

  function Range(b: Band): set<int>
    decreases b.to
  {
    if b.from >= b.to then {} else Range(Band(b.from, b.to - 1)) + {(b.to - 1) as int}
  }

  lemma {:induction false} RangeMeans(b: Band)
    ensures forall x: int :: x in Range(b) <==> b.from <= x < b.to
    decreases b.to
  {
    if b.from < b.to {
      RangeMeans(Band(b.from, b.to - 1));
    }
  }

  /** Where an index sits in an ascending list. */
  function PositionOf(xs: seq<int>, x: int): nat {
    if xs == [] || xs[0] == x then 0 else 1 + PositionOf(xs[1..], x)
  }

  lemma {:induction false} PositionMeans(xs: seq<int>, x: int)
    requires x in xs
    ensures PositionOf(xs, x) < |xs| && xs[PositionOf(xs, x)] == x
  {
    if xs[0] != x {
      assert xs == [xs[0]] + xs[1..];
      PositionMeans(xs[1..], x);
    }
  }

  /** The first index the tile does not address. */
  function Filler(needed: set<int>, from: nat, size: nat): nat
    requires from <= size
    decreases size - from
  {
    if from == size || from !in needed then from else Filler(needed, from + 1, size)
  }

  lemma {:induction false} FillerIsNew(needed: set<int>, from: nat, size: nat)
    requires from <= size
    ensures var f := Filler(needed, from, size);
            from <= f <= size && (f < size ==> f !in needed) && forall x :: from <= x < f ==> x in needed
    decreases size - from
  {
    if from < size && from in needed {
      FillerIsNew(needed, from + 1, size);
    }
  }

  /** The coordinates a tile needs: those it addresses, and a filler beside a lone one. */
  function Needed(t: Tile, size: nat): set<int> {
    var needed := Range(t.sources) + Range(t.destinations);
    if |needed| < 2 && size > 1 then needed + {Filler(needed, 0, size) as int} else needed
  }

  lemma {:induction false} NeededMeans(t: Tile, size: nat)
    requires t.sources.to <= size && t.destinations.to <= size && t.sources.from < t.sources.to
    ensures forall x :: x in Needed(t, size) ==> 0 <= x < size
    ensures forall x: nat :: In(x, t.sources) || In(x, t.destinations) ==> x in Needed(t, size)
    ensures size > 1 ==> |Needed(t, size)| >= 2
  {
    RangeMeans(t.sources);
    RangeMeans(t.destinations);
    var addressed := Range(t.sources) + Range(t.destinations);
    FillerIsNew(addressed, 0, size);
    var x: int := t.sources.from;
    assert x in addressed;
    if |addressed| < 2 && size > 1 {
      assert addressed == {x} by {
        assert |addressed - {x}| == 0;
      }
      var other: int := if x == 0 then 1 else 0;
      assert other !in addressed;
      var f := Filler(addressed, 0, size);
      assert f as int !in addressed;
    }
  }

  lemma {:induction false} SortedSize(s: set<int>)
    ensures |Sorted(s)| == |s|
    decreases |s|
  {
    if s != {} {
      SortedSize(s - {Least(s)});
    }
  }

  function Local(needed: seq<int>, b: Band): seq<nat> {
    seq<nat>(Max(Width(b), 0), k requires 0 <= k => PositionOf(needed, b.from + k))
  }

  /** The request for a tile: only the coordinates it addresses, renumbered. */
  function RequestFor(places: seq<Place>, t: Tile): Request
    requires t.sources.from < t.sources.to <= |places| && t.destinations.to <= |places|
  {
    NeededMeans(t, |places|);
    SortedMeans(Needed(t, |places|));
    var needed := Sorted(Needed(t, |places|));
    var coordinates := seq(|needed|, k requires 0 <= k < |needed| => assert needed[k] in needed; places[needed[k]]);
    Request(coordinates, Local(needed, t.sources), Local(needed, t.destinations))
  }

  lemma {:induction false} LocalMeans(needed: seq<int>, b: Band, places: seq<Place>, k: nat)
    requires b.from + k < b.to <= |places|
    requires forall x: nat :: In(x, b) ==> x in needed
    requires forall x :: x in needed ==> 0 <= x < |places|
    ensures var position := Local(needed, b)[k]; position < |needed| && needed[position] == b.from + k
  {
    assert In(b.from + k, b);
    PositionMeans(needed, b.from + k);
  }

  /** The indices sent name the tile's own places, in its own order: every one is in range, none
      is the filler, and the service never gets fewer than the two coordinates it asks for. */
  lemma {:induction false} RequestMeans(places: seq<Place>, t: Tile)
    requires t.sources.from < t.sources.to <= |places| && t.destinations.from < t.destinations.to <= |places|
    ensures var q := RequestFor(places, t);
            && |q.sources| == Width(t.sources) && |q.destinations| == Width(t.destinations)
            && (forall k :: 0 <= k < |q.sources| ==>
                  q.sources[k] < |q.coordinates| && q.coordinates[q.sources[k]] == places[t.sources.from + k])
            && (forall k :: 0 <= k < |q.destinations| ==>
                  q.destinations[k] < |q.coordinates|
                  && q.coordinates[q.destinations[k]] == places[t.destinations.from + k])
            && (|places| > 1 ==> |q.coordinates| >= 2)
  {
    hide Needed, Sorted, Local, PositionOf;
    NeededMeans(t, |places|);
    SortedMeans(Needed(t, |places|));
    SortedSize(Needed(t, |places|));
    var needed := Sorted(Needed(t, |places|));
    var q := RequestFor(places, t);
    LocalSize(needed, t.sources);
    LocalSize(needed, t.destinations);
    forall k | 0 <= k < |q.sources|
      ensures q.sources[k] < |q.coordinates| && q.coordinates[q.sources[k]] == places[t.sources.from + k]
    {
      LocalMeans(needed, t.sources, places, k);
    }
    forall k | 0 <= k < |q.destinations|
      ensures q.destinations[k] < |q.coordinates| && q.coordinates[q.destinations[k]] == places[t.destinations.from + k]
    {
      LocalMeans(needed, t.destinations, places, k);
    }
  }

  lemma {:induction false} LocalSize(needed: seq<int>, b: Band)
    requires b.from <= b.to
    ensures |Local(needed, b)| == Width(b)
  {
  }

  /** The tile's block of the plain matrix. */
  ghost predicate BlockOf(places: seq<Place>, provider: Provider, t: Tile, grid: seq<seq<Travel>>)
    requires t.sources.to <= |places| && t.destinations.to <= |places|
  {
    && |grid| == Width(t.sources)
    && forall r :: 0 <= r < |grid| ==>
      && |grid[r]| == Width(t.destinations)
      && forall c :: 0 <= c < |grid[r]| ==>
        grid[r][c] == provider(places[t.sources.from + r], places[t.destinations.from + c])
  }

  /** `_fetch_tile`: for all its renumbering, each row and column answers for its own place. */
  method FetchTile(places: seq<Place>, t: Tile, provider: Provider) returns (grid: seq<seq<Travel>>)
    requires t.sources.from < t.sources.to <= |places| && t.destinations.from < t.destinations.to <= |places|
    ensures BlockOf(places, provider, t, grid)
  {
    hide RequestFor;
    RequestMeans(places, t);
    grid := Answer(provider, RequestFor(places, t));
  }
}
