/** Local search on one closed tour (vrp/localsearch.py): its moves, their constant-time
    deltas, what "no improving move" means, and the naive search that re-sums the tour for
    every candidate. */
module LocalSearch {
  import opened Common

  /** The matrix's distances; every cell is readable. */
  type Grid = seq<seq<nat>>

  ghost predicate Covers(d: Grid, n: nat) {
    |d| >= n && forall i :: 0 <= i < n ==> |d[i]| >= n
  }

  /** Distances between stops other than the depot are the same both ways. */
  ghost predicate SymmetricStops(d: Grid, n: nat)
    requires Covers(d, n)
  {
    forall i, j :: 1 <= i < n && 1 <= j < n ==> d[i][j] == d[j][i]
  }

  type Route = seq<nat>

  ghost predicate Within(s: Route, n: nat) {
    forall k :: 0 <= k < |s| ==> s[k] < n
  }

  /** A permutation of `0..n-1` that starts at the depot. */
  ghost predicate Tour(route: Route, n: nat) {
    |route| == n > 0 && Within(route, n) && NoRepeats(route) && route[0] == 0
  }

  function Dist(d: Grid, a: nat, b: nat): nat
    requires a < |d| && b < |d[a]|
  {
    d[a][b]
  }

  // ------------------------------------------------------------------
  // Lengths
  // ------------------------------------------------------------------

  /** The length of an open path. */
  ghost function Length(d: Grid, n: nat, s: Route): nat
    requires Covers(d, n) && Within(s, n)
  {
    if |s| < 2 then 0 else Dist(d, s[0], s[1]) + Length(d, n, s[1..])
  }

  ghost function TourLength(d: Grid, n: nat, route: Route): nat
    requires Covers(d, n) && Within(route, n)
  {
    if route == [] then 0 else Length(d, n, Closed(route))
  }

  lemma {:induction false} LengthJoins(d: Grid, n: nat, a: Route, b: Route)
    requires Covers(d, n) && Within(a, n) && Within(b, n) && a != [] && b != []
    ensures Within(a + b, n)
    ensures Length(d, n, a + b) == Length(d, n, a) + Dist(d, a[|a| - 1], b[0]) + Length(d, n, b)
  {
    if |a| == 1 {
      assert (a + b)[1..] == b;
    } else {
      LengthJoins(d, n, a[1..], b);
      assert (a + b)[1..] == a[1..] + b;
    }
  }

  function Reverse(s: Route): Route {
    if s == [] then [] else Reverse(s[1..]) + [s[0]]
  }

  lemma {:induction false} ReverseShape(s: Route, n: nat)
    requires Within(s, n)
    ensures |Reverse(s)| == |s| && Within(Reverse(s), n)
    ensures s != [] ==> Reverse(s)[0] == s[|s| - 1] && Reverse(s)[|s| - 1] == s[0]
    ensures multiset(Reverse(s)) == multiset(s)
  {
    if s != [] {
      ReverseShape(s[1..], n);
      assert s == [s[0]] + s[1..];
    }
  }

  /** Away from the depot a path is as long backwards as forwards. */
  lemma {:induction false} ReverseKeepsLength(d: Grid, n: nat, s: Route)
    requires Covers(d, n) && SymmetricStops(d, n) && Within(s, n) && forall k :: 0 <= k < |s| ==> s[k] != 0
    ensures Within(Reverse(s), n) && Length(d, n, Reverse(s)) == Length(d, n, s)
  {
    ReverseShape(s, n);
    if |s| >= 2 {
      var rest := s[1..];
      ReverseKeepsLength(d, n, rest);
      ReverseShape(rest, n);
      LengthJoins(d, n, Reverse(rest), [s[0]]);
    }
  }

  /** The source's `route_distance`. */
  method RouteDistance(d: Grid, n: nat, route: Route) returns (total: nat)
    requires Covers(d, n) && Within(route, n)
    ensures total == TourLength(d, n, route)
  {
    total := 0;
    ghost var closed := if route == [] then [] else route + [route[0]];
    for k := 0 to |route|
      invariant total == Length(d, n, closed[..if route == [] then 0 else k + 1])
    {
      NextByRemainder(route, k);
      total := total + d[route[k]][route[(k + 1) % |route|]];
      assert closed[..k + 2] == closed[..k + 1] + [closed[k + 1]];
      LengthJoins(d, n, closed[..k + 1], [closed[k + 1]]);
    }
    if route != [] {
      assert closed[..|route| + 1] == closed;
    }
  }

  // ------------------------------------------------------------------
  // The two moves
  // ------------------------------------------------------------------

  /** `route.insert(j, route.pop(i))`. */
  function Moved(route: Route, i: nat, j: nat): Route
    requires i < |route| && j < |route|
  {
    var rest := route[..i] + route[i + 1..];
    rest[..j] + [route[i]] + rest[j..]
  }

  /** `route[i:j] = route[i:j][::-1]`. */
  function Flipped(route: Route, i: nat, j: nat): Route
    requires i <= j <= |route|
  {
    route[..i] + Reverse(route[i..j]) + route[j..]
  }

  /** Where `node` goes once it is popped, to follow the stop at `target`. */
  function Slot(index: nat, target: nat): nat {
    if target < index then target + 1 else target
  }

  function Next(route: Route, k: nat): nat
    requires k < |route|
  {
    if k + 1 < |route| then route[k + 1] else route[0]
  }

  /** The source writes it with a remainder. */
  lemma {:induction false} NextByRemainder(route: Route, k: nat)
    requires k < |route|
    ensures (k + 1) % |route| < |route| && route[(k + 1) % |route|] == Next(route, k)
  {
    if k + 1 == |route| {
      assert (k + 1) % |route| == 0;
    }
  }

  lemma {:induction false} NoRepeatsOfMultiset(a: Route, b: Route)
    requires multiset(a) == multiset(b) && NoRepeats(a)
    ensures NoRepeats(b) && |a| == |b|
  {
    assert |a| == |multiset(a)| == |multiset(b)| == |b|;
    forall i, j | 0 <= i < j < |b|
      ensures b[i] != b[j]
    {
      if b[i] == b[j] {
        var x := b[i];
        assert b == b[..i] + [b[i]] + b[i + 1..j] + [b[j]] + b[j + 1..];
        assert multiset(b)[x] >= 2;
        OneOccurrence(a, x);
      }
    }
  }

  lemma {:induction false} WithinOfMultiset(a: Route, b: Route, n: nat)
    requires multiset(a) == multiset(b) && Within(a, n)
    ensures Within(b, n)
  {
    forall k | 0 <= k < |b|
      ensures b[k] < n
    {
      assert b[k] in multiset(b);
      assert b[k] in multiset(a);
    }
  }

  lemma {:induction false} MovedIsPermutation(route: Route, i: nat, j: nat)
    requires i < |route| && j < |route|
    ensures multiset(Moved(route, i, j)) == multiset(route)
  {
    var head, tail := route[..i], route[i + 1..];
    var rest := head + tail;
    assert route == head + [route[i]] + tail;
    assert multiset(route) == multiset(head) + multiset{route[i]} + multiset(tail);
    assert rest == rest[..j] + rest[j..];
    assert multiset(rest) == multiset(rest[..j]) + multiset(rest[j..]);
    assert multiset(rest) == multiset(head) + multiset(tail);
    assert multiset(route) == multiset(rest) + multiset{route[i]};
    assert multiset(Moved(route, i, j)) == multiset(rest) + multiset{route[i]};
  }

  /** A move away from the depot keeps a tour a tour. */
  lemma {:induction false} MovedIsTour(route: Route, n: nat, i: nat, j: nat)
    requires Tour(route, n) && 1 <= i < n && 1 <= j < n
    ensures Tour(Moved(route, i, j), n)
  {
    MovedIsPermutation(route, i, j);
    NoRepeatsOfMultiset(route, Moved(route, i, j));
    WithinOfMultiset(route, Moved(route, i, j), n);
  }

  lemma {:induction false} FlippedIsTour(route: Route, n: nat, i: nat, j: nat)
    requires Tour(route, n) && 1 <= i <= j <= n
    ensures Tour(Flipped(route, i, j), n)
  {
    var head, s, tail := route[..i], route[i..j], route[j..];
    ReverseShape(s, n);
    assert route == head + s + tail;
    assert multiset(route) == multiset(head) + multiset(s) + multiset(tail);
    assert multiset(Flipped(route, i, j)) == multiset(head) + multiset(Reverse(s)) + multiset(tail);
    NoRepeatsOfMultiset(route, Flipped(route, i, j));
    WithinOfMultiset(route, Flipped(route, i, j), n);
  }

  // ------------------------------------------------------------------
  // Constant-time deltas
  // ------------------------------------------------------------------

  function Removed(d: Grid, n: nat, route: Route, i: nat): int
    requires Covers(d, n) && Within(route, n) && 1 <= i < |route|
  {
    Dist(d, route[i - 1], route[i]) + Dist(d, route[i], Next(route, i)) - Dist(d, route[i - 1], Next(route, i))
  }

  function Added(d: Grid, n: nat, route: Route, i: nat, t: nat): int
    requires Covers(d, n) && Within(route, n) && i < |route| && t < |route|
  {
    Dist(d, route[t], route[i]) + Dist(d, route[i], Next(route, t)) - Dist(d, route[t], Next(route, t))
  }

  function FlipDelta(d: Grid, n: nat, route: Route, left: nat, right: nat): int
    requires Covers(d, n) && Within(route, n) && 1 <= left < right <= |route|
  {
    var a, b, c, e := route[left - 1], route[left], route[right - 1], Next(route, right - 1);
    Dist(d, a, c) + Dist(d, b, e) - Dist(d, a, b) - Dist(d, c, e)
  }

  lemma {:induction false} ThreeJoin(d: Grid, n: nat, a: Route, b: Route, c: Route)
    requires Covers(d, n) && Within(a, n) && Within(b, n) && Within(c, n)
    requires a != [] && b != [] && c != []
    ensures Within(a + b + c, n)
    ensures Length(d, n, a + b + c)
         == Length(d, n, a) + Dist(d, a[|a| - 1], b[0]) + Length(d, n, b)
          + Dist(d, b[|b| - 1], c[0]) + Length(d, n, c)
  {
    LengthJoins(d, n, a, b);
    LengthJoins(d, n, a + b, c);
  }

  lemma {:induction false} JoinOne(d: Grid, n: nat, a: Route, x: nat, b: Route)
    requires Covers(d, n) && Within(a, n) && Within(b, n) && x < n && a != [] && b != []
    ensures Within([x] + b, n) && Within(b + [x], n)
    ensures Length(d, n, [x] + b) == Dist(d, x, b[0]) + Length(d, n, b)
    ensures Length(d, n, b + [x]) == Length(d, n, b) + Dist(d, b[|b| - 1], x)
  {
    LengthJoins(d, n, [x], b);
    LengthJoins(d, n, b, [x]);
  }

  /** Carrying `x` over `b` changes only the three joints around it. */
  lemma {:induction false} CarryOver(d: Grid, n: nat, a: Route, x: nat, b: Route, c: Route)
    requires Covers(d, n) && Within(a, n) && Within(b, n) && Within(c, n) && x < n
    requires a != [] && b != [] && c != []
    ensures Within(a + ([x] + b) + c, n) && Within(a + (b + [x]) + c, n)
    ensures Length(d, n, a + (b + [x]) + c) - Length(d, n, a + ([x] + b) + c)
         == Dist(d, a[|a| - 1], b[0]) + Dist(d, b[|b| - 1], x) + Dist(d, x, c[0])
          - Dist(d, a[|a| - 1], x) - Dist(d, x, b[0]) - Dist(d, b[|b| - 1], c[0])
  {
    hide Length;
    JoinOne(d, n, a, x, b);
    ThreeJoin(d, n, a, [x] + b, c);
    ThreeJoin(d, n, a, b + [x], c);
    assert ([x] + b)[0] == x && ([x] + b)[|b|] == b[|b| - 1];
    assert (b + [x])[0] == b[0] && (b + [x])[|b|] == x;
  }

  function Closed(route: Route): Route
    requires route != []
  {
    route + [route[0]]
  }

  lemma {:induction false} Regroup(a: Route, b: Route, c: Route, tail: Route, h: nat)
    ensures a + b + c + tail + [h] == a + (b + c) + (tail + [h])
  {
  }

  lemma {:induction false} MoveBack(route: Route, i: nat, t: nat)
    requires 1 <= i < |route| && t + 1 < i
    ensures var c := Closed(route);
            && c == c[..t + 1] + (c[t + 1..i] + [route[i]]) + c[i + 1..]
            && Closed(Moved(route, i, t + 1)) == c[..t + 1] + ([route[i]] + c[t + 1..i]) + c[i + 1..]
  {
    var c, moved, x := Closed(route), Moved(route, i, t + 1), [route[i]];
    var a, b, tail := route[..t + 1], route[t + 1..i], route[i + 1..];
    assert c[..t + 1] == a && c[t + 1..i] == b && c[i + 1..] == tail + [route[0]];
    assert moved == a + x + b + tail && moved[0] == route[0];
    Regroup(a, x, b, tail, route[0]);
    assert route == a + b + x + tail;
    Regroup(a, b, x, tail, route[0]);
  }

  lemma {:induction false} MoveOn(route: Route, i: nat, t: nat)
    requires 1 <= i < t < |route|
    ensures var c := Closed(route);
            && c == c[..i] + ([route[i]] + c[i + 1..t + 1]) + c[t + 1..]
            && Closed(Moved(route, i, t)) == c[..i] + (c[i + 1..t + 1] + [route[i]]) + c[t + 1..]
  {
    var c, moved, x := Closed(route), Moved(route, i, t), [route[i]];
    var a, b, tail := route[..i], route[i + 1..t + 1], route[t + 1..];
    assert c[..i] == a && c[i + 1..t + 1] == b && c[t + 1..] == tail + [route[0]];
    assert moved == a + b + x + tail && moved[0] == route[0];
    Regroup(a, b, x, tail, route[0]);
    assert route == a + x + b + tail;
    Regroup(a, x, b, tail, route[0]);
  }

  lemma {:induction false} RelocateBack(d: Grid, n: nat, route: Route, i: nat, t: nat)
    requires Covers(d, n) && Within(route, n) && 1 <= i < |route| && t + 1 < i
    ensures Within(Moved(route, i, t + 1), n)
    ensures TourLength(d, n, Moved(route, i, t + 1))
         == TourLength(d, n, route) + Added(d, n, route, i, t) - Removed(d, n, route, i)
  {
    var c, moved := Closed(route), Moved(route, i, t + 1);
    var x, head, mid, tail := route[i], c[..t + 1], c[t + 1..i], c[i + 1..];
    assert Within(c, n);
    MoveBack(route, i, t);
    assert Closed(moved) == head + ([x] + mid) + tail && c == head + (mid + [x]) + tail;
    assert head[|head| - 1] == route[t] && mid[0] == Next(route, t);
    assert mid[|mid| - 1] == route[i - 1] && tail[0] == Next(route, i);
    CarryOver(d, n, head, x, mid, tail);
    assert Within(Closed(moved), n);
    assert forall k :: 0 <= k < |moved| ==> moved[k] == Closed(moved)[k];
  }

  lemma {:induction false} RelocateOn(d: Grid, n: nat, route: Route, i: nat, t: nat)
    requires Covers(d, n) && Within(route, n) && 1 <= i < t < |route|
    ensures Within(Moved(route, i, t), n)
    ensures TourLength(d, n, Moved(route, i, t))
         == TourLength(d, n, route) + Added(d, n, route, i, t) - Removed(d, n, route, i)
  {
    var c, moved := Closed(route), Moved(route, i, t);
    var x, head, mid, tail := route[i], c[..i], c[i + 1..t + 1], c[t + 1..];
    assert Within(c, n);
    MoveOn(route, i, t);
    assert Closed(moved) == head + (mid + [x]) + tail && c == head + ([x] + mid) + tail;
    assert head[|head| - 1] == route[i - 1] && mid[0] == Next(route, i);
    assert mid[|mid| - 1] == route[t] && tail[0] == Next(route, t);
    CarryOver(d, n, head, x, mid, tail);
    assert Within(Closed(moved), n);
    assert forall k :: 0 <= k < |moved| ==> moved[k] == Closed(moved)[k];
  }

  /** The four-edge delta of a relocate is exact on any matrix, wherever the two
      stops lie, next to each other or across the end of the list. */
  lemma {:induction false} RelocateDelta(d: Grid, n: nat, route: Route, i: nat, t: nat)
    requires Covers(d, n) && Tour(route, n)
    requires 1 <= i < n && t < n && t != i && Next(route, t) != route[i]
    ensures Tour(Moved(route, i, Slot(i, t)), n)
    ensures TourLength(d, n, Moved(route, i, Slot(i, t)))
         == TourLength(d, n, route) + Added(d, n, route, i, t) - Removed(d, n, route, i)
  {
    MovedIsTour(route, n, i, Slot(i, t));
    assert t + 1 != i;
    if t < i {
      RelocateBack(d, n, route, i, t);
    } else {
      RelocateOn(d, n, route, i, t);
    }
  }

  lemma {:induction false} FlipShape(route: Route, left: nat, right: nat)
    requires 1 <= left < right < |route|
    ensures var c := Closed(route);
            && c == c[..left] + route[left..right] + c[right..]
            && Closed(Flipped(route, left, right)) == c[..left] + Reverse(route[left..right]) + c[right..]
  {
    var flipped := Flipped(route, left, right);
    assert flipped[0] == route[0];
    assert Closed(route)[right..] == route[right..] + [route[0]];
  }

  /** The two-edge delta of a 2-opt misses exactly what reversing the inside changes. */
  lemma {:induction false} FlipChange(d: Grid, n: nat, route: Route, left: nat, right: nat)
    requires Covers(d, n) && Within(route, n) && 1 <= left < right < |route|
    ensures Within(Flipped(route, left, right), n) && Within(Reverse(route[left..right]), n)
    ensures TourLength(d, n, Flipped(route, left, right))
         == TourLength(d, n, route) + FlipDelta(d, n, route, left, right)
          + Length(d, n, Reverse(route[left..right])) - Length(d, n, route[left..right])
  {
    hide Length, Reverse;
    var c, s := Closed(route), route[left..right];
    assert Within(c, n) && Within(s, n);
    ReverseShape(s, n);
    FlipShape(route, left, right);
    var head, tail, flipped := c[..left], c[right..], Flipped(route, left, right);
    assert Closed(flipped) == head + Reverse(s) + tail && c == head + s + tail;
    assert head[|head| - 1] == route[left - 1] && tail[0] == Next(route, right - 1);
    ThreeJoin(d, n, head, s, tail);
    ThreeJoin(d, n, head, Reverse(s), tail);
    assert Within(Closed(flipped), n);
    assert forall k :: 0 <= k < |flipped| ==> flipped[k] == Closed(flipped)[k];
  }

  /** The 2-opt delta is the true change exactly when the inside is as long backwards
      as forwards, as it always is where the stops are symmetric. */
  lemma {:induction false} FlipDeltaExactly(d: Grid, n: nat, route: Route, left: nat, right: nat)
    requires Covers(d, n) && Tour(route, n) && 1 <= left < right < n
    ensures Tour(Flipped(route, left, right), n) && Within(Reverse(route[left..right]), n)
    ensures FlipIsExact(d, n, route, left, right)
       <==> Length(d, n, Reverse(route[left..right])) == Length(d, n, route[left..right])
    ensures Reversible(d, n) ==> FlipIsExact(d, n, route, left, right)
  {
    FlippedIsTour(route, n, left, right);
    FlipChange(d, n, route, left, right);
    if n <= 3 {
      assert route[left..right] == [route[left]] && Reverse([route[left]]) == [route[left]];
    } else if SymmetricStops(d, n) {
      ReverseKeepsLength(d, n, route[left..right]);
    }
  }

  ghost predicate FlipIsExact(d: Grid, n: nat, route: Route, left: nat, right: nat)
    requires Covers(d, n) && Tour(route, n) && 1 <= left < right < n
  {
    FlippedIsTour(route, n, left, right);
    TourLength(d, n, Flipped(route, left, right)) == TourLength(d, n, route) + FlipDelta(d, n, route, left, right)
  }

  /** With three places nothing is reversed; with more, reversing costs nothing between the stops. */
  ghost predicate Reversible(d: Grid, n: nat)
    requires Covers(d, n)
  {
    n <= 3 || SymmetricStops(d, n)
  }

  /** Every 2-opt the search can consider has an exact delta. */
  ghost predicate FlipsAreExact(d: Grid, n: nat)
    requires Covers(d, n)
  {
    forall route, left, right :: Tour(route, n) && 1 <= left && left + 2 <= right < n ==>
      FlipIsExact(d, n, route, left, right)
  }

  /** The 2-opt delta is exact on every tour exactly when the stops are symmetric: a reversed
      segment never holds the depot. */
  lemma {:induction false} FlipsAreExactWhen(d: Grid, n: nat)
    requires Covers(d, n)
    ensures FlipsAreExact(d, n) <==> Reversible(d, n)
  {
    hide FlipIsExact;
    if Reversible(d, n) {
      forall route, left, right | Tour(route, n) && 1 <= left && left + 2 <= right < n
        ensures FlipIsExact(d, n, route, left, right)
      {
        FlipDeltaExactly(d, n, route, left, right);
      }
    }
    if FlipsAreExact(d, n) && n > 3 {
      forall i, j | 1 <= i < n && 1 <= j < n
        ensures d[i][j] == d[j][i]
      {
        if i != j {
          var route := TourStarting(n, i, j);
          FlipDeltaExactly(d, n, route, 1, 3);
          PairReversed(d, n, i, j);
          assert route[1..3] == [i, j];
        }
      }
    }
  }

  lemma {:induction false} PairReversed(d: Grid, n: nat, i: nat, j: nat)
    requires Covers(d, n) && i < n && j < n
    ensures Within([i, j], n) && Within([j, i], n) && Reverse([i, j]) == [j, i]
    ensures Length(d, n, [i, j]) == d[i][j] && Length(d, n, [j, i]) == d[j][i]
  {
    assert [i, j][1..] == [j] && [j, i][1..] == [i] && [j][1..] == [];
    assert Reverse([j]) == [j];
  }

  /** Any two stops can be the first of a tour. */
  lemma {:induction false} TourStarting(n: nat, i: nat, j: nat) returns (route: Route)
    requires 1 <= i < n && 1 <= j < n && i != j
    ensures Tour(route, n) && route[1] == i && route[2] == j
  {
    var plain := seq(n, k => k);
    assert Tour(plain, n);
    var once := Moved(plain, i, 1);
    MovedIsTour(plain, n, i, 1);
    assert once[1] == i;
    DistinctFillRange(once, n, j);
    var at :| 0 <= at < n && once[at] == j;
    route := Moved(once, at, 2);
    MovedIsTour(once, n, at, 2);
  }

  // ------------------------------------------------------------------
  // Whose edges a move changes
  // ------------------------------------------------------------------

  predicate SamePair(a: nat, b: nat, x: nat, y: nat) {
    (a == x && b == y) || (a == y && b == x)
  }

  /** The path has an edge between the two stops, either way. */
  ghost predicate Linked(c: Route, x: nat, y: nat) {
    exists i :: 0 <= i < |c| - 1 && SamePair(c[i], c[i + 1], x, y)
  }

  /** Two stops are linked exactly when they stand side by side on the path. */
  lemma {:induction false} LinkedMeans(c: Route, x: nat, y: nat)
    ensures Linked(c, x, y) <==> exists i, next :: 0 <= i && next == i + 1 < |c| && ((c[i] == x && c[next] == y) || (c[i] == y && c[next] == x))
  {
    if Linked(c, x, y) {
      var i :| 0 <= i < |c| - 1 && SamePair(c[i], c[i + 1], x, y);
      var next := i + 1;
      assert (c[i] == x && c[next] == y) || (c[i] == y && c[next] == x);
    }
  }

  lemma {:induction false} LinkedWithin(c: Route, from: nat, part: Route, x: nat, y: nat)
    requires from + |part| <= |c| && c[from..from + |part|] == part && Linked(part, x, y)
    ensures Linked(c, x, y)
  {
    var i :| 0 <= i < |part| - 1 && SamePair(part[i], part[i + 1], x, y);
    assert c[from + i] == part[i] && c[from + i + 1] == part[i + 1];
  }

  lemma {:induction false} LinkedJoins(a: Route, b: Route, x: nat, y: nat)
    requires a != [] && b != []
    ensures Linked(a + b, x, y) <==> Linked(a, x, y) || Linked(b, x, y) || SamePair(a[|a| - 1], b[0], x, y)
  {
    hide SamePair;
    var c := a + b;
    assert c[|a| - 1] == a[|a| - 1] && c[|a|] == b[0];
    if Linked(a, x, y) {
      LinkedWithin(c, 0, a, x, y);
    }
    if Linked(b, x, y) {
      LinkedWithin(c, |a|, b, x, y);
    }
    if Linked(c, x, y) {
      LinkedSomewhere(a, b, x, y);
    }
  }

  lemma {:induction false} LinkedSomewhere(a: Route, b: Route, x: nat, y: nat)
    requires a != [] && b != [] && Linked(a + b, x, y)
    ensures Linked(a, x, y) || Linked(b, x, y) || SamePair(a[|a| - 1], b[0], x, y)
  {
    hide SamePair;
    var c := a + b;
    var i :| 0 <= i < |c| - 1 && SamePair(c[i], c[i + 1], x, y);
    if i >= |a| {
      var k := i - |a|;
      assert c[i] == b[k] && c[i + 1] == b[k + 1];
    } else if i < |a| - 1 {
      assert c[i] == a[i] && c[i + 1] == a[i + 1];
    }
  }

  lemma {:induction false} ReverseEnds(s: Route)
    requires s != []
    ensures |Reverse(s)| == |s| && Reverse(s)[0] == s[|s| - 1] && Reverse(s)[|s| - 1] == s[0]
  {
    if |s| > 1 {
      ReverseEnds(s[1..]);
    }
  }

  lemma {:induction false} LinkedReversed(s: Route, x: nat, y: nat)
    ensures Linked(Reverse(s), x, y) <==> Linked(s, x, y)
  {
    if |s| > 1 {
      var rest := s[1..];
      LinkedReversed(rest, x, y);
      ReverseEnds(rest);
      LinkedJoins(Reverse(rest), [s[0]], x, y);
      LinkedJoins([s[0]], rest, x, y);
      assert s == [s[0]] + rest;
    } else if s != [] {
      assert Reverse(s) == [s[0]] == s;
    }
  }

  lemma {:induction false} LinkedThree(a: Route, b: Route, c: Route, x: nat, y: nat)
    requires a != [] && b != [] && c != []
    requires x != a[|a| - 1] && x != b[0] && x != b[|b| - 1] && x != c[0]
    ensures Linked(a + b + c, x, y) <==> Linked(a, x, y) || Linked(b, x, y) || Linked(c, x, y)
  {
    LinkedJoins(a, b, x, y);
    LinkedJoins(a + b, c, x, y);
  }

  /** Every stop left out of the list keeps its neighbours in the tour. */
  ghost predicate OthersKeepEdges(route: Route, next: Route, touched: seq<nat>)
    requires route != [] && next != []
  {
    forall x, y :: x !in touched ==> (Linked(Closed(next), x, y) <==> Linked(Closed(route), x, y))
  }

  lemma {:induction false} CarriedKeepsEdges(a: Route, v: nat, b: Route, c: Route, x: nat, y: nat)
    requires a != [] && b != [] && c != []
    requires x !in [a[|a| - 1], b[0], b[|b| - 1], c[0], v]
    ensures Linked(a + ([v] + b) + c, x, y) <==> Linked(a + (b + [v]) + c, x, y)
  {
    LinkedThree(a, [v] + b, c, x, y);
    LinkedThree(a, b + [v], c, x, y);
    LinkedJoins([v], b, x, y);
    LinkedJoins(b, [v], x, y);
  }

  /** A relocate changes no edge of a stop other than the five it wakes. */
  lemma {:induction false} RelocateWakes(n: nat, route: Route, i: nat, t: nat)
    requires Tour(route, n) && 1 <= i < n && t < n && t != i && Next(route, t) != route[i]
    ensures Tour(Moved(route, i, Slot(i, t)), n)
    ensures OthersKeepEdges(route, Moved(route, i, Slot(i, t)),
                            [route[i - 1], Next(route, i), route[i], route[t], Next(route, t)])
  {
    MovedIsTour(route, n, i, Slot(i, t));
    var c, moved := Closed(route), Moved(route, i, Slot(i, t));
    forall x, y | x !in [route[i - 1], Next(route, i), route[i], route[t], Next(route, t)]
      ensures Linked(Closed(moved), x, y) <==> Linked(c, x, y)
    {
      if t < i {
        MoveBack(route, i, t);
        CarriedKeepsEdges(c[..t + 1], route[i], c[t + 1..i], c[i + 1..], x, y);
      } else {
        MoveOn(route, i, t);
        CarriedKeepsEdges(c[..i], route[i], c[i + 1..t + 1], c[t + 1..], x, y);
      }
    }
  }

  /** A 2-opt changes no edge of a stop other than the four it wakes. */
  lemma {:induction false} FlipWakes(n: nat, route: Route, left: nat, right: nat)
    requires Tour(route, n) && 1 <= left < right < n
    ensures Tour(Flipped(route, left, right), n)
    ensures OthersKeepEdges(route, Flipped(route, left, right),
                            [route[left - 1], route[left], route[right - 1], route[right]])
  {
    FlippedIsTour(route, n, left, right);
    FlipShape(route, left, right);
    var c, s := Closed(route), route[left..right];
    ReverseEnds(s);
    forall x, y | x !in [route[left - 1], route[left], route[right - 1], route[right]]
      ensures Linked(Closed(Flipped(route, left, right)), x, y) <==> Linked(c, x, y)
    {
      LinkedThree(c[..left], s, c[right..], x, y);
      LinkedThree(c[..left], Reverse(s), c[right..], x, y);
      LinkedReversed(s, x, y);
    }
  }

  // ------------------------------------------------------------------
  // What "no improving move" means
  // ------------------------------------------------------------------

  ghost predicate Shorter(d: Grid, n: nat, candidate: Route, route: Route)
    requires Covers(d, n)
  {
    Within(candidate, n) && Within(route, n) && TourLength(d, n, candidate) < TourLength(d, n, route)
  }

  /** Putting the stop at `i` after the stop at `t` shortens the tour. */
  ghost predicate RelocateHelps(d: Grid, n: nat, route: Route, i: nat, t: nat)
    requires Covers(d, n) && Tour(route, n) && i < n && t < n
  {
    t != i && Next(route, t) != route[i] && Shorter(d, n, Moved(route, i, Slot(i, t)), route)
  }

  /** Reversing between the two stops, when there is something between them, shortens the tour. */
  ghost predicate FlipHelps(d: Grid, n: nat, route: Route, i: nat, t: nat)
    requires Covers(d, n) && Tour(route, n) && i < n && t < n
  {
    var left, right := if i < t then i else t, if i < t then t else i;
    right - left >= 2 && left >= 1 && Shorter(d, n, Flipped(route, left, right), route)
  }

  /** No candidate of the stop at `i` gives an improving move. */
  ghost predicate SettledAt(d: Grid, n: nat, route: Route, i: nat, candidates: seq<nat>)
    requires Covers(d, n) && Tour(route, n) && i < n
  {
    i == 0 || forall t :: 0 <= t < n && route[t] in candidates && t != i ==>
      !RelocateHelps(d, n, route, i, t) && !FlipHelps(d, n, route, i, t)
  }

  /** The whole tour has no improving move in any stop's granular neighbourhood. */
  ghost predicate Settled(d: Grid, n: nat, route: Route, granular: seq<seq<nat>>)
    requires Covers(d, n) && Tour(route, n) && |granular| == n
  {
    forall i :: 0 <= i < n ==> SettledAt(d, n, route, i, granular[route[i]])
  }

  /** None of the moves `naive_search` enumerates improves. */
  ghost predicate NaivelySettled(d: Grid, n: nat, route: Route)
    requires Covers(d, n) && Tour(route, n)
  {
    && (forall i, j :: 1 <= i < n && 1 <= j < n && i != j ==> !Shorter(d, n, Moved(route, i, j), route))
    && (forall i, j :: 1 <= i < n && i + 2 <= j < n ==> !Shorter(d, n, Flipped(route, i, j), route))
  }

  /** A tour the naive search stops at is settled for every neighbourhood. */
  lemma {:induction false} NaiveIsSettled(d: Grid, n: nat, route: Route, granular: seq<seq<nat>>)
    requires Covers(d, n) && Tour(route, n) && |granular| == n && NaivelySettled(d, n, route)
    ensures Settled(d, n, route, granular)
  {
    forall i, t | 1 <= i < n && 0 <= t < n && t != i
      ensures !RelocateHelps(d, n, route, i, t) && !FlipHelps(d, n, route, i, t)
    {
      if Next(route, t) != route[i] {
        assert t + 1 != i;
        assert Slot(i, t) != i;
      }
    }
  }

  /** With every other stop a neighbour, the converse holds too: the two searches
      then stop at exactly the same tours. */
  lemma {:induction false} SettledIsNaive(d: Grid, n: nat, route: Route, granular: seq<seq<nat>>)
    requires Covers(d, n) && Tour(route, n) && |granular| == n && Settled(d, n, route, granular)
    requires forall a, b :: 0 <= a < n && 0 <= b < n && a != b ==> b in granular[a]
    ensures NaivelySettled(d, n, route)
  {
    forall i, j | 1 <= i < n && 1 <= j < n && i != j
      ensures !Shorter(d, n, Moved(route, i, j), route)
    {
      var t := if j < i then j - 1 else j;
      assert SettledAt(d, n, route, i, granular[route[i]]);
      assert route[t] in granular[route[i]];
      assert Next(route, t) != route[i];
      assert !RelocateHelps(d, n, route, i, t);
      assert Slot(i, t) == j;
    }
    forall i, j | 1 <= i < n && i + 2 <= j < n
      ensures !Shorter(d, n, Flipped(route, i, j), route)
    {
      assert SettledAt(d, n, route, i, granular[route[i]]);
      assert route[j] in granular[route[i]];
      assert !FlipHelps(d, n, route, i, j);
    }
  }

  // ------------------------------------------------------------------
  // The naive search
  // ------------------------------------------------------------------

  /** The relocate sweep of `naive_search`: first improvement, re-summing every candidate. */
  method RelocateSweep(d: Grid, n: nat, start: Route, startBest: nat, counted: nat)
    returns (route: Route, best: nat, improved: bool, evaluations: nat)
    requires Covers(d, n) && Tour(start, n) && startBest == TourLength(d, n, start)
    ensures Tour(route, n) && best == TourLength(d, n, route)
    ensures improved ==> best < startBest
    ensures !improved ==> route == start
    ensures !improved ==>
      forall i, j :: 1 <= i < n && 1 <= j < n && i != j ==> !Shorter(d, n, Moved(start, i, j), start)
  {
    route, best, improved, evaluations := start, startBest, false, counted;
    for i := 1 to n
      invariant !improved && route == start && best == startBest
      invariant forall x, j :: 1 <= x < i && 1 <= j < n && x != j ==> !Shorter(d, n, Moved(start, x, j), start)
    {
      for j := 1 to n
        invariant !improved && route == start && best == startBest
        invariant forall y :: 1 <= y < j && y != i ==> !Shorter(d, n, Moved(start, i, y), start)
      {
        if i == j {
          continue;
        }
        var candidate := Moved(route, i, j);
        MovedIsTour(start, n, i, j);
        evaluations := evaluations + 1;
        var cost := RouteDistance(d, n, candidate);
        if cost < best {
          route, best, improved := candidate, cost, true;
          return;
        }
      }
    }
  }

  /** The 2-opt sweep of `naive_search`. */
  method FlipSweep(d: Grid, n: nat, start: Route, startBest: nat, counted: nat)
    returns (route: Route, best: nat, improved: bool, evaluations: nat)
    requires Covers(d, n) && Tour(start, n) && startBest == TourLength(d, n, start)
    ensures Tour(route, n) && best == TourLength(d, n, route)
    ensures improved ==> best < startBest
    ensures !improved ==> route == start
    ensures !improved ==>
      forall i, j :: 1 <= i < n && i + 2 <= j < n ==> !Shorter(d, n, Flipped(start, i, j), start)
  {
    route, best, improved, evaluations := start, startBest, false, counted;
    var i := 1;
    while i < n - 1
      invariant 1 <= i && !improved && route == start && best == startBest
      invariant forall x, j :: 1 <= x < i && x + 2 <= j < n ==> !Shorter(d, n, Flipped(start, x, j), start)
    {
      var j := i + 2;
      while j < n
        invariant i + 2 <= j && !improved && route == start && best == startBest
        invariant forall y :: i + 2 <= y < j && y < n ==> !Shorter(d, n, Flipped(start, i, y), start)
      {
        var candidate := Flipped(route, i, j);
        FlippedIsTour(start, n, i, j);
        evaluations := evaluations + 1;
        var cost := RouteDistance(d, n, candidate);
        if cost < best {
          route, best, improved := candidate, cost, true;
          return;
        }
        j := j + 1;
      }
      i := i + 1;
    }
  }

  /** `naive_search` terminates on any readable matrix, at a tour none of its moves improves. */
  method NaiveSearch(d: Grid, n: nat, start: Route) returns (route: Route, evaluations: nat)
    requires Covers(d, n) && Tour(start, n)
    ensures Tour(route, n) && TourLength(d, n, route) <= TourLength(d, n, start)
    ensures NaivelySettled(d, n, route)
  {
    route, evaluations := start, 0;
    var best := RouteDistance(d, n, route);
    var improved := true;
    while improved
      invariant Tour(route, n) && best == TourLength(d, n, route) <= TourLength(d, n, start)
      invariant !improved ==> NaivelySettled(d, n, route)
      decreases best, improved
    {
      route, best, improved, evaluations := RelocateSweep(d, n, route, best, evaluations);
      if improved {
        continue;
      }
      route, best, improved, evaluations := FlipSweep(d, n, route, best, evaluations);
    }
  }
}
