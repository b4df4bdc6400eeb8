/** Vocabulary shared by every module: optional values, failures, and the
    ceiling division the planner uses whenever it rounds against the plan. */
module Common {

  datatype Option<+T> = None | Some(value: T)

  datatype Result<+T> = Success(value: T) | Failure(reason: string)

  function Max(a: int, b: int): int {
    if a < b then b else a
  }

  function Min(a: int, b: int): int {
    if a < b then a else b
  }

  /** Ceiling division by a positive divisor: the least whole `q` with `q * b >= a`. */
  function CeilDiv(a: int, b: int): (q: int)
    requires b > 0
    ensures (q - 1) * b < a <= q * b
  {
    -((-a) / b)
  }

  /** No whole number below `CeilDiv(a, b)` covers `a`. */
  lemma {:induction false} CeilDivLeast(a: int, b: int, q: int)
    requires b > 0
    requires a <= q * b
    ensures CeilDiv(a, b) <= q
  {
    if CeilDiv(a, b) > q {
      assert q <= CeilDiv(a, b) - 1;
      MulMonotone(q, CeilDiv(a, b) - 1, b);
    }
  }

  lemma {:induction false} MulMonotone(a: int, b: int, c: int)
    requires a <= b && 0 <= c
    ensures a * c <= b * c
  {
    assert 0 <= (b - a) * c;
  }

  /** Quotient and remainder are the only ones. */
  lemma {:induction false} DivModUnique(x: int, d: int, q: int, r: int)
    requires d > 0 && 0 <= r < d && x == q * d + r
    ensures x / d == q && x % d == r
  {
    var q', r' := x / d, x % d;
    assert q' * d + r' == q * d + r;
    if q' < q {
      MulMonotone(q' + 1, q, d);
    } else if q < q' {
      MulMonotone(q + 1, q', d);
    }
  }

  /** Every element of `s` occurs once. */
  ghost predicate NoRepeats<T>(s: seq<T>) {
    forall i, j :: 0 <= i < j < |s| ==> s[i] != s[j]
  }

  lemma {:induction false} OneOccurrence(a: seq<nat>, x: nat)
    requires NoRepeats(a)
    ensures multiset(a)[x] <= 1
  {
    if a != [] {
      OneOccurrence(a[1..], x);
      assert a == [a[0]] + a[1..];
      if a[0] == x {
        assert x !in a[1..];
      }
    }
  }

  function Elements(s: seq<nat>): set<nat> {
    set x | x in s
  }

  ghost function UpTo(n: nat): (s: set<nat>)
    ensures forall k: nat :: k in s <==> k < n
  {
    if n == 0 then {} else UpTo(n - 1) + {n - 1}
  }

  lemma {:induction false} UpToSize(n: nat)
    ensures |UpTo(n)| == n
  {
    if n > 0 {
      UpToSize(n - 1);
    }
  }

  lemma {:induction false} ElementsSize(s: seq<nat>)
    requires NoRepeats(s)
    ensures |Elements(s)| == |s|
  {
    if s != [] {
      var front, last := s[..|s| - 1], s[|s| - 1];
      ElementsSize(front);
      assert s == front + [last];
      assert Elements(s) == Elements(front) + {last};
    }
  }

  lemma {:induction false} HasMember(ids: seq<nat>)
    requires ids != []
    ensures exists id :: id in ids
  {
    assert ids[0] in ids;
  }

  /** `n` distinct numbers below `n` are all of them. */
  lemma {:induction false} DistinctFillRange(s: seq<nat>, n: nat, i: nat)
    requires NoRepeats(s) && |s| == n && i < n
    requires forall k :: 0 <= k < n ==> s[k] < n
    ensures i in s
  {
    UpToSize(n);
    ElementsSize(s);
    var all, some := UpTo(n), Elements(s);
    assert some <= all;
    assert |all - some| == |all| - |some|;
    assert i in all;
  }

  function Least(s: set<int>): (k: int)
    requires s != {}
    ensures k in s && forall x :: x in s ==> k <= x
  {
    LeastExists(s);
    var k :| IsLeast(s, k);
    k
  }

  predicate IsLeast(s: set<int>, k: int) {
    k in s && forall x :: x in s ==> k <= x
  }

  lemma {:induction false} EmptyOrNot(s: set<int>)
    ensures s == {} || exists k :: k in s
  {
    if forall k :: k !in s {
      assert s == {};
    }
  }

  lemma {:induction false} LeastExists(s: set<int>)
    requires s != {}
    ensures exists k :: IsLeast(s, k)
  {
    EmptyOrNot(s);
    var k :| k in s;
    var rest := s - {k};
    if rest == {} {
      assert s == {k};
      assert IsLeast(s, k);
    } else {
      LeastExists(rest);
      var m :| IsLeast(rest, m);
      assert forall x :: x in s ==> x == k || x in rest;
      assert IsLeast(s, if k <= m then k else m);
    }
  }

  /** `sorted(s)`. */
  function Sorted(s: set<int>): seq<int>
    decreases |s|
  {
    if s == {} then [] else [Least(s)] + Sorted(s - {Least(s)})
  }

  ghost predicate Ascending(xs: seq<int>) {
    forall i, j :: 0 <= i < j < |xs| ==> xs[i] < xs[j]
  }

  lemma {:induction false} PutFirst(x: int, rest: seq<int>)
    requires Ascending(rest) && forall y :: y in rest ==> x < y
    ensures Ascending([x] + rest)
  {
    var all := [x] + rest;
    forall i, j | 0 <= i < j < |all|
      ensures all[i] < all[j]
    {
      assert all[j] == rest[j - 1] && all[j] in rest;
    }
  }

  lemma {:induction false} SortedMeans(s: set<int>)
    ensures Ascending(Sorted(s)) && forall x :: x in Sorted(s) <==> x in s
    decreases |s|
  {
    hide Ascending;
    if s == {} {
      NothingAscends();
    } else {
      var rest := s - {Least(s)};
      SortedMeans(rest);
      PutFirst(Least(s), Sorted(rest));
    }
  }

  lemma {:induction false} NothingAscends()
    ensures Ascending([])
  {
  }
}
