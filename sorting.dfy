/** `Array.prototype.sort` with a comparator, run in place. Both ranking
    routes sort their result array by descending score, and the applicant
    table sorts by the chosen column; the model sorts an `array` by an
    ordering `le` ("may come before") that is total and transitive. */
module Sorting {
  import opened Text

  ghost predicate TotalPreorder<T(!new)>(le: (T, T) -> bool)
  {
    && (forall x, y :: le(x, y) || le(y, x))
    && (forall x, y, z :: le(x, y) && le(y, z) ==> le(x, z))
  }

  /** Every element may come before every later one. */
  predicate SortedBy<T>(s: seq<T>, le: (T, T) -> bool)
  {
    forall i, j :: 0 <= i < j < |s| ==> le(s[i], s[j])
  }

  /** `s[..n+1]` is sorted except that the element at `j` may still stand
      too far right; everything after `j` may follow it. */
  ghost predicate SortedAround<T>(s: seq<T>, n: int, j: int, le: (T, T) -> bool)
    requires 0 <= j <= n < |s|
  {
    && (forall p, q :: 0 <= p < q <= n && p != j && q != j ==> le(s[p], s[q]))
    && (forall q :: j < q <= n ==> le(s[j], s[q]))
  }

  /** A sorted prefix followed by one new element is sorted around it. */
  lemma StartAround<T(!new)>(s: seq<T>, n: int, le: (T, T) -> bool)
    requires 0 <= n < |s| && SortedBy(s[..n], le)
    ensures SortedAround(s, n, n, le)
  {
    forall p, q | 0 <= p < q <= n && p != n && q != n
      ensures le(s[p], s[q])
    {
      assert s[..n][p] == s[p] && s[..n][q] == s[q];
    }
  }

  /** Swapping the misplaced element with its left neighbour moves the hole
      one place left. */
  lemma SwapAround<T(!new)>(s: seq<T>, n: int, j: int, le: (T, T) -> bool)
    requires TotalPreorder(le)
    requires 0 < j <= n < |s| && SortedAround(s, n, j, le) && !le(s[j - 1], s[j])
    ensures SortedAround(s[j - 1 := s[j]][j := s[j - 1]], n, j - 1, le)
  {
    var t := s[j - 1 := s[j]][j := s[j - 1]];
    assert le(s[j], s[j - 1]);
    forall q | j - 1 < q <= n
      ensures le(t[j - 1], t[q])
    {
      if q > j {
        assert le(s[j], s[q]);
      }
    }
    forall p, q | 0 <= p < q <= n && p != j - 1 && q != j - 1
      ensures le(t[p], t[q])
    {
      if q == j {
        assert le(s[p], s[j - 1]);
      } else if p == j {
        assert le(s[j - 1], s[q]);
      }
    }
  }

  /** Once the misplaced element may follow its left neighbour, the prefix
      is sorted. */
  lemma DoneAround<T(!new)>(s: seq<T>, n: int, j: int, le: (T, T) -> bool)
    requires TotalPreorder(le)
    requires 0 <= j <= n < |s| && SortedAround(s, n, j, le)
    requires j == 0 || le(s[j - 1], s[j])
    ensures SortedBy(s[..n + 1], le)
  {
    forall p, q | 0 <= p < q <= n
      ensures le(s[p], s[q])
    {
      if q == j {
        assert le(s[p], s[j - 1]) || p == j - 1;
      }
    }
  }

  method SwapLeft<T>(a: array<T>, j: int)
    requires 0 < j < a.Length
    modifies a
    ensures a[..] == old(a[..])[j - 1 := old(a[j])][j := old(a[j - 1])]
    ensures multiset(a[..]) == multiset(old(a[..]))
  {
    a[j - 1], a[j] := a[j], a[j - 1];
  }

  /** Moves `a[n]` left into the sorted prefix `a[..n]`. */
  method Insert<T(!new)>(a: array<T>, n: int, le: (T, T) -> bool)
    requires TotalPreorder(le)
    requires 0 <= n < a.Length && SortedBy(a[..n], le)
    modifies a
    ensures SortedBy(a[..n + 1], le)
    ensures a[n + 1..] == old(a[n + 1..])
    ensures multiset(a[..]) == multiset(old(a[..]))
  {
    StartAround(a[..], n, le);
    var j := n;
    while j > 0 && !le(a[j - 1], a[j])
      invariant 0 <= j <= n
      invariant SortedAround(a[..], n, j, le)
      invariant a[n + 1..] == old(a[n + 1..])
      invariant multiset(a[..]) == multiset(old(a[..]))
    {
      SwapAround(a[..], n, j, le);
      SwapLeft(a, j);
      j := j - 1;
    }
    DoneAround(a[..], n, j, le);
  }

  /** Insertion sort: afterwards the array is sorted by `le` and holds the
      same elements as before. */
  method InsertionSort<T(!new)>(a: array<T>, le: (T, T) -> bool)
    requires TotalPreorder(le)
    modifies a
    ensures SortedBy(a[..], le)
    ensures multiset(a[..]) == multiset(old(a[..]))
  {
    var i := 0;
    while i < a.Length
      invariant 0 <= i <= a.Length
      invariant SortedBy(a[..i], le)
      invariant multiset(a[..]) == multiset(old(a[..]))
    {
      Insert(a, i, le);
      i := i + 1;
    }
    assert a[..] == a[..a.Length];
  }

  /** `items.sort((a, b) => score(b) - score(a))` on a copy: the result
      holds the same elements, by non-increasing score. */
  method SortByScoreDescending<T(!new)>(items: seq<T>, score: T -> int) returns (r: seq<T>)
    ensures multiset(r) == multiset(items)
    ensures forall i, j :: 0 <= i < j < |r| ==> score(r[i]) >= score(r[j])
  {
    var a := new T[|items|](i requires 0 <= i < |items| => items[i]);
    assert a[..] == items;
    var le := (x: T, y: T) => score(x) >= score(y);
    assert TotalPreorder(le);
    InsertionSort(a, le);
    r := a[..];
    assert SortedBy(r, le);
  }

  /** The first `n` elements of a list sorted by descending score are the
      best `n`: nothing left out scores more than anything kept. */
  lemma TakeBest<T>(sorted: seq<T>, n: nat, score: T -> int)
    requires n <= |sorted|
    requires forall i, j :: 0 <= i < j < |sorted| ==> score(sorted[i]) >= score(sorted[j])
    ensures multiset(sorted[..n]) <= multiset(sorted)
    ensures forall x, y :: x in multiset(sorted) - multiset(sorted[..n]) && y in sorted[..n] ==> score(x) <= score(y)
  {
    var top := sorted[..n];
    assert sorted == top + sorted[n..];
    assert multiset(sorted) == multiset(top) + multiset(sorted[n..]);
    forall x, y | x in multiset(sorted) - multiset(top) && y in top
      ensures score(x) <= score(y)
    {
      assert x in sorted[n..];
      var k :| 0 <= k < |sorted[n..]| && sorted[n..][k] == x;
      assert sorted[n + k] == x;
      var j :| 0 <= j < n && top[j] == y;
    }
  }

  /** What `items.sort(by descending score).slice(0, limit)` gives, up to
      the order of equal scores: the `limit` best items (all of them when
      there are fewer), taken from `items`, by non-increasing score, with
      nothing left out scoring more than anything kept. */
  ghost predicate IsTopByScore<T>(top: seq<T>, items: seq<T>, score: T -> int, limit: nat)
  {
    && |top| == (if |items| < limit then |items| else limit)
    && (forall i, j :: 0 <= i < j < |top| ==> score(top[i]) >= score(top[j]))
    && multiset(top) <= multiset(items)
    && (forall x, y :: x in multiset(items) - multiset(top) && y in top ==> score(x) <= score(y))
  }

  /** What holds of every item holds of every item of a sub-multiset, such
      as the best few. */
  lemma SubMultisetKeeps<T>(top: seq<T>, items: seq<T>, p: T -> bool)
    requires multiset(top) <= multiset(items)
    requires forall x :: x in items ==> p(x)
    ensures forall x :: x in top ==> p(x)
  {
    forall x | x in top ensures p(x) {
      assert x in multiset(top);
      assert x in multiset(items);
    }
  }

  /** `items.sort(by descending score).slice(0, limit)`: the `limit` best
      items (all of them when there are fewer) by non-increasing score;
      nothing left out scores more than anything kept. */
  method TopByScore<T(!new)>(items: seq<T>, score: T -> int, limit: nat) returns (top: seq<T>)
    ensures IsTopByScore(top, items, score, limit)
  {
    var sorted := SortByScoreDescending(items, score);
    assert |sorted| == |multiset(sorted)| == |multiset(items)| == |items|;
    var n := if |sorted| < limit then |sorted| else limit;
    top := sorted[..n];
    TakeBest(sorted, n, score);
  }

  /** Ordering by a string key, as `<` on strings orders them, is total
      and transitive in either direction. */
  lemma KeyOrder<T(!new)>(key: T -> string)
    ensures TotalPreorder((a: T, b: T) => LessOrEqual(key(a), key(b)))
    ensures TotalPreorder((a: T, b: T) => LessOrEqual(key(b), key(a)))
  {
    forall x: T, y: T ensures LessOrEqual(key(x), key(y)) || LessOrEqual(key(y), key(x)) {
      LessTotal(key(x), key(y));
      if Less(key(x), key(y)) {
        LessAsymmetric(key(x), key(y));
      }
    }
    forall x: T, y: T, z: T | LessOrEqual(key(x), key(y)) && LessOrEqual(key(y), key(z))
      ensures LessOrEqual(key(x), key(z))
    {
      LessOrEqualTransitive(key(x), key(y), key(z));
    }
    forall x: T, y: T, z: T | LessOrEqual(key(z), key(y)) && LessOrEqual(key(y), key(x))
      ensures LessOrEqual(key(z), key(x))
    {
      LessOrEqualTransitive(key(z), key(y), key(x));
    }
  }

  lemma LessOrEqualTransitive(a: string, b: string, c: string)
    requires LessOrEqual(a, b) && LessOrEqual(b, c)
    ensures LessOrEqual(a, c)
  {
    if Less(c, a) {
      LessTotal(a, b);
      if Less(a, b) {
        LessTransitive(c, a, b);
      }
    }
  }

  /** Sorting an array in place by a string key, ascending or descending:
      the same elements, each in order with every later one. */
  method SortArrayByKey<T(!new)>(a: array<T>, key: T -> string, ascending: bool)
    modifies a
    ensures multiset(a[..]) == multiset(old(a[..]))
    ensures ascending ==> forall i, j :: 0 <= i < j < a.Length ==> LessOrEqual(key(a[i]), key(a[j]))
    ensures !ascending ==> forall i, j :: 0 <= i < j < a.Length ==> LessOrEqual(key(a[j]), key(a[i]))
  {
    KeyOrder(key);
    var le := if ascending then (x: T, y: T) => LessOrEqual(key(x), key(y))
              else (x: T, y: T) => LessOrEqual(key(y), key(x));
    InsertionSort(a, le);
    assert SortedBy(a[..], le);
  }

  /** Sorting a copy by a string key, ascending or descending: the same
      elements, each in order with every later one. */
  method SortByKey<T(!new)>(items: seq<T>, key: T -> string, ascending: bool) returns (r: seq<T>)
    ensures multiset(r) == multiset(items)
    ensures ascending ==> forall i, j :: 0 <= i < j < |r| ==> LessOrEqual(key(r[i]), key(r[j]))
    ensures !ascending ==> forall i, j :: 0 <= i < j < |r| ==> LessOrEqual(key(r[j]), key(r[i]))
  {
    var a := new T[|items|](i requires 0 <= i < |items| => items[i]);
    assert a[..] == items;
    SortArrayByKey(a, key, ascending);
    r := a[..];
  }
}
