/** The list-view plumbing every dashboard screen repeats: `filter`,
    counting, `Array.from(new Set(...))`, `slice` with JavaScript's index
    rules, `Math.ceil(n / perPage)` pages and the prev/next clamps. */
module ListView {
  import opened Wrappers

  /** `Array.prototype.filter`: the elements that pass, in their order. */
  function Filter<T>(s: seq<T>, keep: T -> bool): (r: seq<T>)
    ensures |r| <= |s|
    ensures forall x :: x in r ==> x in s && keep(x)
    ensures forall x :: x in s && keep(x) ==> x in r
  {
    if s == [] then []
    else
      var rest := Filter(s[1..], keep);
      assert forall x :: x in s ==> x == s[0] || x in s[1..];
      if keep(s[0]) then [s[0]] + rest else rest
  }

  /** Filtering keeps the order: the filter of a concatenation is the
      concatenation of the filters. */
  lemma {:induction false} FilterConcat<T>(a: seq<T>, b: seq<T>, keep: T -> bool)
    ensures Filter(a + b, keep) == Filter(a, keep) + Filter(b, keep)
  {
    if a == [] {
      assert a + b == b;
    } else {
      assert (a + b)[1..] == a[1..] + b;
      FilterConcat(a[1..], b, keep);
    }
  }

  /** `filter(r => r !== null)` after a `map` whose callback may give
      `null`: the values present, in their order. */
  function Compact<T>(s: seq<Option<T>>): (r: seq<T>)
    ensures |r| <= |s|
    ensures forall x :: x in r ==> Some(x) in s
    ensures forall k :: 0 <= k < |s| && s[k].Some? ==> s[k].value in r
  {
    if s == [] then []
    else
      var rest := Compact(s[1..]);
      assert forall k :: 1 <= k < |s| ==> s[k] == s[1..][k - 1];
      if s[0].Some? then [s[0].value] + rest else rest
  }

  /** Dropping the nulls keeps the order: the compacted concatenation is
      the concatenation of the compacted parts. */
  lemma {:induction false} CompactAppend<T>(a: seq<Option<T>>, b: seq<Option<T>>)
    ensures Compact(a + b) == Compact(a) + Compact(b)
  {
    if a == [] {
      assert a + b == b;
    } else {
      assert (a + b)[1..] == a[1..] + b;
      CompactAppend(a[1..], b);
    }
  }

  /** Without nulls nothing is dropped: every entry's value, in order. */
  lemma {:induction false} CompactAllPresent<T>(s: seq<Option<T>>)
    requires forall k :: 0 <= k < |s| ==> s[k].Some?
    ensures |Compact(s)| == |s|
    ensures forall k :: 0 <= k < |s| ==> Compact(s)[k] == s[k].value
  {
    if s != [] {
      CompactAllPresent(s[1..]);
    }
  }

  /** `Array.prototype.map`. */
  function Map<A, B>(s: seq<A>, f: A -> B): (r: seq<B>)
    ensures |r| == |s|
  {
    seq(|s|, k requires 0 <= k < |s| => f(s[k]))
  }

  /** A `map` whose callback gives `null` exactly for the elements a test
      rejects, followed by dropping the nulls, maps the elements the test
      keeps: the k-th value is the callback's value for the k-th kept one. */
  lemma {:induction false} CompactMapFilter<A, B>(s: seq<A>, f: A -> Option<B>, keep: A -> bool)
    requires forall k :: 0 <= k < |s| ==> (f(s[k]).Some? <==> keep(s[k]))
    ensures |Compact(Map(s, f))| == |Filter(s, keep)|
    ensures forall k :: 0 <= k < |Filter(s, keep)| ==> f(Filter(s, keep)[k]) == Some(Compact(Map(s, f))[k])
  {
    if s != [] {
      var tail := s[1..];
      CompactMapFilter(tail, f, keep);
      assert Map(s, f)[1..] == Map(tail, f);
      if keep(s[0]) {
        CompactMapFilterKept(s, f, keep);
      }
    }
  }

  /** The step of `CompactMapFilter` for a first element the test keeps:
      both lists start with it, and the rest lines up with the tail's. */
  lemma CompactMapFilterKept<A, B>(s: seq<A>, f: A -> Option<B>, keep: A -> bool)
    requires s != [] && keep(s[0]) && f(s[0]).Some?
    requires Map(s, f)[1..] == Map(s[1..], f)
    requires |Compact(Map(s[1..], f))| == |Filter(s[1..], keep)|
    requires forall k :: 0 <= k < |Filter(s[1..], keep)| ==>
      f(Filter(s[1..], keep)[k]) == Some(Compact(Map(s[1..], f))[k])
    ensures |Compact(Map(s, f))| == |Filter(s, keep)|
    ensures forall k :: 0 <= k < |Filter(s, keep)| ==> f(Filter(s, keep)[k]) == Some(Compact(Map(s, f))[k])
  {
    var kept, keptTail := Filter(s, keep), Filter(s[1..], keep);
    var all, rest := Compact(Map(s, f)), Compact(Map(s[1..], f));
    FilterKeptHead(s, keep);
    CompactPresentHead(Map(s, f));
    assert Map(s, f)[0] == f(s[0]);
    forall k | 0 <= k < |kept| ensures f(kept[k]) == Some(all[k]) {
      if k > 0 {
        assert kept[k] == keptTail[k - 1] && all[k] == rest[k - 1];
      }
    }
  }

  /** A kept first element heads the filtered list. */
  lemma FilterKeptHead<T>(s: seq<T>, keep: T -> bool)
    requires s != [] && keep(s[0])
    ensures Filter(s, keep) == [s[0]] + Filter(s[1..], keep)
  {
  }

  /** A present first value heads the compacted list. */
  lemma CompactPresentHead<T>(s: seq<Option<T>>)
    requires s != [] && s[0].Some?
    ensures Compact(s) == [s[0].value] + Compact(s[1..])
  {
  }

  /** A filter that everything passes returns the list unchanged. */
  lemma {:induction false} FilterAll<T>(s: seq<T>, keep: T -> bool)
    requires forall x :: x in s ==> keep(x)
    ensures Filter(s, keep) == s
  {
    if s != [] {
      assert forall x :: x in s[1..] ==> x in s;
      FilterAll(s[1..], keep);
      assert [s[0]] + s[1..] == s;
    }
  }

  /** Filtering with two tests one after the other is filtering with both. */
  lemma {:induction false} FilterFilter<T>(s: seq<T>, p: T -> bool, q: T -> bool)
    ensures Filter(Filter(s, p), q) == Filter(s, x => p(x) && q(x))
  {
    if s != [] {
      FilterFilter(s[1..], p, q);
      var rest := Filter(s[1..], p);
      if p(s[0]) {
        assert Filter(s, p) == [s[0]] + rest;
        assert ([s[0]] + rest)[1..] == rest;
      }
    }
  }

  /** `Array.prototype.filter(...).length`. */
  function Count<T>(s: seq<T>, keep: T -> bool): (n: nat)
    ensures n <= |s|
  {
    |Filter(s, keep)|
  }

  /** Counting looks at the first element and then at the rest. */
  lemma CountStep<T>(s: seq<T>, keep: T -> bool)
    requires s != []
    ensures Count(s, keep) == (if keep(s[0]) then 1 else 0) + Count(s[1..], keep)
  {
  }

  /** `r` holds no value twice. */
  predicate NoDuplicates<T(==)>(r: seq<T>)
  {
    forall i, j :: 0 <= i < j < |r| ==> r[i] != r[j]
  }

  /** A list without duplicates holds each value at most once. */
  lemma {:induction false} NoDuplicatesCounts<T>(a: seq<T>, x: T)
    requires NoDuplicates(a)
    ensures multiset(a)[x] <= 1
  {
    if a != [] {
      assert a == [a[0]] + a[1..];
      assert NoDuplicates(a[1..]) by {
        forall i, j | 0 <= i < j < |a[1..]| ensures a[1..][i] != a[1..][j] {
          assert a[1..][i] == a[i + 1] && a[1..][j] == a[j + 1];
        }
      }
      NoDuplicatesCounts(a[1..], x);
      if a[0] == x {
        assert x !in a[1..] by {
          forall k | 0 <= k < |a[1..]| ensures a[1..][k] != x {
            assert a[1..][k] == a[k + 1];
          }
        }
      }
    }
  }

  /** Reordering a list without duplicates leaves none. */
  lemma NoDuplicatesPermutation<T>(a: seq<T>, b: seq<T>)
    requires NoDuplicates(a) && multiset(a) == multiset(b)
    ensures NoDuplicates(b)
  {
    forall i, j | 0 <= i < j < |b| ensures b[i] != b[j] {
      if b[i] == b[j] {
        assert b == b[..j] + [b[j]] + b[j + 1..];
        assert b[i] in b[..j];
        assert multiset(b)[b[j]] >= 2;
        NoDuplicatesCounts(a, b[j]);
      }
    }
  }

  /** `Array.from(new Set(s))`: each value once, in order of first
      occurrence. */
  function Distinct<T(==,!new)>(s: seq<T>): (r: seq<T>)
    ensures NoDuplicates(r)
    ensures forall x :: x in r <==> x in s
    ensures |r| <= |s|
    decreases |s|
  {
    if s == [] then []
    else
      var init := Distinct(s[..|s| - 1]);
      var last := s[|s| - 1];
      assert forall x :: x in s <==> x in s[..|s| - 1] || x == last;
      if last in init then init else init + [last]
  }

  /** The first value of the list opens the list of distinct values. */
  lemma {:induction false} DistinctFirst<T(!new)>(s: seq<T>)
    requires s != []
    ensures Distinct(s) != [] && Distinct(s)[0] == s[0]
    decreases |s|
  {
    if |s| > 1 {
      DistinctFirst(s[..|s| - 1]);
    }
  }

  /** The distinct values come in the order of their first occurrence: a
      value listed earlier occurs in `s` before any occurrence of a value
      listed later. */
  lemma {:induction false} DistinctOrder<T(!new)>(s: seq<T>, i: nat, j: nat, k: nat)
    requires i < j < |Distinct(s)| && k < |s| && s[k] == Distinct(s)[j]
    ensures Distinct(s)[i] in s[..k]
    decreases |s|
  {
    var init := Distinct(s[..|s| - 1]);
    var last := s[|s| - 1];
    if last in init {
      if k < |s| - 1 {
        DistinctOrder(s[..|s| - 1], i, j, k);
        assert s[..|s| - 1][..k] == s[..k];
      } else {
        var k' :| 0 <= k' < |init| && init[k'] == last;
        assert init[j] == last;
        assert k' == j;
        var m :| 0 <= m < |s| - 1 && s[m] == last;
        DistinctOrder(s[..|s| - 1], i, j, m);
        assert s[..|s| - 1][..m] == s[..m];
        assert init[i] in s[..m];
      }
    } else if j < |init| {
      assert k < |s| - 1;
      DistinctOrder(s[..|s| - 1], i, j, k);
      assert s[..|s| - 1][..k] == s[..k];
    } else {
      assert Distinct(s)[i] == init[i];
      assert init[i] in s[..|s| - 1];
      assert k == |s| - 1;
      assert s[..k] == s[..|s| - 1];
    }
  }

  /** `Math.max(Math.min(i, ...))`: how `slice` turns an index, negative
      ones counting from the end, into a position in `0..len`. */
  function SliceIndex(i: int, len: nat): (r: nat)
    ensures r <= len
  {
    if i < 0 then (if len + i < 0 then 0 else len + i)
    else if i > len then len
    else i
  }

  /** `Array.prototype.slice(start, end)`. */
  function Slice<T>(s: seq<T>, start: int, end: int): (r: seq<T>)
    ensures |r| <= |s|
  {
    var from := SliceIndex(start, |s|);
    var to := SliceIndex(end, |s|);
    if from < to then s[from..to] else []
  }

  /** `slice(0, n)` keeps the first `n` elements, or all of a shorter list. */
  lemma SliceFront<T>(s: seq<T>, n: nat)
    ensures Slice(s, 0, n) == s[..if |s| < n then |s| else n]
  {
  }

  /** `Math.ceil(n / perPage)`: the fewest pages of `perPage` that hold `n`
      items. */
  function TotalPages(n: nat, perPage: nat): (pages: nat)
    requires perPage > 0
    ensures n <= pages * perPage
    ensures pages == 0 || (pages - 1) * perPage < n
  {
    (n + perPage - 1) / perPage
  }

  /** The items of page `page` (counted from 1):
      `items.slice((page - 1) * perPage, (page - 1) * perPage + perPage)`. */
  function PageItems<T>(items: seq<T>, page: int, perPage: nat): (r: seq<T>)
    requires perPage > 0
    ensures 1 <= page ==> |r| <= perPage
    ensures 1 <= page && (page - 1) * perPage < |items| ==> r != []
    ensures 1 <= page && |items| <= (page - 1) * perPage ==> r == []
    ensures 1 <= page && (page - 1) * perPage < |items| ==>
      |r| == (if |items| < page * perPage then |items| - (page - 1) * perPage else perPage)
  {
    Slice(items, (page - 1) * perPage, (page - 1) * perPage + perPage)
  }

  lemma MulMonotone(x: int, y: int, c: nat)
    requires x <= y
    ensures x * c <= y * c
  {
  }

  /** `slice(start, start + len)` from inside the list reads from `start`. */
  lemma SliceAt<T>(s: seq<T>, start: nat, len: nat, r: nat)
    requires r < len && start + r < |s|
    ensures r < |Slice(s, start, start + len)|
    ensures Slice(s, start, start + len)[r] == s[start + r]
  {
  }

  /** Every item is on exactly the page its index says, and that page is
      one of `1..TotalPages`. */
  lemma ItemOnPage<T>(items: seq<T>, perPage: nat, i: nat)
    requires perPage > 0 && i < |items|
    ensures 1 <= i / perPage + 1 <= TotalPages(|items|, perPage)
    ensures i % perPage < |PageItems(items, i / perPage + 1, perPage)|
    ensures PageItems(items, i / perPage + 1, perPage)[i % perPage] == items[i]
  {
    var q, r := i / perPage, i % perPage;
    PageBound(|items|, perPage, i);
    var start := q * perPage;
    assert (q + 1 - 1) * perPage == start;
    assert start + r == i;
    SliceAt(items, start, perPage, r);
  }

  /** The page of an index inside the list is a real page. */
  lemma PageBound(n: nat, perPage: nat, i: nat)
    requires perPage > 0 && i < n
    ensures i / perPage < TotalPages(n, perPage)
  {
    var q, pages := i / perPage, TotalPages(n, perPage);
    assert q * perPage <= i;
    if pages <= q {
      MulMonotone(pages, q, perPage);
    }
  }

  /** The "previous" button: `Math.max(page - 1, 1)`. */
  function PrevPage(page: int): (r: int)
    ensures r >= 1
    ensures page > 1 ==> r == page - 1
    ensures page <= 1 ==> r == 1
  {
    if page - 1 > 1 then page - 1 else 1
  }

  /** The "next" button: `Math.min(page + 1, totalPages)`. */
  function NextPage(page: int, totalPages: int): (r: int)
    ensures r <= totalPages
    ensures page < totalPages ==> r == page + 1
    ensures page >= totalPages ==> r == totalPages
  {
    if page + 1 < totalPages then page + 1 else totalPages
  }

  /** From a page in `1..totalPages` both buttons stay in `1..totalPages`. */
  lemma PrevNextInRange(page: int, totalPages: int)
    requires 1 <= page <= totalPages
    ensures 1 <= PrevPage(page) <= totalPages
    ensures 1 <= NextPage(page, totalPages) <= totalPages
  {
  }
}
