/** The paged queries of SqliteAPI.cc. A page is what the query finds, without the rows whose ids are
    among the first `offset` of what it finds, cut to `limit`. Rows that compare as equal come in the
    order in which the tables are scanned. */
module Paging {
  import opened Sequences

  // ---------------------------------------------------------------------------------------------
  // Sorting

  ghost predicate Ordered<T(!new)>(le: (T, T) -> bool) {
    && (forall a, b :: le(a, b) || le(b, a))
    && (forall a, b, c :: le(a, b) && le(b, c) ==> le(a, c))
  }

  ghost predicate Sorted<T>(s: seq<T>, le: (T, T) -> bool) {
    forall i, j :: 0 <= i < j < |s| ==> le(s[i], s[j])
  }

  function Place<T>(x: T, s: seq<T>, le: (T, T) -> bool): (r: seq<T>)
    ensures |r| == |s| + 1
  {
    if s == [] || le(x, s[0]) then [x] + s else [s[0]] + Place(x, s[1..], le)
  }

  /** ORDER BY. */
  function Sort<T>(rows: seq<T>, le: (T, T) -> bool): (r: seq<T>)
    ensures |r| == |rows|
  {
    if rows == [] then [] else Place(rows[0], Sort(rows[1..], le), le)
  }

  lemma {:induction false} PlaceContents<T>(x: T, s: seq<T>, le: (T, T) -> bool)
    ensures multiset(Place(x, s, le)) == multiset(s) + multiset{x}
  {
    if !(s == [] || le(x, s[0])) {
      PlaceContents(x, s[1..], le);
      assert s == [s[0]] + s[1..];
    }
  }

  lemma {:induction false} PlaceSorted<T(!new)>(x: T, s: seq<T>, le: (T, T) -> bool)
    requires Ordered(le) && Sorted(s, le)
    ensures Sorted(Place(x, s, le), le)
  {
    if !(s == [] || le(x, s[0])) {
      var rest := Place(x, s[1..], le);
      PlaceSorted(x, s[1..], le);
      PlaceContents(x, s[1..], le);
      forall j | 0 <= j < |rest|
        ensures le(s[0], rest[j])
      {
        assert rest[j] in multiset(rest);
      }
    }
  }

  /** Sorting keeps the rows and puts them in order. */
  lemma {:induction false} SortSorts<T(!new)>(rows: seq<T>, le: (T, T) -> bool)
    requires Ordered(le)
    ensures Sorted(Sort(rows, le), le) && multiset(Sort(rows, le)) == multiset(rows)
  {
    if rows != [] {
      SortSorts(rows[1..], le);
      PlaceSorted(rows[0], Sort(rows[1..], le), le);
      PlaceContents(rows[0], Sort(rows[1..], le), le);
      assert rows == [rows[0]] + rows[1..];
    }
  }

  /** What comes before the first of a sorted sequence comes before all of it. */
  lemma BeforeAll<T(!new)>(x: T, s: seq<T>, le: (T, T) -> bool)
    requires Ordered(le) && Sorted(s, le) && (s == [] || le(x, s[0]))
    ensures forall y :: y in s ==> le(x, y)
  {
  }

  // ---------------------------------------------------------------------------------------------
  // Filtering

  /** WHERE. */
  function Filter<T(!new)>(s: seq<T>, p: T -> bool): (r: seq<T>)
    ensures forall x :: x in r <==> x in s && p(x)
  {
    if s == [] then [] else if p(s[0]) then [s[0]] + Filter(s[1..], p) else Filter(s[1..], p)
  }

  lemma {:induction false} FilterPlace<T(!new)>(x: T, s: seq<T>, le: (T, T) -> bool, p: T -> bool)
    requires Ordered(le) && Sorted(s, le)
    ensures Filter(Place(x, s, le), p) == if p(x) then Place(x, Filter(s, p), le) else Filter(s, p)
  {
    hide Ordered;
    if s == [] || le(x, s[0]) {
      BeforeAll(x, s, le);
      assert ([x] + s)[1..] == s;
    } else {
      FilterPlace(x, s[1..], le, p);
      assert ([s[0]] + Place(x, s[1..], le))[1..] == Place(x, s[1..], le);
      assert ([s[0]] + Filter(s[1..], p))[1..] == Filter(s[1..], p);
    }
  }

  /** Filtering what is sorted is sorting what is filtered. */
  lemma {:induction false} FilterSort<T(!new)>(rows: seq<T>, le: (T, T) -> bool, p: T -> bool)
    requires Ordered(le)
    ensures Filter(Sort(rows, le), p) == Sort(Filter(rows, p), le)
  {
    if rows != [] {
      hide Ordered, Sorted, Place;
      FilterSort(rows[1..], le, p);
      SortSorts(rows[1..], le);
      FilterPlace(rows[0], Sort(rows[1..], le), le, p);
      if p(rows[0]) {
        assert Filter(rows, p)[1..] == Filter(rows[1..], p);
      }
    }
  }

  lemma {:induction false} FilterFilter<T(!new)>(s: seq<T>, p: T -> bool, q: T -> bool, both: T -> bool)
    requires forall x :: both(x) <==> p(x) && q(x)
    ensures Filter(Filter(s, p), q) == Filter(s, both)
  {
    if s != [] {
      FilterFilter(s[1..], p, q, both);
      if p(s[0]) {
        assert ([s[0]] + Filter(s[1..], p))[1..] == Filter(s[1..], p);
      }
    }
  }

  lemma {:induction false} FilterSize<T(!new)>(s: seq<T>, p: T -> bool)
    ensures |Filter(s, p)| <= |s|
    ensures |Filter(s, p)| == |s| <==> forall i :: 0 <= i < |s| ==> p(s[i])
    ensures |Filter(s, p)| == |s| ==> Filter(s, p) == s
    ensures (forall i :: 0 <= i < |s| ==> !p(s[i])) <==> Filter(s, p) == []
  {
    if s != [] {
      FilterSize(s[1..], p);
      assert s == [s[0]] + s[1..];
    }
  }

  // ---------------------------------------------------------------------------------------------
  // Pages

  /** A query: the rows it reads, its condition, its order and the id it selects. */
  datatype Query<!T> = Query(rows: seq<T>, where_: T -> bool, le: (T, T) -> bool, id: T -> int)

  function Limit<T>(s: seq<T>, n: nat): seq<T> {
    if n < |s| then s[..n] else s
  }

  /** What the query finds without a page. */
  function Result<T(!new)>(q: Query<T>): seq<T> {
    Sort(Filter(q.rows, q.where_), q.le)
  }

  function IdsOf<T>(s: seq<T>, id: T -> int): set<int> {
    set i | 0 <= i < |s| :: id(s[i])
  }

  function Offset(start: nat): nat {
    if start == 0 then 0 else start - 1
  }

  /** The query with its NOT IN part, which is there only when the page does not start at the first row. */
  function Page<T(!new)>(q: Query<T>, limit: nat, start: nat): seq<T> {
    var offset := Offset(start);
    if offset > 0 then
      var skipped := IdsOf(Limit(Sort(Filter(q.rows, q.where_), q.le), offset), q.id);
      Limit(Sort(Filter(q.rows, x => q.where_(x) && q.id(x) !in skipped), q.le), limit)
    else
      Limit(Sort(Filter(q.rows, q.where_), q.le), limit)
  }

  /** The rows from the offset on, as many as the limit allows. */
  function Slice<T>(s: seq<T>, offset: nat, limit: nat): seq<T> {
    if offset < |s| then Limit(s[offset..], limit) else []
  }

  ghost predicate UniqueIds<T>(s: seq<T>, id: T -> int) {
    forall i, j :: 0 <= i < j < |s| ==> id(s[i]) != id(s[j])
  }

  /** A page is the result, without what has an id of the first rows. */
  lemma PageIsFiltered<T(!new)>(q: Query<T>, limit: nat, start: nat)
    requires Ordered(q.le) && Offset(start) > 0
    ensures var first := IdsOf(Limit(Result(q), Offset(start)), q.id);
            Page(q, limit, start) == Limit(Filter(Result(q), x => q.id(x) !in first), limit)
  {
    var first := IdsOf(Limit(Result(q), Offset(start)), q.id);
    var fresh_ := x => q.id(x) !in first;
    FilterSort(Filter(q.rows, q.where_), q.le, fresh_);
    FilterFilter(q.rows, q.where_, fresh_, x => q.where_(x) && q.id(x) !in first);
  }

  lemma {:induction false} FilterConcat<T(!new)>(a: seq<T>, b: seq<T>, p: T -> bool)
    ensures Filter(a + b, p) == Filter(a, p) + Filter(b, p)
  {
    if a == [] {
      assert a + b == b;
    } else {
      assert (a + b)[1..] == a[1..] + b;
      FilterConcat(a[1..], b, p);
    }
  }

  /** Leaving out the ids of the first n rows leaves out the first n rows. */
  lemma SkipFirst<T(!new)>(rows: seq<T>, n: nat, id: T -> int)
    requires n <= |rows|
    ensures var first := IdsOf(rows[..n], id);
            && |Filter(rows, x => id(x) !in first)| <= |rows| - n
            && (|Filter(rows, x => id(x) !in first)| == |rows| - n <==>
                  forall i, j :: 0 <= i < n <= j < |rows| ==> id(rows[i]) != id(rows[j]))
            && (|Filter(rows, x => id(x) !in first)| == |rows| - n ==> Filter(rows, x => id(x) !in first) == rows[n..])
  {
    var first := IdsOf(rows[..n], id);
    var p := x => id(x) !in first;
    assert rows == rows[..n] + rows[n..];
    FilterConcat(rows[..n], rows[n..], p);
    forall i | 0 <= i < n
      ensures !p(rows[..n][i])
    {
      assert id(rows[..n][i]) in first;
    }
    FilterSize(rows[..n], p);
    FilterSize(rows[n..], p);
    if forall i :: 0 <= i < |rows[n..]| ==> p(rows[n..][i]) {
      forall i, j | 0 <= i < n <= j < |rows|
        ensures id(rows[i]) != id(rows[j])
      {
        assert p(rows[n..][j - n]);
        assert id(rows[..n][i]) in first;
      }
    }
  }

  lemma PageIsSlice<T(!new)>(q: Query<T>, limit: nat, start: nat)
    requires Ordered(q.le) && UniqueIds(Result(q), q.id)
    ensures Page(q, limit, start) == Slice(Result(q), Offset(start), limit)
  {
    hide Ordered;
    var r, offset := Result(q), Offset(start);
    if offset > 0 {
      PageIsFiltered(q, limit, start);
      SkipFirst(r, if offset < |r| then offset else |r|, q.id);
      assert r[..|r|] == r;
    } else {
      assert r[0..] == r;
    }
  }

  /** If an id comes twice, the page after its first row is too short. */
  lemma DuplicateBreaks<T(!new)>(q: Query<T>, i: nat, j: nat)
    requires Ordered(q.le) && i < j < |Result(q)| && q.id(Result(q)[i]) == q.id(Result(q)[j])
    ensures Page(q, |Result(q)|, i + 2) != Slice(Result(q), Offset(i + 2), |Result(q)|)
  {
    hide Ordered, Result, Page, IdsOf;
    var r := Result(q);
    var kept := Filter(r, x => q.id(x) !in IdsOf(r[..i + 1], q.id));
    PageIsFiltered(q, |r|, i + 2);
    SkipFirst(r, i + 1, q.id);
    assert |kept| < |r| - (i + 1);
    assert Page(q, |r|, i + 2) == kept;
  }

  /** Paging is slicing, whatever the page, exactly when no id comes twice in the result. */
  lemma PagingIsSlicing<T(!new)>(q: Query<T>)
    requires Ordered(q.le)
    ensures (forall limit, start :: Page(q, limit, start) == Slice(Result(q), Offset(start), limit))
            <==> UniqueIds(Result(q), q.id)
  {
    hide Ordered, Page, Slice, Result;
    var r := Result(q);
    if UniqueIds(r, q.id) {
      forall limit, start
        ensures Page(q, limit, start) == Slice(r, Offset(start), limit)
      {
        PageIsSlice(q, limit, start);
      }
    } else {
      var i, j :| 0 <= i < j < |r| && q.id(r[i]) == q.id(r[j]);
      DuplicateBreaks(q, i, j);
    }
  }

  /** The rows of a page, by position: row k of the page that starts at `start`, counted from one, is row
      start - 1 + k of the result; a page that starts at zero is the first. */
  lemma PageRows<T(!new)>(q: Query<T>, limit: nat, start: nat)
    requires Ordered(q.le) && UniqueIds(Result(q), q.id)
    ensures var page, r, skipped := Page(q, limit, start), Result(q), if start == 0 then 0 else start - 1;
            && |page| == (if |r| <= skipped then 0 else if |r| - skipped < limit then |r| - skipped else limit)
            && forall k :: 0 <= k < |page| ==> page[k] == r[skipped + k]
  {
    hide Ordered, Page, Result;
    PageIsSlice(q, limit, start);
  }

  /** The first k pages of n rows, one after the other. */
  function Pages<T(!new)>(q: Query<T>, n: nat, k: nat): seq<T> {
    if k == 0 then [] else Pages(q, n, k - 1) + Page(q, n, (k - 1) * n + 1)
  }

  lemma OneMorePage<T(!new)>(q: Query<T>, n: nat, before: nat)
    requires Ordered(q.le) && UniqueIds(Result(q), q.id)
    ensures Limit(Result(q), before) + Page(q, n, before + 1) == Limit(Result(q), before + n)
  {
    hide Ordered, Page, Result, UniqueIds, Slice;
    PageIsSlice(q, n, before + 1);
    SliceAfter(Result(q), before, n);
  }

  lemma Times(n: nat, k: nat)
    requires k > 0
    ensures (k - 1) * n + n == k * n && (k - 1) * n >= 0
  {
  }

  /** Pages put together are the result as far as they go: nothing comes twice and nothing is missing. */
  lemma {:induction false} PagesCover<T(!new)>(q: Query<T>, n: nat, k: nat)
    requires Ordered(q.le) && UniqueIds(Result(q), q.id)
    ensures Pages(q, n, k) == Limit(Result(q), k * n)
    ensures k * n >= |Result(q)| ==> Pages(q, n, k) == Result(q)
  {
    hide Ordered, Page, Pages, Result, UniqueIds, Limit;
    LimitAll(Result(q), k * n);
    PagesMore(q, n, k);
    if k > 0 {
      PagesCover(q, n, k - 1);
      Times(n, k);
      OneMorePage(q, n, (k - 1) * n);
    }
  }

  lemma PagesMore<T(!new)>(q: Query<T>, n: nat, k: nat)
    ensures Pages(q, n, 0) == [] && Limit(Result(q), 0) == []
    ensures k > 0 ==> (k - 1) * n >= 0 && Pages(q, n, k) == Pages(q, n, k - 1) + Page(q, n, (k - 1) * n + 1)
  {
    hide Page, Result;
  }

  lemma LimitAll<T>(s: seq<T>, n: nat)
    ensures n >= |s| ==> Limit(s, n) == s
  {
  }

  lemma SliceAfter<T>(s: seq<T>, offset: nat, n: nat)
    ensures Limit(s, offset) + Slice(s, offset, n) == Limit(s, offset + n)
  {
  }

  // ---------------------------------------------------------------------------------------------
  // When ids are unique

  lemma {:induction false} FilterDistinct<T(!new)>(s: seq<T>, p: T -> bool)
    requires NoDuplicates(s)
    ensures NoDuplicates(Filter(s, p))
  {
    if s != [] {
      FilterDistinct(s[1..], p);
      assert s[0] !in s[1..];
    }
  }

  lemma {:induction false} CountsOnce<T>(s: seq<T>)
    ensures NoDuplicates(s) <==> forall x :: x in s ==> multiset(s)[x] == 1
  {
    if s != [] {
      var rest := s[1..];
      CountsOnce(rest);
      assert s == [s[0]] + rest;
      assert forall x :: multiset(s)[x] == multiset(rest)[x] + if x == s[0] then 1 else 0;
      assert NoDuplicates(s) <==> NoDuplicates(rest) && s[0] !in rest by {
        assert forall i :: 0 <= i < |rest| ==> rest[i] == s[i + 1];
        assert forall i :: 1 <= i < |s| ==> s[i] == rest[i - 1];
      }
      assert s[0] in rest <==> multiset(rest)[s[0]] > 0;
    }
  }

  /** The result holds what is read and meets the condition, each row as often as it is read, in order. */
  lemma ResultMeaning<T(!new)>(q: Query<T>)
    requires Ordered(q.le)
    ensures Sorted(Result(q), q.le)
    ensures forall x :: x in Result(q) <==> x in q.rows && q.where_(x)
    ensures NoDuplicates(q.rows) ==> NoDuplicates(Result(q))
  {
    var kept := Filter(q.rows, q.where_);
    SortSorts(kept, q.le);
    assert forall x :: x in Result(q) <==> x in multiset(Result(q));
    assert forall x :: x in kept <==> x in multiset(kept);
    if NoDuplicates(q.rows) {
      FilterDistinct(q.rows, q.where_);
      CountsOnce(kept);
      CountsOnce(Result(q));
    }
  }

  /** Ids are unique in the result exactly when no two different rows with one id meet the condition. */
  lemma UniqueResult<T(!new)>(q: Query<T>)
    requires Ordered(q.le) && NoDuplicates(q.rows)
    ensures UniqueIds(Result(q), q.id) <==>
            forall x, y :: x in q.rows && y in q.rows && q.where_(x) && q.where_(y) && q.id(x) == q.id(y) ==> x == y
  {
    hide Ordered, Result;
    ResultMeaning(q);
    var r := Result(q);
    if UniqueIds(r, q.id) {
      forall x, y | x in r && y in r && q.id(x) == q.id(y)
        ensures x == y
      {
        var i, j :| 0 <= i < |r| && 0 <= j < |r| && r[i] == x && r[j] == y;
      }
    }
  }
}
