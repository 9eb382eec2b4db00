/** Sorting by a strict order, as `ORDER BY` and `Array.prototype.sort` do over rows with distinct keys. */
module Ordering {
  ghost predicate Orders<T(!new)>(less: (T, T) -> bool) {
    && (forall a, b :: less(a, b) ==> !less(b, a))
    && (forall a, b, c :: less(a, b) && less(b, c) ==> less(a, c))
  }

  /** Any two positions hold comparable elements: no key is used twice. */
  ghost predicate Ranked<T>(xs: seq<T>, less: (T, T) -> bool) {
    forall i, j :: 0 <= i < j < |xs| ==> less(xs[i], xs[j]) || less(xs[j], xs[i])
  }

  ghost predicate Ascending<T>(xs: seq<T>, less: (T, T) -> bool) {
    forall i, j :: 0 <= i < j < |xs| ==> less(xs[i], xs[j])
  }

  function Insert<T>(x: T, xs: seq<T>, less: (T, T) -> bool): (r: seq<T>)
    ensures |r| == |xs| + 1
  {
    if xs == [] || !less(xs[0], x) then [x] + xs else [xs[0]] + Insert(x, xs[1..], less)
  }

  function Sort<T>(xs: seq<T>, less: (T, T) -> bool): (r: seq<T>)
    ensures |r| == |xs|
  {
    if xs == [] then [] else Insert(xs[0], Sort(xs[1..], less), less)
  }

  function Filter<T>(xs: seq<T>, keep: T -> bool): (r: seq<T>)
    ensures |r| <= |xs|
  {
    if xs == [] then [] else (if keep(xs[0]) then [xs[0]] else []) + Filter(xs[1..], keep)
  }

  lemma {:induction false} InsertElements<T>(x: T, xs: seq<T>, less: (T, T) -> bool)
    ensures multiset(Insert(x, xs, less)) == multiset([x] + xs)
  {
    if xs != [] && less(xs[0], x) {
      InsertElements(x, xs[1..], less);
      assert xs == [xs[0]] + xs[1..];
    }
  }

  lemma {:induction false} SortElements<T>(xs: seq<T>, less: (T, T) -> bool)
    ensures multiset(Sort(xs, less)) == multiset(xs)
  {
    if xs != [] {
      SortElements(xs[1..], less);
      InsertElements(xs[0], Sort(xs[1..], less), less);
      assert xs == [xs[0]] + xs[1..];
    }
  }

  lemma InElements<T>(x: T, xs: seq<T>, ys: seq<T>)
    requires multiset(xs) == multiset(ys)
    ensures x in xs <==> x in ys
  {
    assert x in xs <==> x in multiset(xs);
    assert x in ys <==> x in multiset(ys);
  }

  lemma {:induction false} InsertAscending<T(!new)>(x: T, xs: seq<T>, less: (T, T) -> bool)
    requires Orders(less) && Ascending(xs, less)
    requires forall y :: y in xs ==> less(x, y) || less(y, x)
    ensures Ascending(Insert(x, xs, less), less)
  {
    if xs != [] {
      if less(xs[0], x) {
        InsertAscending(x, xs[1..], less);
        var rest := Insert(x, xs[1..], less);
        InsertElements(x, xs[1..], less);
        forall j | 0 <= j < |rest| ensures less(xs[0], rest[j]) {
          InElements(rest[j], rest, [x] + xs[1..]);
        }
      } else {
        assert less(x, xs[0]);
      }
    }
  }

  lemma {:induction false} SortAscending<T(!new)>(xs: seq<T>, less: (T, T) -> bool)
    requires Orders(less) && Ranked(xs, less)
    ensures Ascending(Sort(xs, less), less)
  {
    if xs != [] {
      SortAscending(xs[1..], less);
      SortElements(xs[1..], less);
      var rest := Sort(xs[1..], less);
      forall y | y in rest ensures less(xs[0], y) || less(y, xs[0]) {
        InElements(y, rest, xs[1..]);
        var i :| 0 <= i < |xs[1..]| && xs[1..][i] == y;
        assert y == xs[i + 1];
      }
      InsertAscending(xs[0], rest, less);
    }
  }

  /** An ascending sequence is determined by the elements it holds. */
  lemma {:induction false} AscendingUnique<T(!new)>(xs: seq<T>, ys: seq<T>, less: (T, T) -> bool)
    requires Orders(less) && Ascending(xs, less) && Ascending(ys, less)
    requires forall x :: x in xs <==> x in ys
    ensures xs == ys
  {
    assert ys == [] || ys[0] in xs;
    if xs != [] {
      assert xs[0] in ys;
      assert ys[0] in xs;
      assert xs[0] == ys[0] by {
        var i :| 0 <= i < |ys| && ys[i] == xs[0];
        var j :| 0 <= j < |xs| && xs[j] == ys[0];
      }
      forall x ensures x in xs[1..] <==> x in ys[1..] {
        Rest(x, xs, less);
        Rest(x, ys, less);
      }
      AscendingUnique(xs[1..], ys[1..], less);
      assert xs == [xs[0]] + xs[1..] && ys == [ys[0]] + ys[1..];
    }
  }

  lemma Rest<T(!new)>(x: T, xs: seq<T>, less: (T, T) -> bool)
    requires Orders(less) && Ascending(xs, less) && xs != []
    ensures x in xs[1..] <==> x in xs && x != xs[0]
  {
    if x in xs && x != xs[0] {
      var i :| 0 <= i < |xs| && xs[i] == x;
      assert xs[1..][i - 1] == x;
    }
    if x in xs[1..] {
      var i :| 0 <= i < |xs[1..]| && xs[1..][i] == x;
      assert xs[i + 1] == x;
    }
  }

  lemma {:induction false} FilterElements<T>(xs: seq<T>, keep: T -> bool, x: T)
    ensures x in Filter(xs, keep) <==> x in xs && keep(x)
  {
    if xs != [] {
      FilterElements(xs[1..], keep, x);
      assert xs == [xs[0]] + xs[1..];
    }
  }

  lemma {:induction false} FilterRanked<T>(xs: seq<T>, keep: T -> bool, less: (T, T) -> bool)
    requires Ranked(xs, less)
    ensures Ranked(Filter(xs, keep), less)
  {
    if xs != [] {
      FilterRanked(xs[1..], keep, less);
      var rest := Filter(xs[1..], keep);
      forall j | 0 <= j < |rest| ensures less(xs[0], rest[j]) || less(rest[j], xs[0]) {
        FilterElements(xs[1..], keep, rest[j]);
        var i :| 0 <= i < |xs[1..]| && xs[1..][i] == rest[j];
        assert xs[i + 1] == rest[j];
      }
    }
  }

  lemma SortHolds<T>(xs: seq<T>, less: (T, T) -> bool, x: T)
    ensures x in Sort(xs, less) <==> x in xs
  {
    SortElements(xs, less);
    InElements(x, Sort(xs, less), xs);
  }

  /** Of the kept rows in order, those that follow the first `k` are what a cursor at row k - 1 selects. */
  lemma PageFollows<T(!new)>(table: seq<T>, keep: T -> bool, less: (T, T) -> bool, k: nat, after: T -> bool)
    requires Orders(less) && Ranked(Filter(table, keep), less) && Ranked(Filter(table, after), less)
    requires 0 < k <= |Filter(table, keep)|
    requires forall row :: row in table ==> (after(row) <==> keep(row) && less(Sort(Filter(table, keep), less)[k - 1], row))
    ensures Sort(Filter(table, after), less) == Sort(Filter(table, keep), less)[k..]
  {
    var all := Sort(Filter(table, keep), less);
    var page := Sort(Filter(table, after), less);
    SortAscending(Filter(table, keep), less);
    SortAscending(Filter(table, after), less);
    forall x ensures x in page <==> x in all[k..] {
      SortHolds(Filter(table, after), less, x);
      FilterElements(table, after, x);
      SortHolds(Filter(table, keep), less, x);
      FilterElements(table, keep, x);
      Suffix(x, all, k, less);
    }
    AscendingUnique(page, all[k..], less);
  }

  lemma Suffix<T(!new)>(x: T, xs: seq<T>, k: nat, less: (T, T) -> bool)
    requires Orders(less) && Ascending(xs, less) && 0 < k <= |xs|
    ensures x in xs[k..] <==> x in xs && less(xs[k - 1], x)
  {
    if x in xs[k..] {
      var i :| 0 <= i < |xs[k..]| && xs[k..][i] == x;
      assert xs[k + i] == x;
    }
    if x in xs && less(xs[k - 1], x) {
      var i :| 0 <= i < |xs| && xs[i] == x;
      assert i >= k;
      assert xs[k..][i - k] == x;
    }
  }

  /** A row above every other one is ordered last. */
  lemma SortLast<T(!new)>(table: seq<T>, row: T, less: (T, T) -> bool)
    requires Orders(less) && Ranked(table, less)
    requires forall x :: x in table ==> less(x, row)
    ensures Sort(table + [row], less) == Sort(table, less) + [row]
  {
    var grown := table + [row];
    forall i, j | 0 <= i < j < |grown| ensures less(grown[i], grown[j]) || less(grown[j], grown[i]) {
      if j == |table| { assert table[i] in table; }
    }
    SortAscending(grown, less);
    SortAscending(table, less);
    var all := Sort(table, less);
    forall i | 0 <= i < |all| ensures less(all[i], row) {
      SortHolds(table, less, all[i]);
    }
    forall x ensures x in Sort(grown, less) <==> x in all + [row] {
      SortHolds(grown, less, x);
      SortHolds(table, less, x);
    }
    AscendingUnique(Sort(grown, less), all + [row], less);
  }
}
