/** Small shared vocabulary: optional values, outcomes of a transaction and sums over table rows. */
module Basics {

  /** Row and entity identifiers. The numeric order stands for the lexicographic order of the stored ids. */
  type Id = nat

  datatype Option<+T> = None | Some(value: T)

  /** Outcome of one transaction body: a thrown error carries no new state, so nothing is written. */
  datatype Result<+T, +E> = Ok(value: T) | Err(error: E) {
    predicate IsFailure() { Err? }
    function PropagateFailure<U>(): Result<U, E>
      requires Err?
    {
      Err(error)
    }
    function Extract(): T
      requires Ok?
    {
      value
    }
  }

  function Min(x: int, y: int): int { if x <= y then x else y }

  function Max(x: int, y: int): int { if x >= y then x else y }

  function Abs(x: int): int { if x < 0 then -x else x }

  /** First row that satisfies `p`, as a unique-key lookup returns it. */
  function Find<T>(s: seq<T>, p: T -> bool): (r: Option<nat>)
    ensures r.Some? ==> r.value < |s| && p(s[r.value])
    ensures r.None? ==> forall i :: 0 <= i < |s| ==> !p(s[i])
  {
    if |s| == 0 then None
    else
      var front := Find(s[..|s| - 1], p);
      if front.Some? then front
      else if p(s[|s| - 1]) then Some(|s| - 1)
      else None
  }

  /** The only row that satisfies `p` is the one found. */
  lemma FindOnly<T>(s: seq<T>, p: T -> bool, i: nat)
    requires i < |s| && p(s[i])
    requires forall k :: 0 <= k < |s| && k != i ==> !p(s[k])
    ensures Find(s, p) == Some(i)
  {
  }
}

/** Monotone products and quotients, for prices in basis points. */
module Rounding {
  lemma ProductMono(a: int, b: int, c: int)
    requires a <= b && c >= 0
    ensures a * c <= b * c
  {
  }

  lemma QuotientMono(a: int, b: int, d: int)
    requires a <= b && d > 0
    ensures a / d <= b / d
  {
    assert a == a / d * d + a % d && b == b / d * d + b % d;
    if b / d + 1 <= a / d { ProductMono(b / d + 1, a / d, d); }
  }
}

/** Sums over the rows of a table, and how the two table writes (insert, update) move them. */
module Sums {

  function Sum<T>(s: seq<T>, f: T -> int): int
  {
    if |s| == 0 then 0 else Sum(s[..|s| - 1], f) + f(s[|s| - 1])
  }

  lemma SumAppend<T>(s: seq<T>, x: T, f: T -> int)
    ensures Sum(s + [x], f) == Sum(s, f) + f(x)
  {
    assert (s + [x])[..|s|] == s;
  }

  lemma {:induction false} SumConcat<T>(s: seq<T>, t: seq<T>, f: T -> int)
    ensures Sum(s + t, f) == Sum(s, f) + Sum(t, f)
  {
    if |t| == 0 {
      assert s + t == s;
    } else {
      SumConcat(s, t[..|t| - 1], f);
      assert (s + t)[..|s + t| - 1] == s + t[..|t| - 1];
    }
  }

  lemma {:induction false} SumUpdate<T>(s: seq<T>, i: nat, x: T, f: T -> int)
    requires i < |s|
    ensures Sum(s[i := x], f) == Sum(s, f) - f(s[i]) + f(x)
  {
    var n := |s| - 1;
    if i == n {
      assert s[i := x][..n] == s[..n];
    } else {
      SumUpdate(s[..n], i, x, f);
      assert s[i := x][..n] == s[..n][i := x];
    }
  }

  /** Writes row `i`: an update of an existing row, or the insert of the next one. */
  function Put<T>(s: seq<T>, i: nat, x: T): (r: seq<T>)
    requires i <= |s|
    ensures |r| == (if i < |s| then |s| else |s| + 1) && r[i] == x
    ensures forall j :: 0 <= j < |s| && j != i ==> r[j] == s[j]
  {
    if i < |s| then s[i := x] else s + [x]
  }

  /** What row `i` contributed before it was written. */
  function Was<T>(s: seq<T>, i: nat, f: T -> int): int {
    if i < |s| then f(s[i]) else 0
  }

  lemma SumPut<T>(s: seq<T>, i: nat, x: T, f: T -> int)
    requires i <= |s|
    ensures Sum(Put(s, i, x), f) == Sum(s, f) - Was(s, i, f) + f(x)
  {
    if i < |s| {
      SumUpdate(s, i, x, f);
    } else {
      SumAppend(s, x, f);
    }
  }

  lemma {:induction false} SumMono<T>(s: seq<T>, f: T -> int, g: T -> int)
    requires forall i :: 0 <= i < |s| ==> f(s[i]) <= g(s[i])
    ensures Sum(s, f) <= Sum(s, g)
  {
    if |s| > 0 {
      SumMono(s[..|s| - 1], f, g);
    }
  }

  /** Row by row comparison of two tables of the same length. */
  lemma {:induction false} SumPointwise<T>(s: seq<T>, t: seq<T>, f: T -> int)
    requires |s| == |t| && forall i :: 0 <= i < |s| ==> f(s[i]) <= f(t[i])
    ensures Sum(s, f) <= Sum(t, f)
  {
    if |s| > 0 {
      SumPointwise(s[..|s| - 1], t[..|t| - 1], f);
    }
  }

  lemma {:induction false} SumSame<T>(s: seq<T>, f: T -> int, g: T -> int)
    requires forall i :: 0 <= i < |s| ==> f(s[i]) == g(s[i])
    ensures Sum(s, f) == Sum(s, g)
  {
    SumMono(s, f, g);
    SumMono(s, g, f);
  }

  lemma {:induction false} SumZero<T>(s: seq<T>, f: T -> int)
    requires forall i :: 0 <= i < |s| ==> f(s[i]) == 0
    ensures Sum(s, f) == 0
  {
    if |s| > 0 {
      SumZero(s[..|s| - 1], f);
    }
  }

  lemma {:induction false} SumNonNegative<T>(s: seq<T>, f: T -> int)
    requires forall i :: 0 <= i < |s| ==> f(s[i]) >= 0
    ensures Sum(s, f) >= 0
  {
    if |s| > 0 {
      SumNonNegative(s[..|s| - 1], f);
    }
  }

  /** With non-negative terms, one row never exceeds the whole. */
  lemma {:induction false} SumAtLeastOne<T>(s: seq<T>, i: nat, f: T -> int)
    requires i < |s|
    requires forall j :: 0 <= j < |s| ==> f(s[j]) >= 0
    ensures f(s[i]) <= Sum(s, f)
  {
    var n := |s| - 1;
    if i == n {
      SumNonNegative(s[..n], f);
    } else {
      SumAtLeastOne(s[..n], i, f);
    }
  }

  lemma {:induction false} SumPlus<T>(s: seq<T>, f: T -> int, g: T -> int, h: T -> int)
    requires forall i :: 0 <= i < |s| ==> h(s[i]) == f(s[i]) + g(s[i])
    ensures Sum(s, h) == Sum(s, f) + Sum(s, g)
  {
    if |s| > 0 {
      SumPlus(s[..|s| - 1], f, g, h);
    }
  }

  /** Only row `i` contributes. */
  lemma {:induction false} SumSingle<T>(s: seq<T>, i: nat, f: T -> int)
    requires i < |s| && forall j :: 0 <= j < |s| && j != i ==> f(s[j]) == 0
    ensures Sum(s, f) == f(s[i])
  {
    var n := |s| - 1;
    if i == n {
      SumZero(s[..n], f);
    } else {
      SumSingle(s[..n], i, f);
    }
  }
}
