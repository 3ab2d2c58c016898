/** Counts as JavaScript computes them, and sums over a batch of rows. */
module Counts {
  import opened Wrappers

  /** A JavaScript number as the dashboard produces it: `Some(n)` is the integer `n`,
      `None` is NaN (what `parseInt` gives for text without digits). */
  type Num = Option<int>

  /** JavaScript `a + b` on numbers: NaN on either side gives NaN. */
  function Plus(a: Num, b: Num): (r: Num)
    ensures r.Some? <==> a.Some? && b.Some?
  {
    if a.Some? && b.Some? then Some(a.value + b.value) else None
  }

  /** The integer a count contributes to a total; NaN contributes nothing. The
      conservation lemmas only use it on batches whose counts all parse. */
  function Value(n: Num): int
  {
    if n.Some? then n.value else 0
  }

  /** Every row's count is a number, not NaN. */
  predicate AllCounted<T>(rows: seq<T>, count: T -> Num)
  {
    forall i :: 0 <= i < |rows| ==> count(rows[i]).Some?
  }

  /** The sum of the counts of `rows`. */
  function CountSum<T>(rows: seq<T>, count: T -> Num): int
  {
    if rows == [] then 0
    else CountSum(rows[..|rows| - 1], count) + Value(count(rows[|rows| - 1]))
  }

  lemma CountSumSnoc<T>(rows: seq<T>, x: T, count: T -> Num)
    ensures CountSum(rows + [x], count) == CountSum(rows, count) + Value(count(x))
  {
    assert (rows + [x])[..|rows|] == rows;
  }

  /** The rows `f` keeps, each replaced by what `f` makes of it, in order. */
  function FilterMap<T, U>(rows: seq<T>, f: T -> Option<U>): (r: seq<U>)
    ensures |r| <= |rows|
  {
    if rows == [] then []
    else
      var kept := FilterMap(rows[..|rows| - 1], f);
      var last := f(rows[|rows| - 1]);
      if last.Some? then kept + [last.value] else kept
  }

  /** Keeps a row exactly when its `key` is `k`. */
  function KeyIs<T>(key: T -> string, k: string): T -> Option<T>
  {
    x => if key(x) == k then Some(x) else None
  }

  /** The rows whose `key` is `k`, in order. */
  function Where<T>(rows: seq<T>, key: T -> string, k: string): seq<T>
  {
    FilterMap(rows, KeyIs(key, k))
  }

  lemma WhereSnoc<T>(rows: seq<T>, x: T, key: T -> string, k: string)
    ensures Where(rows + [x], key, k) == Where(rows, key, k) + (if key(x) == k then [x] else [])
  {
    assert (rows + [x])[..|rows|] == rows;
  }

  /** No row has key `k`: nothing is kept. */
  lemma {:induction false} WhereNone<T>(rows: seq<T>, key: T -> string, k: string)
    requires forall i :: 0 <= i < |rows| ==> key(rows[i]) != k
    ensures Where(rows, key, k) == []
  {
    if rows != [] {
      WhereNone(rows[..|rows| - 1], key, k);
    }
  }

  /** Every row kept has key `k` and comes from `rows`. */
  lemma WhereMembers<T>(rows: seq<T>, key: T -> string, k: string, y: T)
    requires y in Where(rows, key, k)
    ensures key(y) == k && y in rows
  {
    FilterMapMembers(rows, KeyIs(key, k), y);
  }

  /** The rows kept by `Where` keep their counts. */
  lemma WhereCounted<T>(rows: seq<T>, key: T -> string, k: string, count: T -> Num)
    requires AllCounted(rows, count)
    ensures AllCounted(Where(rows, key, k), count)
  {
    var w := Where(rows, key, k);
    forall i | 0 <= i < |w| ensures count(w[i]).Some? {
      assert w[i] in w;
      WhereMembers(rows, key, k, w[i]);
      var j :| 0 <= j < |rows| && rows[j] == w[i];
    }
  }

  lemma {:induction false} CountSumAppend<T>(a: seq<T>, b: seq<T>, count: T -> Num)
    ensures CountSum(a + b, count) == CountSum(a, count) + CountSum(b, count)
    decreases |b|
  {
    if b == [] {
      assert a + b == a;
    } else {
      var b' := b[..|b| - 1];
      assert (a + b)[..|a + b| - 1] == a + b';
      CountSumAppend(a, b', count);
    }
  }

  lemma {:induction false} FilterMapAppend<T, U>(a: seq<T>, b: seq<T>, f: T -> Option<U>)
    ensures FilterMap(a + b, f) == FilterMap(a, f) + FilterMap(b, f)
    decreases |b|
  {
    if b == [] {
      assert a + b == a;
    } else {
      var b' := b[..|b| - 1];
      assert (a + b)[..|a + b| - 1] == a + b';
      FilterMapAppend(a, b', f);
    }
  }

  /** What `FilterMap` keeps is exactly the images of the rows `f` accepts. */
  lemma {:induction false} FilterMapMembers<T, U>(rows: seq<T>, f: T -> Option<U>, y: U)
    ensures y in FilterMap(rows, f) <==> exists i :: 0 <= i < |rows| && f(rows[i]) == Some(y)
  {
    if rows != [] {
      var front := rows[..|rows| - 1];
      FilterMapMembers(front, f, y);
      if exists i :: 0 <= i < |front| && f(front[i]) == Some(y) {
        var i :| 0 <= i < |front| && f(front[i]) == Some(y);
        assert f(rows[i]) == Some(y);
      }
      if exists i :: 0 <= i < |rows| && f(rows[i]) == Some(y) {
        var i :| 0 <= i < |rows| && f(rows[i]) == Some(y);
        if i < |front| {
          assert f(front[i]) == Some(y);
        }
      }
    }
  }

  /** Removing one occurrence of `x` from a permutation of `s + [x]` leaves a
      permutation of `s`. */
  lemma PickOut<T>(s: seq<T>, x: T, t: seq<T>) returns (j: nat)
    requires multiset(s + [x]) == multiset(t)
    ensures j < |t| && t[j] == x
    ensures t == t[..j] + [x] + t[j + 1..]
    ensures multiset(s) == multiset(t[..j] + t[j + 1..])
  {
    assert x in multiset(t);
    j :| 0 <= j < |t| && t[j] == x;
    assert t == t[..j] + [x] + t[j + 1..];
    calc {
      multiset(s) + multiset{x};
      multiset(s + [x]);
      multiset(t);
      multiset(t[..j] + [x] + t[j + 1..]);
      multiset(t[..j] + t[j + 1..]) + multiset{x};
    }
    assert multiset(s) == multiset(s) + multiset{x} - multiset{x};
    assert multiset(t[..j] + t[j + 1..])
      == multiset(t[..j] + t[j + 1..]) + multiset{x} - multiset{x};
  }

  /** A total does not depend on the order of the rows. */
  lemma {:induction false} CountSumPermutation<T>(r1: seq<T>, r2: seq<T>, count: T -> Num)
    requires multiset(r1) == multiset(r2)
    ensures CountSum(r1, count) == CountSum(r2, count)
    decreases |r1|
  {
    if r1 == [] {
      assert |r2| == |multiset(r2)| == 0;
    } else {
      var s, x := r1[..|r1| - 1], r1[|r1| - 1];
      assert r1 == s + [x];
      var j := PickOut(s, x, r2);
      var rest := r2[..j] + r2[j + 1..];
      CountSumPermutation(s, rest, count);
      CountSumAppend(r2[..j], r2[j + 1..], count);
      CountSumAppend(r2[..j] + [x], r2[j + 1..], count);
      CountSumAppend(r2[..j], [x], count);
      assert [x][..0] == [];
    }
  }

  /** Filtering a permutation gives a permutation of the filtered rows. */
  lemma {:induction false} FilterMapPermutation<T, U>(r1: seq<T>, r2: seq<T>, f: T -> Option<U>)
    requires multiset(r1) == multiset(r2)
    ensures multiset(FilterMap(r1, f)) == multiset(FilterMap(r2, f))
    decreases |r1|
  {
    if r1 == [] {
      assert |r2| == |multiset(r2)| == 0;
    } else {
      var s, x := r1[..|r1| - 1], r1[|r1| - 1];
      assert r1 == s + [x];
      var j := PickOut(s, x, r2);
      var rest := r2[..j] + r2[j + 1..];
      FilterMapPermutation(s, rest, f);
      FilterMapAppend(r2[..j], r2[j + 1..], f);
      FilterMapAppend(r2[..j] + [x], r2[j + 1..], f);
      FilterMapAppend(r2[..j], [x], f);
      assert [x][..0] == [];
    }
  }
}
