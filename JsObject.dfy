/** A plain JavaScript object used as a dictionary from string keys to values, as
    the aggregation code uses `{}`: the keys in the order they were first
    assigned (what `Object.keys` lists) and the map from key to value. */
module JsObject {
  import opened Wrappers
  import opened Counts

  datatype Dict<V> = Dict(keys: seq<string>, vals: map<string, V>)
  {
    /** The keys are listed once each, and exactly the keys that have a value. */
    ghost predicate Valid()
    {
      (forall i, j :: 0 <= i < j < |keys| ==> keys[i] != keys[j])
      && (forall k :: k in vals <==> k in keys)
    }
  }

  /** `{}` */
  function Empty<V>(): (d: Dict<V>)
    ensures d.Valid()
  {
    Dict([], map[])
  }

  /** `d[k] = v`: a new key goes to the end of the key order, an existing key keeps
      its place. */
  function Put<V>(d: Dict<V>, k: string, v: V): (r: Dict<V>)
    requires d.Valid()
    ensures r.Valid() && r.vals == d.vals[k := v]
    ensures k in d.vals ==> r.keys == d.keys
    ensures k !in d.vals ==> r.keys == d.keys + [k]
  {
    Dict(if k in d.vals then d.keys else d.keys + [k], d.vals[k := v])
  }

  /** `Object.values(d)`: the values in key order. */
  function Values<V>(d: Dict<V>): (r: seq<V>)
    requires d.Valid()
    ensures |r| == |d.keys|
    ensures forall i :: 0 <= i < |r| ==> r[i] == d.vals[d.keys[i]]
  {
    seq(|d.keys|, i requires 0 <= i < |d.keys| => d.vals[d.keys[i]])
  }

  /** `(d[k] || 0)`: a missing key (undefined), a NaN and a 0 all read as 0. */
  function OrZero(d: Dict<Num>, k: string): int
  {
    if k in d.vals && d.vals[k].Some? then d.vals[k].value else 0
  }

  /** `d[k] = (d[k] || 0) + c`, the accumulation step of every aggregate. */
  function AddCount(d: Dict<Num>, k: string, c: Num): (r: Dict<Num>)
    requires d.Valid()
    ensures r.Valid()
  {
    Put(d, k, Plus(Some(OrZero(d, k)), c))
  }

  /** The dictionary built by running the accumulation step over `rows` in order:
      each row adds its `count` under its `key`. */
  function Fold<T>(rows: seq<T>, key: T -> string, count: T -> Num): (r: Dict<Num>)
    ensures r.Valid()
  {
    if rows == [] then Empty()
    else
      var last := rows[|rows| - 1];
      AddCount(Fold(rows[..|rows| - 1], key, count), key(last), count(last))
  }

  lemma FoldSnoc<T>(rows: seq<T>, x: T, key: T -> string, count: T -> Num)
    ensures Fold(rows + [x], key, count) == AddCount(Fold(rows, key, count), key(x), count(x))
  {
    assert (rows + [x])[..|rows|] == rows;
  }

  /** One more row of a prefix: the step the `reduce` takes at index `i`. */
  lemma FoldPrefix<T>(rows: seq<T>, i: nat, key: T -> string, count: T -> Num)
    requires i < |rows|
    ensures Fold(rows[..i + 1], key, count) == AddCount(Fold(rows[..i], key, count), key(rows[i]), count(rows[i]))
  {
    assert rows[..i + 1] == rows[..i] + [rows[i]];
    FoldSnoc(rows[..i], rows[i], key, count);
  }

  /** The sum of the values, NaN read as 0. */
  function Total(d: Dict<Num>): int
    requires d.Valid()
  {
    SumOver(d.keys, d.vals)
  }

  function SumOver(keys: seq<string>, vals: map<string, Num>): int
    requires forall i :: 0 <= i < |keys| ==> keys[i] in vals
  {
    if keys == [] then 0
    else SumOver(keys[..|keys| - 1], vals) + Value(vals[keys[|keys| - 1]])
  }

  // ---------------------------------------------------------------------------
  // What an accumulated dictionary holds
  // ---------------------------------------------------------------------------

  /** The keys are exactly the keys of the rows. */
  lemma {:induction false} FoldKeys<T>(rows: seq<T>, key: T -> string, count: T -> Num)
    ensures Fold(rows, key, count).vals.Keys == set i | 0 <= i < |rows| :: key(rows[i])
  {
    if rows != [] {
      var front := rows[..|rows| - 1];
      FoldKeys(front, key, count);
      assert forall i :: 0 <= i < |front| ==> key(front[i]) == key(rows[i]);
      var ks := set i | 0 <= i < |rows| :: key(rows[i]);
      var fs := set i | 0 <= i < |front| :: key(front[i]);
      assert ks == fs + {key(rows[|rows| - 1])} by {
        forall k | k in ks ensures k in fs + {key(rows[|rows| - 1])} {
          var i :| 0 <= i < |rows| && key(rows[i]) == k;
          if i < |front| { assert key(front[i]) == k; }
        }
      }
    }
  }

  /** When every count parses, the value under each key is the sum of the counts
      of the rows with that key. */
  lemma {:induction false} FoldValue<T>(rows: seq<T>, key: T -> string, count: T -> Num, k: string)
    requires AllCounted(rows, count)
    requires k in Fold(rows, key, count).vals
    ensures Fold(rows, key, count).vals[k] == Some(CountSum(Where(rows, key, k), count))
  {
    var front := rows[..|rows| - 1];
    assert AllCounted(front, count);
    if k in Fold(front, key, count).vals {
      FoldValue(front, key, count, k);
    } else {
      FoldKeys(front, key, count);
      WhereNone(front, key, k);
    }
    FoldValueStep(rows, key, count, k);
  }

  /** The step of `FoldValue`: the last row adds its count to the sum under its key. */
  lemma FoldValueStep<T>(rows: seq<T>, key: T -> string, count: T -> Num, k: string)
    requires rows != [] && AllCounted(rows, count)
    requires k in Fold(rows, key, count).vals
    requires var front := rows[..|rows| - 1];
             if k in Fold(front, key, count).vals
             then Fold(front, key, count).vals[k] == Some(CountSum(Where(front, key, k), count))
             else Where(front, key, k) == []
    ensures Fold(rows, key, count).vals[k] == Some(CountSum(Where(rows, key, k), count))
  {
    var front, last := rows[..|rows| - 1], rows[|rows| - 1];
    var w := Where(front, key, k);
    var f := Fold(front, key, count);
    assert OrZero(f, k) == CountSum(w, count);
    if key(last) == k {
      assert Where(rows, key, k) == w + [last];
      CountSumSnoc(w, last, count);
    } else {
      assert Where(rows, key, k) == w;
    }
  }

  /** Conservation: when every count parses, the values add up to the sum of all
      the counts, whatever the keys. */
  lemma {:induction false} FoldTotal<T>(rows: seq<T>, key: T -> string, count: T -> Num)
    requires AllCounted(rows, count)
    ensures Total(Fold(rows, key, count)) == CountSum(rows, count)
  {
    if rows != [] {
      var front, last := rows[..|rows| - 1], rows[|rows| - 1];
      assert AllCounted(front, count);
      FoldTotal(front, key, count);
      AddCountTotal(Fold(front, key, count), key(last), count(last).value);
    }
  }

  /** Adding a number `c` under any key raises the total by `c`. */
  lemma AddCountTotal(d: Dict<Num>, k: string, c: int)
    requires d.Valid()
    ensures Total(AddCount(d, k, Some(c))) == Total(d) + c
  {
    var v := Plus(Some(OrZero(d, k)), Some(c));
    var vals' := d.vals[k := v];
    if k in d.vals {
      SumOverUpdate(d.keys, d.vals, k, v);
    } else {
      SumOverAbsent(d.keys, d.vals, k, v);
      assert (d.keys + [k])[..|d.keys|] == d.keys;
    }
  }

  lemma {:induction false} SumOverAbsent(keys: seq<string>, vals: map<string, Num>, k: string, v: Num)
    requires forall i :: 0 <= i < |keys| ==> keys[i] in vals
    requires k !in keys
    ensures SumOver(keys, vals[k := v]) == SumOver(keys, vals)
  {
    if keys != [] {
      SumOverAbsent(keys[..|keys| - 1], vals, k, v);
    }
  }

  lemma {:induction false} SumOverUpdate(keys: seq<string>, vals: map<string, Num>, k: string, v: Num)
    requires forall i :: 0 <= i < |keys| ==> keys[i] in vals
    requires forall i, j :: 0 <= i < j < |keys| ==> keys[i] != keys[j]
    requires k in keys
    ensures SumOver(keys, vals[k := v]) == SumOver(keys, vals) - Value(vals[k]) + Value(v)
  {
    var front, last := keys[..|keys| - 1], keys[|keys| - 1];
    if last == k {
      assert k !in front;
      SumOverAbsent(front, vals, k, v);
    } else {
      assert k in front;
      SumOverUpdate(front, vals, k, v);
    }
  }

  /** Order independence: when every count parses, reordering the rows leaves every
      key's value unchanged (only the key order may differ). */
  lemma FoldPermutation<T>(r1: seq<T>, r2: seq<T>, key: T -> string, count: T -> Num)
    requires multiset(r1) == multiset(r2)
    requires AllCounted(r1, count)
    ensures Fold(r1, key, count).vals == Fold(r2, key, count).vals
  {
    var d1, d2 := Fold(r1, key, count), Fold(r2, key, count);
    assert AllCounted(r2, count) by {
      forall i | 0 <= i < |r2| ensures count(r2[i]).Some? {
        assert r2[i] in multiset(r1);
      }
    }
    FoldKeys(r1, key, count);
    FoldKeys(r2, key, count);
    assert d1.vals.Keys == d2.vals.Keys by {
      forall k ensures k in d1.vals <==> k in d2.vals {
        if k in d1.vals {
          var i :| 0 <= i < |r1| && key(r1[i]) == k;
          assert r1[i] in multiset(r2);
          var j :| 0 <= j < |r2| && r2[j] == r1[i];
        }
        if k in d2.vals {
          var i :| 0 <= i < |r2| && key(r2[i]) == k;
          assert r2[i] in multiset(r1);
          var j :| 0 <= j < |r1| && r1[j] == r2[i];
        }
      }
    }
    forall k | k in d1.vals ensures d1.vals[k] == d2.vals[k] {
      FoldValue(r1, key, count, k);
      FoldValue(r2, key, count, k);
      FilterMapPermutation(r1, r2, KeyIs(key, k));
      CountSumPermutation(Where(r1, key, k), Where(r2, key, k), count);
    }
  }

  /** Two folds that read the same key and the same count from every row agree. */
  lemma {:induction false} FoldCongruence<T>(rows: seq<T>, key1: T -> string, count1: T -> Num,
                                              key2: T -> string, count2: T -> Num)
    requires forall i :: 0 <= i < |rows| ==> key1(rows[i]) == key2(rows[i]) && count1(rows[i]) == count2(rows[i])
    ensures Fold(rows, key1, count1) == Fold(rows, key2, count2)
  {
    if rows != [] {
      var front := rows[..|rows| - 1];
      assert forall i :: 0 <= i < |front| ==> front[i] == rows[i];
      FoldCongruence(front, key1, count1, key2, count2);
    }
  }

  /** The NaN quirk of `(d[k] || 0) + c`: a NaN count turns the key's value into NaN,
      and the next number for that key starts again from 0, so everything
      counted under the key before the NaN is lost. */
  lemma NaNResetsKey(d: Dict<Num>, k: string, n: int)
    requires d.Valid()
    ensures AddCount(d, k, None).vals[k] == None
    ensures AddCount(AddCount(d, k, None), k, Some(n)).vals[k] == Some(n)
  {
  }

  /** Hence with a NaN count the result depends on the order of the rows. */
  lemma NaNOrderMatters(k: string)
    ensures Fold([Some(5), None], (c: Num) => k, (c: Num) => c).vals[k] == None
    ensures Fold([None, Some(5)], (c: Num) => k, (c: Num) => c).vals[k] == Some(5)
  {
    var key, count := (c: Num) => k, (c: Num) => c;
    assert [Some(5), None][..1] == [Some(5)];
    assert [None, Some(5)][..1] == [None];
    assert Fold([Some(5)], key, count) == AddCount(Empty(), k, Some(5));
    assert Fold([None], key, count) == AddCount(Empty(), k, None);
  }

  // ---------------------------------------------------------------------------
  // Two-level dictionaries: outer key -> inner key -> count
  // ---------------------------------------------------------------------------

  ghost predicate AllValid(d: Dict<Dict<Num>>)
  {
    forall a :: a in d.vals ==> d.vals[a].Valid()
  }

  /** `if (!d[a]) d[a] = {}; d[a][b] = (d[a][b] || 0) + c` over the rows in order. */
  function NestedFold<T>(rows: seq<T>, outer: T -> string, inner: T -> string, count: T -> Num)
    : (r: Dict<Dict<Num>>)
    ensures r.Valid() && AllValid(r)
  {
    if rows == [] then Empty()
    else
      var last := rows[|rows| - 1];
      var d := NestedFold(rows[..|rows| - 1], outer, inner, count);
      var a := outer(last);
      var d1 := if a in d.vals then d else Put(d, a, Empty());
      Put(d1, a, AddCount(d1.vals[a], inner(last), count(last)))
  }

  lemma NestedFoldSnoc<T>(rows: seq<T>, x: T, outer: T -> string, inner: T -> string, count: T -> Num)
    ensures var d := NestedFold(rows, outer, inner, count);
            var d1 := if outer(x) in d.vals then d else Put(d, outer(x), Empty());
            NestedFold(rows + [x], outer, inner, count)
              == Put(d1, outer(x), AddCount(d1.vals[outer(x)], inner(x), count(x)))
  {
    assert (rows + [x])[..|rows|] == rows;
  }

  /** The outer keys are listed exactly as the one-level dictionary on the outer key
      lists its keys. */
  lemma {:induction false} NestedKeys<T>(rows: seq<T>, outer: T -> string, inner: T -> string, count: T -> Num)
    ensures NestedFold(rows, outer, inner, count).keys == Fold(rows, outer, count).keys
  {
    if rows != [] {
      var front := rows[..|rows| - 1];
      NestedKeys(front, outer, inner, count);
    }
  }

  /** Each inner dictionary is the one-level dictionary of the rows with that outer
      key, on the inner key. */
  lemma {:induction false} NestedInner<T>(rows: seq<T>, outer: T -> string, inner: T -> string,
                                          count: T -> Num, a: string)
    requires a in NestedFold(rows, outer, inner, count).vals
    ensures NestedFold(rows, outer, inner, count).vals[a] == Fold(Where(rows, outer, a), inner, count)
  {
    var front := rows[..|rows| - 1];
    if a in NestedFold(front, outer, inner, count).vals {
      NestedInner(front, outer, inner, count, a);
    } else {
      NestedKeys(front, outer, inner, count);
      FoldKeys(front, outer, count);
      WhereNone(front, outer, a);
    }
    NestedInnerStep(rows, outer, inner, count, a);
  }

  /** The step of `NestedInner`: the last row keeps an inner dictionary equal to the
      one-level dictionary of its rows. */
  lemma NestedInnerStep<T>(rows: seq<T>, outer: T -> string, inner: T -> string,
                           count: T -> Num, a: string)
    requires rows != []
    requires a in NestedFold(rows, outer, inner, count).vals
    requires var front := rows[..|rows| - 1];
             if a in NestedFold(front, outer, inner, count).vals
             then NestedFold(front, outer, inner, count).vals[a] == Fold(Where(front, outer, a), inner, count)
             else Where(front, outer, a) == []
    ensures NestedFold(rows, outer, inner, count).vals[a] == Fold(Where(rows, outer, a), inner, count)
  {
    var front, last := rows[..|rows| - 1], rows[|rows| - 1];
    var w := Where(front, outer, a);
    if outer(last) == a {
      assert Where(rows, outer, a) == w + [last];
      FoldSnoc(w, last, inner, count);
    } else {
      assert Where(rows, outer, a) == w;
    }
  }

  /** Conservation per outer key: when every count parses, an inner dictionary adds
      up to the one-level value of its outer key. */
  lemma NestedTotal<T>(rows: seq<T>, outer: T -> string, inner: T -> string, count: T -> Num, a: string)
    requires AllCounted(rows, count)
    requires a in NestedFold(rows, outer, inner, count).vals
    ensures a in Fold(rows, outer, count).vals
    ensures Some(Total(NestedFold(rows, outer, inner, count).vals[a])) == Fold(rows, outer, count).vals[a]
  {
    NestedKeys(rows, outer, inner, count);
    NestedInner(rows, outer, inner, count, a);
    var w := Where(rows, outer, a);
    WhereCounted(rows, outer, a, count);
    FoldTotal(w, inner, count);
    FoldValue(rows, outer, count, a);
  }

  /** Order independence of the two-level dictionary: when every count parses,
      reordering the rows gives the same outer keys, and under each of them an inner
      dictionary with the same key-to-value map. */
  lemma NestedPermutation<T>(r1: seq<T>, r2: seq<T>, outer: T -> string, inner: T -> string, count: T -> Num)
    requires multiset(r1) == multiset(r2)
    requires AllCounted(r1, count)
    ensures NestedFold(r1, outer, inner, count).vals.Keys == NestedFold(r2, outer, inner, count).vals.Keys
    ensures forall a :: a in NestedFold(r1, outer, inner, count).vals ==>
              NestedFold(r1, outer, inner, count).vals[a].vals == NestedFold(r2, outer, inner, count).vals[a].vals
  {
    var n1, n2 := NestedFold(r1, outer, inner, count), NestedFold(r2, outer, inner, count);
    NestedKeys(r1, outer, inner, count);
    NestedKeys(r2, outer, inner, count);
    FoldPermutation(r1, r2, outer, count);
    assert n1.vals.Keys == n2.vals.Keys by {
      forall a ensures a in n1.vals <==> a in n2.vals {
        assert a in n1.vals <==> a in Fold(r1, outer, count).vals;
        assert a in n2.vals <==> a in Fold(r2, outer, count).vals;
      }
    }
    forall a | a in n1.vals ensures n1.vals[a].vals == n2.vals[a].vals {
      NestedInner(r1, outer, inner, count, a);
      NestedInner(r2, outer, inner, count, a);
      FilterMapPermutation(r1, r2, KeyIs(outer, a));
      WhereCounted(r1, outer, a, count);
      FoldPermutation(Where(r1, outer, a), Where(r2, outer, a), inner, count);
    }
  }
}
