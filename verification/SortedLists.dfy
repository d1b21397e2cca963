/** Sorted lists without repetition, and the sorted keys that grouping by a key produces. */
module SortedLists {
  import opened Prelude

  /** `before` is a strict total order. */
  ghost predicate StrictTotal<T(!new)>(before: (T, T) -> bool) {
    && (forall a :: !before(a, a))
    && (forall a, b :: a != b ==> (before(a, b) <==> !before(b, a)))
    && (forall a, b, c :: before(a, b) && before(b, c) ==> before(a, c))
  }

  ghost predicate Sorted<T>(xs: seq<T>, before: (T, T) -> bool) {
    forall i, j :: 0 <= i < j < |xs| ==> before(xs[i], xs[j])
  }

  /** Adds `x` at its place, unless it is there already. */
  function InsertSorted<T(==)>(xs: seq<T>, x: T, before: (T, T) -> bool): seq<T> {
    if xs == [] || before(Last(xs), x) then xs + [x]
    else if Last(xs) == x then xs
    else InsertSorted(Front(xs), x, before) + [Last(xs)]
  }

  lemma {:induction false} InsertAdds<T>(xs: seq<T>, x: T, before: (T, T) -> bool, y: T)
    ensures y in InsertSorted(xs, x, before) <==> y in xs || y == x
  {
    if xs != [] {
      FrontAndLast(xs);
      if !before(Last(xs), x) && Last(xs) != x {
        InsertAdds(Front(xs), x, before, y);
      }
    }
  }

  lemma {:induction false} AppendKeepsSorted<T(!new)>(xs: seq<T>, x: T, before: (T, T) -> bool)
    requires StrictTotal(before) && Sorted(xs, before) && (xs != [] ==> before(Last(xs), x))
    ensures Sorted(xs + [x], before)
  {
    forall i | 0 <= i < |xs|
      ensures before(xs[i], x)
    {
      assert i < |xs| - 1 ==> before(xs[i], Last(xs));
    }
  }

  lemma {:induction false} InsertKeepsSorted<T(!new)>(xs: seq<T>, x: T, before: (T, T) -> bool)
    requires StrictTotal(before) && Sorted(xs, before)
    ensures Sorted(InsertSorted(xs, x, before), before)
  {
    if xs == [] || before(Last(xs), x) {
      AppendKeepsSorted(xs, x, before);
    } else if Last(xs) != x {
      var fewer := InsertSorted(Front(xs), x, before);
      FrontAndLast(xs);
      InsertKeepsSorted(Front(xs), x, before);
      InsertAdds(Front(xs), x, before, Last(fewer));
      if Last(fewer) != x {
        var i :| 0 <= i < |Front(xs)| && Front(xs)[i] == Last(fewer);
        assert before(xs[i], xs[|xs| - 1]);
      }
      AppendKeepsSorted(fewer, Last(xs), before);
    }
  }

  lemma {:induction false} FilterKeepsSorted<T>(xs: seq<T>, keep: T -> bool, before: (T, T) -> bool)
    requires Sorted(xs, before)
    ensures Sorted(Filter(xs, keep), before)
  {
    if xs != [] {
      var kept := Filter(Front(xs), keep);
      FilterKeepsSorted(Front(xs), keep, before);
      forall i | 0 <= i < |kept|
        ensures before(kept[i], Last(xs))
      {
        FilterKeepsExactly(Front(xs), keep, kept[i]);
        var j :| 0 <= j < |Front(xs)| && Front(xs)[j] == kept[i];
        assert before(xs[j], xs[|xs| - 1]);
      }
    }
  }

  lemma {:induction false} LastsAgree<T(!new)>(xs: seq<T>, ys: seq<T>, before: (T, T) -> bool)
    requires StrictTotal(before) && Sorted(xs, before) && Sorted(ys, before) && xs != [] && ys != []
    requires forall x :: x in xs <==> x in ys
    ensures Last(xs) == Last(ys)
  {
    var x, y := Last(xs), Last(ys);
    assert x in xs && y in ys;
    var i :| 0 <= i < |ys| && ys[i] == x;
    var j :| 0 <= j < |xs| && xs[j] == y;
  }

  lemma {:induction false} SameEmptiness<T>(xs: seq<T>, ys: seq<T>)
    requires forall x :: x in xs <==> x in ys
    ensures xs == [] <==> ys == []
  {
    if xs != [] {
      assert xs[0] in ys;
    }
    if ys != [] {
      assert ys[0] in xs;
    }
  }

  lemma {:induction false} FrontHasNoLast<T(!new)>(xs: seq<T>, before: (T, T) -> bool, x: T)
    requires StrictTotal(before) && Sorted(xs, before) && xs != []
    ensures x in Front(xs) <==> x in xs && x != Last(xs)
  {
    FrontAndLast(xs);
    if x in Front(xs) {
      var i :| 0 <= i < |Front(xs)| && Front(xs)[i] == x;
      assert before(xs[i], xs[|xs| - 1]);
    }
  }

  /** A sorted list is determined by its elements. */
  lemma {:induction false} SortedAreEqual<T(!new)>(xs: seq<T>, ys: seq<T>, before: (T, T) -> bool)
    requires StrictTotal(before) && Sorted(xs, before) && Sorted(ys, before)
    requires forall x :: x in xs <==> x in ys
    ensures xs == ys
  {
    SameEmptiness(xs, ys);
    if xs != [] {
      LastsAgree(xs, ys, before);
      FrontAndLast(xs);
      FrontAndLast(ys);
      forall x
        ensures x in Front(xs) <==> x in Front(ys)
      {
        FrontHasNoLast(xs, before, x);
        FrontHasNoLast(ys, before, x);
      }
      SortedAreEqual(Front(xs), Front(ys), before);
    }
  }

  // ---- The keys of a grouping ----

  function SortedKeys<T, K(==)>(xs: seq<T>, key: T -> K, before: (K, K) -> bool): seq<K> {
    if xs == [] then [] else InsertSorted(SortedKeys(Front(xs), key, before), key(Last(xs)), before)
  }

  lemma {:induction false} KeysAreSorted<T, K(!new)>(xs: seq<T>, key: T -> K, before: (K, K) -> bool)
    requires StrictTotal(before)
    ensures Sorted(SortedKeys(xs, key, before), before)
  {
    if xs != [] {
      KeysAreSorted(Front(xs), key, before);
      InsertKeepsSorted(SortedKeys(Front(xs), key, before), key(Last(xs)), before);
    }
  }

  /** The keys are those of the elements. */
  lemma {:induction false} KeysHold<T, K>(xs: seq<T>, key: T -> K, before: (K, K) -> bool, k: K)
    ensures k in SortedKeys(xs, key, before) <==> exists i :: 0 <= i < |xs| && key(xs[i]) == k
  {
    if xs != [] {
      var fewer := Front(xs);
      KeysHold(fewer, key, before, k);
      InsertAdds(SortedKeys(fewer, key, before), key(Last(xs)), before, k);
      if k in SortedKeys(fewer, key, before) {
        var i :| 0 <= i < |fewer| && key(fewer[i]) == k;
        assert xs[i] == fewer[i];
      }
      assert xs[|xs| - 1] == Last(xs);
      if exists i :: 0 <= i < |xs| && key(xs[i]) == k {
        var i :| 0 <= i < |xs| && key(xs[i]) == k;
        assert i < |fewer| ==> fewer[i] == xs[i];
      }
    }
  }

  lemma {:induction false} InsertAfter<T>(earlier: seq<T>, xs: seq<T>, x: T, before: (T, T) -> bool)
    requires forall i :: 0 <= i < |earlier| ==> before(earlier[i], x)
    ensures InsertSorted(earlier + xs, x, before) == earlier + InsertSorted(xs, x, before)
  {
    if xs == [] {
      assert earlier + xs == earlier;
    } else if !before(Last(xs), x) && Last(xs) != x {
      InsertAfter(earlier, Front(xs), x, before);
      assert Front(earlier + xs) == earlier + Front(xs);
    }
  }

  /** Elements whose keys all come later add their keys behind. */
  lemma {:induction false} KeysOfParts<T, K>(xs: seq<T>, ys: seq<T>, key: T -> K, before: (K, K) -> bool)
    requires forall i, j :: 0 <= i < |xs| && 0 <= j < |ys| ==> before(key(xs[i]), key(ys[j]))
    ensures SortedKeys(xs + ys, key, before) == SortedKeys(xs, key, before) + SortedKeys(ys, key, before)
  {
    var earlier := SortedKeys(xs, key, before);
    if ys == [] {
      assert xs + ys == xs && earlier + [] == earlier;
    } else {
      var fewer, last := Front(ys), Last(ys);
      assert ys[|ys| - 1] == last;
      KeysOfParts(xs, fewer, key, before);
      assert Front(xs + ys) == xs + fewer;
      forall i | 0 <= i < |earlier|
        ensures before(earlier[i], key(last))
      {
        KeysHold(xs, key, before, earlier[i]);
      }
      InsertAfter(earlier, SortedKeys(fewer, key, before), key(last), before);
    }
  }
}
