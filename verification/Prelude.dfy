/** Values and sequence functions shared by every component of the telemetry path. */
module Prelude {

  datatype Option<+T> = None | Some(value: T)

  datatype Result<+T, +E> = Ok(value: T) | Err(error: E)

  // Timestamps are integer microseconds since an arbitrary midnight.
  const SECOND: int := 1_000_000
  const STATE_INTERVAL: int := 10 * SECOND
  const DAY: int := 86_400 * SECOND

  /** The start of the interval of length `step` that holds `t`. */
  function Floor(t: int, step: int): (start: int)
    requires step > 0
    ensures start <= t < start + step
  {
    t - t % step
  }

  lemma {:induction false} FloorIsMultiple(t: int, step: int)
    requires step > 0
    ensures Floor(t, step) % step == 0
  {
    assert t - t % step == step * (t / step);
    MultipleHasNoRemainder(t / step, step);
  }

  lemma {:induction false} MultipleHasNoRemainder(k: int, step: int)
    requires step > 0
    ensures (step * k) % step == 0
  {
    // The quotient of step * k is k: any other quotient leaves a remainder out of range.
    var q := (step * k) / step;
    assert step * k == step * q + (step * k) % step;
    if q < k {
      Scale(q + 1, k, step);
    } else if k < q {
      Scale(k + 1, q, step);
    }
  }

  lemma {:induction false} Scale(a: int, b: int, step: int)
    requires a <= b && step > 0
    ensures step * a <= step * b
  {
  }

  /** Two multiples of `step` in the wrong order are at least a whole step apart. */
  lemma {:induction false} MultiplesAreApart(a: int, b: int, step: int)
    requires step > 0 && a % step == 0 && b % step == 0 && a < b
    ensures a + step <= b
  {
    assert a == step * (a / step) && b == step * (b / step);
    if b / step <= a / step {
      Scale(b / step, a / step, step);
    } else {
      Scale(a / step + 1, b / step, step);
    }
  }

  /** Flooring keeps the order of timestamps. */
  lemma {:induction false} FloorIsMonotone(a: int, b: int, step: int)
    requires step > 0 && a <= b
    ensures Floor(a, step) <= Floor(b, step)
  {
    FloorIsMultiple(a, step);
    FloorIsMultiple(b, step);
    if Floor(b, step) < Floor(a, step) {
      MultiplesAreApart(Floor(b, step), Floor(a, step), step);
    }
  }

  function Min(a: int, b: int): int {
    if a <= b then a else b
  }

  function Max(a: int, b: int): int {
    if a >= b then a else b
  }

  /** Strict lexicographic order of code points, the order of `sorted` on strings. */
  predicate Before(s: string, t: string) {
    if t == [] then false
    else if s == [] then true
    else s[0] < t[0] || (s[0] == t[0] && Before(s[1..], t[1..]))
  }

  /** Of two strings, exactly one comes before the other unless they are equal. */
  lemma {:induction false} BeforeIsTotal(s: string, t: string)
    ensures s != t ==> (Before(s, t) <==> !Before(t, s))
    ensures s == t ==> !Before(s, t)
  {
    if s != [] && t != [] {
      assert s == [s[0]] + s[1..] && t == [t[0]] + t[1..];
      BeforeIsTotal(s[1..], t[1..]);
    }
  }

  lemma {:induction false} BeforeIsTransitive(s: string, t: string, u: string)
    requires Before(s, t) && Before(t, u)
    ensures Before(s, u)
  {
    if s != [] {
      if s[0] == t[0] && t[0] == u[0] {
        BeforeIsTransitive(s[1..], t[1..], u[1..]);
      }
    }
  }

  function Last<T>(xs: seq<T>): T
    requires xs != []
  {
    xs[|xs| - 1]
  }

  /** All but the last element. */
  function Front<T>(xs: seq<T>): seq<T>
    requires xs != []
  {
    xs[..|xs| - 1]
  }

  // Recursion on the last element suits logs that grow at the end.

  function Sum(xs: seq<int>): int {
    if xs == [] then 0 else Sum(Front(xs)) + Last(xs)
  }

  function RealSum(xs: seq<real>): real {
    if xs == [] then 0.0 else RealSum(Front(xs)) + Last(xs)
  }

  function Map<T, U>(xs: seq<T>, f: T -> U): seq<U> {
    if xs == [] then [] else Map(Front(xs), f) + [f(Last(xs))]
  }

  lemma {:induction false} MapAt<T, U>(xs: seq<T>, f: T -> U)
    ensures |Map(xs, f)| == |xs|
    ensures forall i :: 0 <= i < |xs| ==> Map(xs, f)[i] == f(xs[i])
  {
    if xs != [] {
      MapAt(Front(xs), f);
    }
  }

  lemma {:induction false} MapAppend<T, U>(xs: seq<T>, x: T, f: T -> U)
    ensures Map(xs + [x], f) == Map(xs, f) + [f(x)]
  {
    assert Front(xs + [x]) == xs;
  }

  lemma {:induction false} MapConcat<T, U>(xs: seq<T>, ys: seq<T>, f: T -> U)
    ensures Map(xs + ys, f) == Map(xs, f) + Map(ys, f)
  {
    if ys == [] {
      assert xs + ys == xs;
    } else {
      MapConcat(xs, Front(ys), f);
      assert xs + ys == (xs + Front(ys)) + [Last(ys)];
      MapAppend(xs + Front(ys), Last(ys), f);
    }
  }

  lemma {:induction false} MapsAgree<T, U>(xs: seq<T>, f: T -> U, g: T -> U)
    requires forall i :: 0 <= i < |xs| ==> f(xs[i]) == g(xs[i])
    ensures Map(xs, f) == Map(xs, g)
  {
    if xs != [] {
      MapsAgree(Front(xs), f, g);
    }
  }

  function Filter<T>(xs: seq<T>, keep: T -> bool): seq<T> {
    if xs == [] then []
    else Filter(Front(xs), keep) + (if keep(Last(xs)) then [Last(xs)] else [])
  }

  lemma {:induction false} FilterKeepsExactly<T>(xs: seq<T>, keep: T -> bool, x: T)
    ensures x in Filter(xs, keep) <==> x in xs && keep(x)
  {
    if xs != [] {
      FilterKeepsExactly(Front(xs), keep, x);
      assert xs == Front(xs) + [Last(xs)];
    }
  }

  lemma {:induction false} FrontAndLast<T>(xs: seq<T>)
    requires xs != []
    ensures xs == Front(xs) + [Last(xs)]
  {
  }

  lemma {:induction false} FilterKeepsAll<T>(xs: seq<T>, keep: T -> bool)
    requires forall x :: x in xs ==> keep(x)
    ensures Filter(xs, keep) == xs
  {
    if xs != [] {
      FrontAndLast(xs);
      FilterKeepsAll(Front(xs), keep);
      assert keep(Last(xs));
    }
  }

  lemma {:induction false} FilterKeepsNone<T>(xs: seq<T>, keep: T -> bool)
    requires forall x :: x in xs ==> !keep(x)
    ensures Filter(xs, keep) == []
  {
    if xs != [] {
      FrontAndLast(xs);
      FilterKeepsNone(Front(xs), keep);
      assert !keep(Last(xs));
    }
  }

  lemma {:induction false} FilterAppend<T>(xs: seq<T>, x: T, keep: T -> bool)
    ensures Filter(xs + [x], keep) == Filter(xs, keep) + (if keep(x) then [x] else [])
  {
    assert Front(xs + [x]) == xs;
  }

  lemma {:induction false} FilterCommutes<T>(xs: seq<T>, p: T -> bool, q: T -> bool)
    ensures Filter(Filter(xs, p), q) == Filter(Filter(xs, q), p)
  {
    if xs != [] {
      var x := Last(xs);
      FilterCommutes(Front(xs), p, q);
      FilterAppend(Filter(Front(xs), p), x, q);
      FilterAppend(Filter(Front(xs), q), x, p);
      assert Filter(xs, p) == if p(x) then Filter(Front(xs), p) + [x] else Filter(Front(xs), p);
      assert Filter(xs, q) == if q(x) then Filter(Front(xs), q) + [x] else Filter(Front(xs), q);
    }
  }

  lemma {:induction false} FilterMap<T, U>(xs: seq<T>, f: T -> U, p: U -> bool, q: T -> bool)
    requires forall x :: x in xs ==> p(f(x)) == q(x)
    ensures Filter(Map(xs, f), p) == Map(Filter(xs, q), f)
  {
    if xs != [] {
      FrontAndLast(xs);
      FilterMap(Front(xs), f, p, q);
      var x := Last(xs);
      assert x in xs;
      FilterAppend(Map(Front(xs), f), f(x), p);
      MapAppend(Filter(Front(xs), q), x, f);
      var before := Map(Filter(Front(xs), q), f);
      assert before + [] == before;
      assert Filter(xs, q) == if q(x) then Filter(Front(xs), q) + [x] else Filter(Front(xs), q);
    }
  }

  lemma {:induction false} FiltersAgree<T>(xs: seq<T>, p: T -> bool, q: T -> bool)
    requires forall x :: x in xs ==> p(x) == q(x)
    ensures Filter(xs, p) == Filter(xs, q)
  {
    if xs != [] {
      FrontAndLast(xs);
      FiltersAgree(Front(xs), p, q);
      assert Last(xs) in xs;
    }
  }

  lemma {:induction false} FilterConcat<T>(xs: seq<T>, ys: seq<T>, keep: T -> bool)
    ensures Filter(xs + ys, keep) == Filter(xs, keep) + Filter(ys, keep)
  {
    if ys == [] {
      assert xs + ys == xs;
    } else {
      FilterConcat(xs, Front(ys), keep);
      assert xs + ys == (xs + Front(ys)) + [Last(ys)];
      FilterAppend(xs + Front(ys), Last(ys), keep);
    }
  }

  function Flatten<T>(xss: seq<seq<T>>): seq<T> {
    if xss == [] then [] else Flatten(Front(xss)) + Last(xss)
  }

  lemma {:induction false} FlattenAppend<T>(xss: seq<seq<T>>, xs: seq<T>)
    ensures Flatten(xss + [xs]) == Flatten(xss) + xs
  {
    assert Front(xss + [xs]) == xss;
  }

  lemma {:induction false} ConcatIsAssociative<T>(xs: seq<T>, ys: seq<T>, zs: seq<T>)
    ensures xs + ys + zs == xs + (ys + zs)
  {
  }

  lemma {:induction false} ConcatEndsWith<T>(xs: seq<T>, ys: seq<T>)
    requires ys != []
    ensures xs + ys == xs + Front(ys) + [Last(ys)]
    ensures Last(xs + ys) == Last(ys)
  {
  }

  lemma {:induction false} FlattenConcat<T>(xss: seq<seq<T>>, yss: seq<seq<T>>)
    ensures Flatten(xss + yss) == Flatten(xss) + Flatten(yss)
  {
    if yss == [] {
      assert xss + yss == xss;
    } else {
      FlattenConcat(xss, Front(yss));
      ConcatEndsWith(xss, yss);
      FlattenAppend(xss + Front(yss), Last(yss));
      ConcatIsAssociative(Flatten(xss), Flatten(Front(yss)), Last(yss));
    }
  }

  lemma {:induction false} FlattenFirst<T>(xs: seq<T>, xss: seq<seq<T>>)
    ensures Flatten([xs] + xss) == xs + Flatten(xss)
  {
    FlattenConcat([xs], xss);
    assert Front([xs]) == [];
    assert Flatten([xs]) == xs;
  }

  /** `xs` can be obtained from `ys` by deleting elements. */
  ghost predicate Subsequence<T>(xs: seq<T>, ys: seq<T>) {
    if xs == [] then true
    else if ys == [] then false
    else
      || (Last(xs) == Last(ys) && Subsequence(Front(xs), Front(ys)))
      || Subsequence(xs, Front(ys))
  }

  lemma {:induction false} SubsequenceOfLonger<T>(xs: seq<T>, ys: seq<T>, zs: seq<T>)
    requires Subsequence(xs, ys)
    ensures Subsequence(xs, ys + zs)
  {
    if zs == [] {
      assert ys + zs == ys;
    } else {
      SubsequenceOfLonger(xs, ys, Front(zs));
      assert Front(ys + zs) == ys + Front(zs);
    }
  }

  lemma {:induction false} SubsequenceWithTail<T>(xs: seq<T>, ys: seq<T>, tail: seq<T>)
    requires Subsequence(xs, ys)
    ensures Subsequence(xs + tail, ys + tail)
  {
    if tail == [] {
      assert xs + tail == xs && ys + tail == ys;
    } else {
      SubsequenceWithTail(xs, ys, Front(tail));
      assert Front(xs + tail) == xs + Front(tail);
      assert Front(ys + tail) == ys + Front(tail);
    }
  }

  lemma {:induction false} SubsequenceIsTransitive<T>(xs: seq<T>, ys: seq<T>, zs: seq<T>)
    requires Subsequence(xs, ys) && Subsequence(ys, zs)
    ensures Subsequence(xs, zs)
    decreases |zs|
  {
    if xs != [] {
      if Subsequence(ys, Front(zs)) {
        SubsequenceIsTransitive(xs, ys, Front(zs));
      } else if Subsequence(xs, Front(ys)) {
        SubsequenceIsTransitive(xs, Front(ys), Front(zs));
      } else {
        SubsequenceIsTransitive(Front(xs), Front(ys), Front(zs));
      }
    }
  }

  /** start, start + step, ... up to `end`. */
  function Range(start: int, end: int, step: int): seq<int>
    requires step > 0
    decreases end - start
  {
    if start > end then [] else [start] + Range(start + step, end, step)
  }

  lemma {:induction false} RangeHolds(start: int, end: int, step: int, w: int)
    requires step > 0 && start % step == 0
    ensures w in Range(start, end, step) <==> start <= w <= end && w % step == 0
    decreases end - start
  {
    if start <= end {
      NextMultiple(start, step);
      RangeHolds(start + step, end, step, w);
      if start < w && w % step == 0 {
        MultiplesAreApart(start, w, step);
      }
    }
  }

  lemma {:induction false} NextMultiple(a: int, step: int)
    requires step > 0 && a % step == 0
    ensures (a + step) % step == 0
  {
    assert a + step == step * (a / step + 1);
    MultipleHasNoRemainder(a / step + 1, step);
  }

  /** `t` is `start` plus a number of steps. */
  predicate Reaches(start: int, t: int, step: int)
    requires step > 0
    decreases t - start
  {
    t == start || (t > start && Reaches(start, t - step, step))
  }

  lemma {:induction false} ReachesFromNext(start: int, t: int, step: int)
    requires step > 0 && Reaches(start, t, step) && start < t
    ensures Reaches(start + step, t, step)
    decreases t - start
  {
    if t - step != start {
      ReachesFromNext(start, t - step, step);
    }
  }

  lemma {:induction false} RangeAppends(start: int, t: int, step: int)
    requires step > 0 && Reaches(start, t, step)
    ensures Range(start, t, step) == Range(start, t - step, step) + [t]
    decreases t - start
  {
    if start < t {
      ReachesFromNext(start, t, step);
      RangeAppends(start + step, t, step);
    } else {
      assert Range(t + step, t, step) == [] == Range(t, t - step, step);
    }
  }

  /** Nothing is reached between one step and the next. */
  lemma {:induction false} RangeStops(start: int, end: int, t: int, step: int)
    requires step > 0 && Reaches(start, t, step) && end < t <= end + step
    ensures Range(start, end, step) == Range(start, t - step, step)
    decreases t - start
  {
    if start < t {
      ReachesFromNext(start, t, step);
      RangeStops(start + step, end, t, step);
    }
  }

  lemma {:induction false} ReachesBack(start: int, t: int, step: int)
    requires step > 0 && Reaches(start + step, t, step)
    ensures Reaches(start, t, step) && start < t
    decreases t - start
  {
    if t != start + step {
      ReachesBack(start, t - step, step);
    }
  }

  lemma {:induction false} ReachesIsMultiple(t: int, step: int)
    requires step > 0
    ensures Reaches(0, t, step) <==> t >= 0 && t % step == 0
    decreases t
  {
    if t > 0 {
      ReachesIsMultiple(t - step, step);
      if t % step == 0 {
        MultiplesAreApart(0, t, step);
      }
      if t >= step {
        assert t - step == step * (t / step - 1) + t % step;
        assert (t - step) % step == t % step by {
          RemainderOfSum(t / step - 1, t % step, step);
        }
      }
    }
  }

  lemma {:induction false} RemainderOfSum(q: int, r: int, step: int)
    requires 0 <= r < step
    ensures (step * q + r) % step == r
  {
    var a := step * q + r;
    assert a == step * (a / step) + a % step;
    if a / step < q {
      Scale(a / step + 1, q, step);
    } else if q < a / step {
      Scale(q + 1, a / step, step);
    }
  }

  lemma {:induction false} RangeEnds(start: int, end: int, step: int)
    requires step > 0
    ensures Range(start, end, step) ==
            if Reaches(start, end, step) then Range(start, end - 1, step) + [end] else Range(start, end - 1, step)
    decreases end - start
  {
    if start < end {
      RangeEnds(start + step, end, step);
      if Reaches(start, end, step) {
        ReachesFromNext(start, end, step);
      } else if Reaches(start + step, end, step) {
        ReachesBack(start, end, step);
      }
    } else if start == end {
      assert Range(start + step, end, step) == [] == Range(start, end - 1, step);
    }
  }
}
