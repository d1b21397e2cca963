/** Filtering rows without a target before building windows, against skipping them inside the
    builder: exactly when the two give the same one-step windows (src/forecasting/windowing.py). */
module FilteredWindows {
  import opened Prelude
  import opened SortedLists
  import opened Windowing
  import opened WindowTheorems
  import opened FilteredTables

  // ---- The windows of one group by their starts ----

  lemma {:induction false} LastStart(members: seq<Placed>, g: Group, length: int, starts: seq<int>)
    requires length >= 1 && starts != [] && StartsFit(starts, |members| - length)
    ensures StartsFit(Front(starts), |members| - length) && 0 <= Last(starts) <= |members| - length
    ensures
      var fewer := WindowsAt(members, g, length, 0, FutureAttack, Front(starts));
      WindowsAt(members, g, length, 0, FutureAttack, starts) ==
        if members[Last(starts) + length - 1].row.available
        then fewer + [WindowAt(members, g, length, 0, FutureAttack, Last(starts))] else fewer
  {
    assert starts[|starts| - 1] == Last(starts);
    assert forall i :: 0 <= i < |Front(starts)| ==> Front(starts)[i] == starts[i];
    var fewer := WindowsAt(members, g, length, 0, FutureAttack, Front(starts));
    assert fewer + [] == fewer;
  }

  /** The window at `s` fits and its last row, which holds its target, is available. */
  function HasTarget(rows: seq<StateRow>, length: int): int -> bool {
    (s: int) => 0 <= s && 1 <= length && s + length <= |rows| && rows[s + length - 1].available
  }

  function FeaturesOf(rows: seq<StateRow>): seq<seq<real>> {
    seq(|rows|, i requires 0 <= i < |rows| => rows[i].features)
  }

  /** What is seen of the window at `s`. */
  function ViewAt(rows: seq<StateRow>, g: Group, length: int): int -> View {
    (s: int) =>
      if 0 <= s && 1 <= length && s + length <= |rows|
      then View(FeaturesOf(rows[s..s + length]), rows[s + length - 1].future, rows[s + length - 1].timestamp, g)
      else View([], 0, 0, g)
  }

  lemma {:induction false} WindowIsView(members: seq<Placed>, rows: seq<StateRow>, g: Group, length: int, s: int)
    requires rows == Map(members, TheRow()) && length >= 1 && 0 <= s && s + length <= |members|
    ensures |rows| == |members|
    ensures Seen()(WindowAt(members, g, length, 0, FutureAttack, s)) == ViewAt(rows, g, length)(s)
    ensures members[s + length - 1].row.available <==> HasTarget(rows, length)(s)
  {
    MapAt(members, TheRow());
    assert Inputs(members, s, length) == FeaturesOf(rows[s..s + length]);
  }

  lemma {:induction false} MapFilterLast<T, U>(xs: seq<T>, keep: T -> bool, f: T -> U)
    requires xs != []
    ensures Map(Filter(xs, keep), f) == Map(Filter(Front(xs), keep), f) + (if keep(Last(xs)) then [f(Last(xs))] else [])
  {
    var kept := Filter(Front(xs), keep);
    if keep(Last(xs)) {
      assert Filter(xs, keep) == kept + [Last(xs)];
      MapAppend(kept, Last(xs), f);
    } else {
      assert Filter(xs, keep) == kept;
    }
  }

  /** The windows of one more start, as they are seen. */
  lemma {:induction false} OneMoreStart(members: seq<Placed>, g: Group, length: int, starts: seq<int>)
    requires length >= 1 && starts != [] && StartsFit(starts, |members| - length)
    ensures StartsFit(Front(starts), |members| - length) && 0 <= Last(starts) <= |members| - length
    ensures
      var s := Last(starts);
      Map(WindowsAt(members, g, length, 0, FutureAttack, starts), Seen())
      == Map(WindowsAt(members, g, length, 0, FutureAttack, Front(starts)), Seen())
         + (if members[s + length - 1].row.available then [Seen()(WindowAt(members, g, length, 0, FutureAttack, s))] else [])
  {
    LastStart(members, g, length, starts);
    MapAppend(WindowsAt(members, g, length, 0, FutureAttack, Front(starts)),
              WindowAt(members, g, length, 0, FutureAttack, Last(starts)), Seen());
  }

  lemma {:induction false} WindowsAreViews(members: seq<Placed>, rows: seq<StateRow>, g: Group, length: int,
                                           starts: seq<int>)
    requires rows == Map(members, TheRow()) && length >= 1 && StartsFit(starts, |members| - length)
    ensures Map(WindowsAt(members, g, length, 0, FutureAttack, starts), Seen())
            == Map(Filter(starts, HasTarget(rows, length)), ViewAt(rows, g, length))
  {
    if starts != [] {
      OneMoreStart(members, g, length, starts);
      WindowsAreViews(members, rows, g, length, Front(starts));
      WindowIsView(members, rows, g, length, Last(starts));
      MapFilterLast(starts, HasTarget(rows, length), ViewAt(rows, g, length));
    }
  }

  /** The starts of the one-step windows of a group. */
  function Starts(rows: seq<StateRow>, length: int, stride: int): seq<int>
    requires stride >= 1
  {
    Filter(Range(0, |rows| - length, stride), HasTarget(rows, length))
  }

  lemma {:induction false} GroupViews(members: seq<Placed>, rows: seq<StateRow>, g: Group, p: Parameters)
    requires Positive(p) && rows == Map(members, TheRow())
    ensures Map(GroupWindows(members, g, p, 0, FutureAttack), Seen())
            == Map(Starts(rows, p.length, p.stride), ViewAt(rows, g, p.length))
  {
    MapAt(members, TheRow());
    RangeFits(0, |members| - p.length, p.stride);
    WindowsAreViews(members, rows, g, p.length, Range(0, |members| - p.length, p.stride));
  }

  lemma {:induction false} StartsHold(rows: seq<StateRow>, length: int, stride: int, s: int)
    requires stride >= 1 && length >= 1
    ensures s in Starts(rows, length, stride) <==> s % stride == 0 && HasTarget(rows, length)(s)
  {
    FilterKeepsExactly(Range(0, |rows| - length, stride), HasTarget(rows, length), s);
    RangeHolds(0, |rows| - length, stride, s);
  }

  lemma {:induction false} RangesShift(a: int, e: int, step: int, i: nat)
    requires step > 0
    ensures |Range(a, a + e, step)| == |Range(0, e, step)|
    ensures i < |Range(0, e, step)| ==> Range(a, a + e, step)[i] == a + Range(0, e, step)[i]
  {
    if e >= 0 {
      RangeCounts(a, a + e, step);
      RangeCounts(0, e, step);
      if i < |Range(0, e, step)| {
        RangeAt(a, a + e, step, i);
        RangeAt(0, e, step, i);
      }
    }
  }

  lemma {:induction false} SliceView(rows: seq<StateRow>, g: Group, length: int, a: nat, b: nat, s: int)
    requires length >= 1 && a <= b <= |rows| && 0 <= s && s + length <= b - a
    ensures ViewAt(rows[a..b], g, length)(s) == ViewAt(rows, g, length)(a + s)
  {
    SliceOfSlice(rows, a, b, s, length);
  }

  lemma {:induction false} SliceOfSlice<T>(xs: seq<T>, a: nat, b: nat, s: nat, length: nat)
    requires a <= b <= |xs| && s + length <= b - a
    ensures xs[a..b][s..s + length] == xs[a + s..a + s + length]
  {
    var inner, outer := xs[a..b][s..s + length], xs[a + s..a + s + length];
    assert forall i :: 0 <= i < length ==> inner[i] == outer[i];
  }

  lemma {:induction false} ShiftedView(rows: seq<StateRow>, g: Group, length: int, stride: int, a: nat, b: nat, i: nat)
    requires stride >= 1 && length >= 1 && a <= b <= |rows| && i < |Range(0, b - a - length, stride)|
    ensures i < |Range(a, b - length, stride)|
    ensures ViewAt(rows[a..b], g, length)(Range(0, b - a - length, stride)[i])
            == ViewAt(rows, g, length)(Range(a, b - length, stride)[i])
  {
    RangesShift(a, b - a - length, stride, i);
    RangeFits(0, b - a - length, stride);
    SliceView(rows, g, length, a, b, Range(0, b - a - length, stride)[i]);
  }

  /** A slice has the views of the whole, at starts that are shifted. */
  lemma {:induction false} SliceViews(rows: seq<StateRow>, g: Group, length: int, stride: int, a: nat, b: nat)
    requires stride >= 1 && length >= 1 && a <= b <= |rows|
    ensures Map(Range(0, b - a - length, stride), ViewAt(rows[a..b], g, length))
            == Map(Range(a, b - length, stride), ViewAt(rows, g, length))
  {
    var here, there := Range(0, b - a - length, stride), Range(a, b - length, stride);
    RangesShift(a, b - a - length, stride, 0);
    forall i | 0 <= i < |here|
      ensures ViewAt(rows[a..b], g, length)(here[i]) == ViewAt(rows, g, length)(there[i])
    {
      ShiftedView(rows, g, length, stride, a, b, i);
    }
    MapsAtSame(here, ViewAt(rows[a..b], g, length), there, ViewAt(rows, g, length));
  }

  lemma {:induction false} MapsAtSame<T, U>(xs: seq<T>, f: T -> U, ys: seq<T>, h: T -> U)
    requires |xs| == |ys| && forall i :: 0 <= i < |xs| ==> f(xs[i]) == h(ys[i])
    ensures Map(xs, f) == Map(ys, h)
  {
    MapAt(xs, f);
    MapAt(ys, h);
  }

  lemma {:induction false} AllStart(rows: seq<StateRow>, length: int, stride: int)
    requires stride >= 1 && length >= 1 && forall i :: 0 <= i < |rows| ==> rows[i].available
    ensures Starts(rows, length, stride) == Range(0, |rows| - length, stride)
  {
    var all := Range(0, |rows| - length, stride);
    RangeFits(0, |rows| - length, stride);
    forall s | s in all
      ensures HasTarget(rows, length)(s)
    {
      var i :| 0 <= i < |all| && all[i] == s;
    }
    FilterKeepsAll(all, HasTarget(rows, length));
  }

  // ---- When a group's windows stay the same ----

  /** The starts that filtering first leaves, as starts in the whole group. */
  function ShiftedStarts(rows: seq<StateRow>, length: int, stride: int): seq<int>
    requires stride >= 1
  {
    Range(Leading(rows), EndOf(rows) - length, stride)
  }

  lemma {:induction false} BlockViews(rows: seq<StateRow>, g: Group, length: int, stride: int, a: nat, b: nat,
                                      kept: seq<StateRow>)
    requires stride >= 1 && length >= 1 && a <= b && AllAvailable(rows, a, b) && kept == rows[a..b]
    ensures Map(Starts(kept, length, stride), ViewAt(kept, g, length))
            == Map(Range(a, b - length, stride), ViewAt(rows, g, length))
  {
    AllStart(kept, length, stride);
    SliceViews(rows, g, length, stride, a, b);
  }

  lemma {:induction false} BlockIsKept(rows: seq<StateRow>)
    requires Block(rows)
    ensures Filtered(rows) == if Leading(rows) <= EndOf(rows) then rows[Leading(rows)..EndOf(rows)] else []
  {
    FilterIsMiddle(rows);
  }

  lemma {:induction false} FilteredViews(rows: seq<StateRow>, g: Group, length: int, stride: int)
    requires stride >= 1 && length >= 1 && Block(rows)
    ensures Map(Starts(Filtered(rows), length, stride), ViewAt(Filtered(rows), g, length))
            == Map(ShiftedStarts(rows, length, stride), ViewAt(rows, g, length))
  {
    BlockIsKept(rows);
    KeptViews(rows, g, length, stride, Leading(rows), EndOf(rows), Filtered(rows));
  }

  lemma {:induction false} KeptViews(rows: seq<StateRow>, g: Group, length: int, stride: int, a: nat, b: nat,
                                     kept: seq<StateRow>)
    requires stride >= 1 && length >= 1 && a <= |rows| && AllAvailable(rows, a, b)
    requires kept == if a <= b then rows[a..b] else []
    ensures Map(Starts(kept, length, stride), ViewAt(kept, g, length))
            == Map(Range(a, b - length, stride), ViewAt(rows, g, length))
  {
    if a <= b {
      BlockViews(rows, g, length, stride, a, b, kept);
    } else {
      NoRowsNoStarts(kept, length, stride);
    }
  }

  lemma {:induction false} NoRowsNoStarts(none: seq<StateRow>, length: int, stride: int)
    requires stride >= 1 && length >= 1 && none == []
    ensures Starts(none, length, stride) == []
  {
    assert Range(0, |none| - length, stride) == [];
  }

  lemma {:induction false} MapsEqualExactly<T, U>(xs: seq<T>, ys: seq<T>, f: T -> U)
    requires forall x, y :: x in xs && y in ys && f(x) == f(y) ==> x == y
    ensures Map(xs, f) == Map(ys, f) <==> xs == ys
  {
    MapAt(xs, f);
    MapAt(ys, f);
    if Map(xs, f) == Map(ys, f) {
      forall i | 0 <= i < |xs|
        ensures xs[i] == ys[i]
      {
        assert Map(xs, f)[i] == Map(ys, f)[i];
      }
    }
  }

  /** Windows of a group with a fixed cadence are told apart by their origins. */
  lemma {:induction false} ViewsAreDistinct(rows: seq<StateRow>, g: Group, length: int, s: int, u: int)
    requires Sorted(rows, Earlier) && length >= 1 && 0 <= s < u <= |rows| - length
    ensures ViewAt(rows, g, length)(s) != ViewAt(rows, g, length)(u)
  {
    assert Earlier(rows[s + length - 1], rows[u + length - 1]);
  }

  lemma {:induction false} ViewsAgreeExactly(rows: seq<StateRow>, g: Group, length: int, stride: int)
    requires stride >= 1 && length >= 1 && Block(rows) && Sorted(rows, Earlier)
    ensures Map(Starts(Filtered(rows), length, stride), ViewAt(Filtered(rows), g, length))
              == Map(Starts(rows, length, stride), ViewAt(rows, g, length))
            <==> ShiftedStarts(rows, length, stride) == Starts(rows, length, stride)
  {
    var shifted, all := ShiftedStarts(rows, length, stride), Starts(rows, length, stride);
    FilteredViews(rows, g, length, stride);
    RangeFits(Leading(rows), EndOf(rows) - length, stride);
    forall s, u | s in shifted && u in all
      ensures ViewAt(rows, g, length)(s) == ViewAt(rows, g, length)(u) ==> s == u
    {
      StartsHold(rows, length, stride, u);
      var i :| 0 <= i < |shifted| && shifted[i] == s;
      if s != u {
        ViewsAreDistinct(rows, g, length, if s < u then s else u, if s < u then u else s);
      }
    }
    MapsEqualExactly(shifted, all, ViewAt(rows, g, length));
  }

  /** With the rows from `a` up to `b` available: if a window fits among them, `a` is a start, and no
      earlier start has its last row among them; if none fits, no start has. */
  predicate StartsKept(a: nat, b: nat, length: int, stride: int)
    requires stride >= 1
  {
    if a + length <= b then a % stride == 0 && (a == 0 || stride >= length)
    else forall s :: Max(0, a - length + 1) <= s <= b - length ==> s % stride != 0
  }

  lemma {:induction false} BlockHasTarget(rows: seq<StateRow>, length: int, s: int)
    requires Block(rows) && length >= 1
    ensures HasTarget(rows, length)(s) <==> Max(0, Leading(rows) - length + 1) <= s <= EndOf(rows) - length
  {
    var last := s + length - 1;
    if 0 <= last < |rows| && rows[last].available {
      InsideIsBetween(rows, last);
    }
  }

  lemma {:induction false} NoneFits(rows: seq<StateRow>, length: int, stride: int)
    requires stride >= 1 && length >= 1 && Block(rows) && Leading(rows) + length > EndOf(rows)
    ensures ShiftedStarts(rows, length, stride) == []
    ensures Starts(rows, length, stride) == [] <==> StartsKept(Leading(rows), EndOf(rows), length, stride)
  {
    var a, b, starts := Leading(rows), EndOf(rows), Starts(rows, length, stride);
    if starts == [] {
      forall s | Max(0, a - length + 1) <= s <= b - length
        ensures s % stride != 0
      {
        StartsHold(rows, length, stride, s);
        BlockHasTarget(rows, length, s);
      }
    } else {
      StartsHold(rows, length, stride, starts[0]);
      BlockHasTarget(rows, length, starts[0]);
    }
  }

  function Ascending(): (int, int) -> bool {
    (x: int, y: int) => x < y
  }

  lemma {:induction false} RangeIsSorted(start: int, end: int, step: int)
    requires step > 0
    ensures Sorted(Range(start, end, step), Ascending())
  {
    var all := Range(start, end, step);
    forall i, j | 0 <= i < j < |all|
      ensures Ascending()(all[i], all[j])
    {
      RangeRises(start, end, step, i, j);
    }
  }

  lemma {:induction false} RangeRises(start: int, end: int, step: int, i: nat, j: nat)
    requires step > 0 && i < j < |Range(start, end, step)|
    ensures Range(start, end, step)[i] < Range(start, end, step)[j]
  {
    RangeAt(start, end, step, i);
    RangeAt(start, end, step, j);
    assert j * step == i * step + (j - i) * step;
    Scale(1, j - i, step);
  }

  /** No multiple of the stride lies in a gap smaller than a stride before one. */
  lemma {:induction false} StartsAreLater(a: nat, s: int, length: int, stride: int)
    requires stride >= length >= 1 && a % stride == 0 && s % stride == 0 && s > a - length
    ensures s >= a
  {
    if s < a {
      MultiplesAreApart(s, a, stride);
    }
  }

  lemma {:induction false} KeptStartsAreSame(rows: seq<StateRow>, length: int, stride: int, s: int)
    requires stride >= 1 && length >= 1 && Block(rows) && Leading(rows) + length <= EndOf(rows)
    requires StartsKept(Leading(rows), EndOf(rows), length, stride)
    ensures s in ShiftedStarts(rows, length, stride) <==> s in Starts(rows, length, stride)
  {
    var a, b := Leading(rows), EndOf(rows);
    StartsHold(rows, length, stride, s);
    BlockHasTarget(rows, length, s);
    RangeHolds(a, b - length, stride, s);
    if a > 0 && s % stride == 0 && s > a - length {
      StartsAreLater(a, s, length, stride);
    }
  }

  lemma {:induction false} KeptStartsAreEqual(rows: seq<StateRow>, length: int, stride: int)
    requires stride >= 1 && length >= 1 && Block(rows) && Leading(rows) + length <= EndOf(rows)
    requires StartsKept(Leading(rows), EndOf(rows), length, stride)
    ensures ShiftedStarts(rows, length, stride) == Starts(rows, length, stride)
  {
    RangeIsSorted(Leading(rows), EndOf(rows) - length, stride);
    RangeIsSorted(0, |rows| - length, stride);
    FilterKeepsSorted(Range(0, |rows| - length, stride), HasTarget(rows, length), Ascending());
    forall s
      ensures s in ShiftedStarts(rows, length, stride) <==> s in Starts(rows, length, stride)
    {
      KeptStartsAreSame(rows, length, stride, s);
    }
    SortedAreEqual(ShiftedStarts(rows, length, stride), Starts(rows, length, stride), Ascending());
  }

  lemma {:induction false} EqualStartsAreKept(rows: seq<StateRow>, length: int, stride: int)
    requires stride >= 1 && length >= 1 && Block(rows) && Leading(rows) + length <= EndOf(rows)
    requires ShiftedStarts(rows, length, stride) == Starts(rows, length, stride)
    ensures StartsKept(Leading(rows), EndOf(rows), length, stride)
  {
    var a, b := Leading(rows), EndOf(rows);
    RangeStarts(a, b - length, stride);
    StartsHold(rows, length, stride, a);
    if a > 0 && stride < length {
      StartsHold(rows, length, stride, a - stride);
      BlockHasTarget(rows, length, a - stride);
      RangeHolds(a, b - length, stride, a - stride);
      StrideBefore(a, stride);
    }
  }

  lemma {:induction false} RangeStarts(start: int, end: int, step: int)
    requires step > 0 && start <= end
    ensures start in Range(start, end, step)
  {
    assert Range(start, end, step)[0] == start;
  }

  lemma {:induction false} StrideBefore(a: nat, stride: int)
    requires stride >= 1 && a % stride == 0 && a > 0
    ensures a >= stride && (a - stride) % stride == 0
  {
    MultiplesAreApart(0, a, stride);
    OneStepLess(a, stride);
    assert a - stride == stride * ((a - stride) / stride) + (a - stride) % stride;
    assert a == stride * (a / stride);
    assert stride * (a / stride - 1) == stride * (a / stride) - stride;
  }

  lemma {:induction false} StartsKeptExactly(rows: seq<StateRow>, length: int, stride: int)
    requires stride >= 1 && length >= 1 && Block(rows)
    ensures ShiftedStarts(rows, length, stride) == Starts(rows, length, stride)
            <==> StartsKept(Leading(rows), EndOf(rows), length, stride)
  {
    if Leading(rows) + length > EndOf(rows) {
      NoneFits(rows, length, stride);
    } else {
      if StartsKept(Leading(rows), EndOf(rows), length, stride) {
        KeptStartsAreEqual(rows, length, stride);
      }
      if ShiftedStarts(rows, length, stride) == Starts(rows, length, stride) {
        EqualStartsAreKept(rows, length, stride);
      }
    }
  }

  // ---- Whole tables ----

  /** The windows of a group, and of several groups, as they are seen. */
  function ViewsOf(rows: seq<Placed>, g: Group, hasSplit: bool, p: Parameters): seq<View>
    requires Positive(p)
  {
    Map(GroupWindows(Members(rows, g, hasSplit), g, p, 0, FutureAttack), Seen())
  }

  function AllViews(rows: seq<Placed>, groups: seq<Group>, hasSplit: bool, p: Parameters): seq<View>
    requires Positive(p)
  {
    Map(AllWindows(rows, groups, hasSplit, p, FutureAttack), Seen())
  }

  lemma {:induction false} AllViewsAppend(rows: seq<Placed>, groups: seq<Group>, hasSplit: bool, p: Parameters)
    requires Positive(p) && groups != []
    ensures AllViews(rows, groups, hasSplit, p) == AllViews(rows, Front(groups), hasSplit, p) + ViewsOf(rows, Last(groups), hasSplit, p)
  {
    MapConcat(AllWindows(rows, Front(groups), hasSplit, p, FutureAttack),
              GroupWindows(Members(rows, Last(groups), hasSplit), Last(groups), p, 0, FutureAttack), Seen());
  }

  ghost predicate OfGroup(views: seq<View>, g: Group) {
    forall i :: 0 <= i < |views| ==> views[i].group == g
  }

  ghost predicate OfGroups(views: seq<View>, groups: seq<Group>) {
    forall i :: 0 <= i < |views| ==> views[i].group in groups
  }

  lemma {:induction false} ViewsAreOfGroup(rows: seq<Placed>, g: Group, hasSplit: bool, p: Parameters)
    requires Positive(p)
    ensures OfGroup(ViewsOf(rows, g, hasSplit, p), g)
  {
    var members := Members(rows, g, hasSplit);
    var own := Map(members, TheRow());
    GroupViews(members, own, g, p);
    MapAt(Starts(own, p.length, p.stride), ViewAt(own, g, p.length));
  }

  lemma {:induction false} AllViewsAreOfGroups(rows: seq<Placed>, groups: seq<Group>, hasSplit: bool, p: Parameters)
    requires Positive(p)
    ensures OfGroups(AllViews(rows, groups, hasSplit, p), groups)
  {
    if groups != [] {
      AllViewsAreOfGroups(rows, Front(groups), hasSplit, p);
      ViewsAreOfGroup(rows, Last(groups), hasSplit, p);
      AllViewsAppend(rows, groups, hasSplit, p);
      FrontAndLast(groups);
    }
  }

  lemma {:induction false} ShorterDiffers(xs: seq<View>, ys: seq<View>, us: seq<View>, vs: seq<View>,
                                          groups: seq<Group>, g: Group)
    requires OfGroups(us, groups) && OfGroup(ys, g) && g !in groups
    requires |xs| < |us| && |xs| + |ys| == |us| + |vs|
    ensures xs + ys != us + vs
  {
    assert (xs + ys)[|xs|] == ys[0] && (us + vs)[|xs|] == us[|xs|];
  }

  /** The views of a group are told apart from those of the groups before it. */
  lemma {:induction false} PartsAgreeExactly(xs: seq<View>, ys: seq<View>, us: seq<View>, vs: seq<View>,
                                             groups: seq<Group>, g: Group)
    requires OfGroups(xs, groups) && OfGroups(us, groups) && OfGroup(ys, g) && OfGroup(vs, g) && g !in groups
    ensures xs + ys == us + vs <==> xs == us && ys == vs
  {
    if |xs| + |ys| != |us| + |vs| {
      assert |xs + ys| != |us + vs|;
    } else if |xs| < |us| {
      ShorterDiffers(xs, ys, us, vs, groups, g);
    } else if |us| < |xs| {
      ShorterDiffers(us, vs, xs, ys, groups, g);
    } else {
      assert (xs + ys)[..|xs|] == xs && (us + vs)[..|us|] == us;
      assert (xs + ys)[|xs|..] == ys && (us + vs)[|us|..] == vs;
    }
  }

  /** Filtering first keeps the windows of the group. */
  predicate KeepsWindows(table: seq<StateRow>, g: Group, hasSplit: bool, p: Parameters)
    requires Positive(p)
  {
    var rows := GroupRows(table, g, hasSplit);
    StartsKept(Leading(rows), EndOf(rows), p.length, p.stride)
  }

  lemma {:induction false} GroupKeepsExactly(table: seq<StateRow>, g: Group, hasSplit: bool, p: Parameters, interval: int)
    requires Positive(p) && interval > 0 && Regular(Members(Place(table), g, hasSplit), interval)
    requires Together(GroupRows(table, g, hasSplit))
    ensures ViewsOf(Place(Filtered(table)), g, hasSplit, p) == ViewsOf(Place(table), g, hasSplit, p)
            <==> KeepsWindows(table, g, hasSplit, p)
  {
    var rows := GroupRows(table, g, hasSplit);
    FilteredGroupRows(table, g, hasSplit);
    CadenceOfMembers(Members(Place(table), g, hasSplit), interval);
    CadenceIsSorted(rows, interval);
    TogetherIsBlock(rows);
    GroupViews(Members(Place(table), g, hasSplit), rows, g, p);
    GroupViews(Members(Place(Filtered(table)), g, hasSplit), Filtered(rows), g, p);
    ViewsAgreeExactly(rows, g, p.length, p.stride);
    StartsKeptExactly(rows, p.length, p.stride);
  }

  ghost predicate AllKeepWindows(table: seq<StateRow>, groups: seq<Group>, hasSplit: bool, p: Parameters)
    requires Positive(p)
  {
    forall i :: 0 <= i < |groups| ==> KeepsWindows(table, groups[i], hasSplit, p)
  }

  lemma {:induction false} AllKeepAppend(table: seq<StateRow>, groups: seq<Group>, hasSplit: bool, p: Parameters)
    requires Positive(p) && groups != []
    ensures AllKeepWindows(table, groups, hasSplit, p) <==>
            AllKeepWindows(table, Front(groups), hasSplit, p) && KeepsWindows(table, Last(groups), hasSplit, p)
  {
    FrontAndLast(groups);
    assert groups[|groups| - 1] == Last(groups);
    assert forall i :: 0 <= i < |groups| - 1 ==> groups[i] == Front(groups)[i];
  }

  lemma {:induction false} GroupsKeepExactly(table: seq<StateRow>, groups: seq<Group>, hasSplit: bool, p: Parameters,
                                             interval: int)
    requires Positive(p) && interval > 0 && Sorted(groups, GroupBefore)
    requires AllRegular(Place(table), groups, hasSplit, interval)
    requires forall i :: 0 <= i < |groups| ==> Together(GroupRows(table, groups[i], hasSplit))
    ensures AllViews(Place(Filtered(table)), groups, hasSplit, p) == AllViews(Place(table), groups, hasSplit, p)
            <==> AllKeepWindows(table, groups, hasSplit, p)
  {
    if groups != [] {
      var rows, filtered, fewer, g := Place(table), Place(Filtered(table)), Front(groups), Last(groups);
      assert groups[|groups| - 1] == g;
      assert forall i :: 0 <= i < |fewer| ==> fewer[i] == groups[i];
      GroupsKeepExactly(table, fewer, hasSplit, p, interval);
      GroupKeepsExactly(table, g, hasSplit, p, interval);
      AllKeepAppend(table, groups, hasSplit, p);
      LastGroupIsNew(groups);
      ViewsAppendExactly(filtered, rows, groups, hasSplit, p);
    }
  }

  lemma {:induction false} LastGroupIsNew(groups: seq<Group>)
    requires Sorted(groups, GroupBefore) && groups != []
    ensures Last(groups) !in Front(groups)
  {
    GroupOrderIsTotal();
    FrontHasNoLast(groups, GroupBefore, Last(groups));
  }

  lemma {:induction false} ViewsAppendExactly(filtered: seq<Placed>, rows: seq<Placed>, groups: seq<Group>,
                                              hasSplit: bool, p: Parameters)
    requires Positive(p) && groups != [] && Last(groups) !in Front(groups)
    ensures AllViews(filtered, groups, hasSplit, p) == AllViews(rows, groups, hasSplit, p) <==>
            && AllViews(filtered, Front(groups), hasSplit, p) == AllViews(rows, Front(groups), hasSplit, p)
            && ViewsOf(filtered, Last(groups), hasSplit, p) == ViewsOf(rows, Last(groups), hasSplit, p)
  {
    var fewer, g := Front(groups), Last(groups);
    AllViewsAppend(filtered, groups, hasSplit, p);
    AllViewsAppend(rows, groups, hasSplit, p);
    AllViewsAreOfGroups(filtered, fewer, hasSplit, p);
    AllViewsAreOfGroups(rows, fewer, hasSplit, p);
    ViewsAreOfGroup(filtered, g, hasSplit, p);
    ViewsAreOfGroup(rows, g, hasSplit, p);
    PartsAgreeExactly(AllViews(filtered, fewer, hasSplit, p), ViewsOf(filtered, g, hasSplit, p),
                      AllViews(rows, fewer, hasSplit, p), ViewsOf(rows, g, hasSplit, p), fewer, g);
  }

  lemma {:induction false} FilteredViewsAre(table: seq<StateRow>, hasSplit: bool, p: Parameters)
    requires Positive(p)
    ensures AllViews(Place(Filtered(table)), GroupsOf(Place(Filtered(table)), hasSplit), hasSplit, p)
            == AllViews(Place(Filtered(table)), GroupsOf(Place(table), hasSplit), hasSplit, p)
  {
    FilteredGroups(table, hasSplit);
    EmptyGroupsAddNothing(Place(Filtered(table)), GroupsOf(Place(table), hasSplit), hasSplit, p);
  }

  /** The windows of an accepted table, also of an empty one. */
  lemma {:induction false} AcceptedViews(table: seq<StateRow>, hasSplit: bool, p: Parameters)
    requires p.horizon == 1 && BuildSequences(table, hasSplit, FutureAttack, p).Ok?
    ensures Map(BuildSequences(table, hasSplit, FutureAttack, p).value, Seen())
            == AllViews(Place(table), GroupsOf(Place(table), hasSplit), hasSplit, p)
  {
    assert table == [] ==> GroupsOf(Place(table), hasSplit) == [];
  }

  lemma {:induction false} TogetherAgreesExactly(table: seq<StateRow>, hasSplit: bool, p: Parameters)
    requires p.horizon == 1 && BuildSequences(table, hasSplit, FutureAttack, p).Ok?
    requires AllTogether(table, hasSplit)
    ensures AllViews(Place(Filtered(table)), GroupsOf(Place(Filtered(table)), hasSplit), hasSplit, p)
              == AllViews(Place(table), GroupsOf(Place(table), hasSplit), hasSplit, p)
            <==> AllKeepWindows(table, GroupsOf(Place(table), hasSplit), hasSplit, p)
  {
    var groups, interval := GroupsOf(Place(table), hasSplit), p.intervalSeconds * SECOND;
    GroupOrderIsTotal();
    KeysAreSorted(Place(table), RowGroup(hasSplit), GroupBefore);
    forall i | 0 <= i < |groups|
      ensures Regular(Members(Place(table), groups[i], hasSplit), interval)
      ensures Together(GroupRows(table, groups[i], hasSplit))
    {
      assert groups[i] in groups;
      AcceptedGroupsAreRegular(Place(table), hasSplit, interval, groups[i]);
    }
    GroupsKeepExactly(table, groups, hasSplit, p, interval);
    FilteredViewsAre(table, hasSplit, p);
  }

  /** On every accepted table, filtering first is accepted and gives the same one-step windows, in
      the same order, exactly if in no group an unavailable row lies between two available ones,
      and in each group dropping the leading unavailable rows keeps the starts. */
  lemma {:induction false} FilteringFirstAgreesExactly(table: seq<StateRow>, hasSplit: bool, p: Parameters)
    requires p.horizon == 1 && BuildSequences(table, hasSplit, FutureAttack, p).Ok?
    ensures
      var inside, first := BuildSequences(table, hasSplit, FutureAttack, p), BuildSequences(Filtered(table), hasSplit, FutureAttack, p);
      (first.Ok? && Map(first.value, Seen()) == Map(inside.value, Seen())) <==>
      (AllTogether(table, hasSplit) && AllKeepWindows(table, GroupsOf(Place(table), hasSplit), hasSplit, p))
  {
    FilteredIsAcceptedExactly(table, hasSplit, p);
    AcceptedViews(table, hasSplit, p);
    if AllTogether(table, hasSplit) {
      AcceptedViews(Filtered(table), hasSplit, p);
      TogetherAgreesExactly(table, hasSplit, p);
    }
  }

  /** With a stride of one, a leading unavailable row before a fitting window makes a difference. */
  lemma {:induction false} LeadingRowMatters(table: seq<StateRow>, hasSplit: bool, p: Parameters, g: Group)
    requires p.horizon == 1 && p.stride == 1 && p.length >= 2 && BuildSequences(table, hasSplit, FutureAttack, p).Ok?
    requires g in GroupsOf(Place(table), hasSplit)
    requires
      var rows := GroupRows(table, g, hasSplit);
      rows != [] && !rows[0].available && Leading(rows) + p.length <= EndOf(rows)
    ensures
      var inside, first := BuildSequences(table, hasSplit, FutureAttack, p), BuildSequences(Filtered(table), hasSplit, FutureAttack, p);
      !(first.Ok? && Map(first.value, Seen()) == Map(inside.value, Seen()))
  {
    FilteringFirstAgreesExactly(table, hasSplit, p);
    var i :| 0 <= i < |GroupsOf(Place(table), hasSplit)| && GroupsOf(Place(table), hasSplit)[i] == g;
    assert !KeepsWindows(table, g, hasSplit, p);
  }

  /** Every row of the group but the last has a target. */
  ghost predicate OnlyLastUnavailable(members: seq<Placed>) {
    forall i :: 0 <= i < |members| - 1 ==> members[i].row.available
  }

  ghost predicate OnlyLastsUnavailable(table: seq<StateRow>, groups: seq<Group>, hasSplit: bool) {
    forall i :: 0 <= i < |groups| ==> OnlyLastUnavailable(Members(Place(table), groups[i], hasSplit))
  }

  lemma {:induction false} RowsButLast(rows: seq<StateRow>, length: int, stride: int)
    requires length >= 1 && stride >= 1 && forall i :: 0 <= i < |rows| - 1 ==> rows[i].available
    ensures Together(rows) && StartsKept(Leading(rows), EndOf(rows), length, stride)
  {
    if rows != [] && !rows[0].available {
      assert |rows| == 1 && EndOf(rows) == 0;
    }
  }

  lemma {:induction false} OnlyLastKeepsWindows(table: seq<StateRow>, g: Group, hasSplit: bool, p: Parameters)
    requires Positive(p) && OnlyLastUnavailable(Members(Place(table), g, hasSplit))
    ensures Together(GroupRows(table, g, hasSplit)) && KeepsWindows(table, g, hasSplit, p)
  {
    FilteredGroupRows(table, g, hasSplit);
    MapAt(Members(Place(table), g, hasSplit), TheRow());
    RowsButLast(GroupRows(table, g, hasSplit), p.length, p.stride);
  }

  /** In particular when in each group every row but the last is available. */
  lemma {:induction false} FilteringFirstAgrees(table: seq<StateRow>, hasSplit: bool, p: Parameters)
    requires p.horizon == 1
    requires BuildSequences(table, hasSplit, FutureAttack, p).Ok?
    requires OnlyLastsUnavailable(table, GroupsOf(Place(table), hasSplit), hasSplit)
    ensures
      var filtered := BuildSequences(Filter(table, IsAvailable()), hasSplit, FutureAttack, p);
      && filtered.Ok?
      && Map(filtered.value, Seen()) == Map(BuildSequences(table, hasSplit, FutureAttack, p).value, Seen())
  {
    var groups := GroupsOf(Place(table), hasSplit);
    forall i | 0 <= i < |groups|
      ensures Together(GroupRows(table, groups[i], hasSplit)) && KeepsWindows(table, groups[i], hasSplit, p)
    {
      OnlyLastKeepsWindows(table, groups[i], hasSplit, p);
    }
    FilteringFirstAgreesExactly(table, hasSplit, p);
  }
}
