/** What the window builders promise: exactly the windows that fit, targets spaced by the interval,
    and agreement of the one-step and the multi-step builder. */
module WindowTheorems {
  import opened Prelude
  import opened SortedLists
  import opened Windowing

  // ---- Rows and groups ----

  lemma {:induction false} PlacedHold(rows: seq<StateRow>)
    ensures |Place(rows)| == |rows|
    ensures forall i :: 0 <= i < |rows| ==> Place(rows)[i] == Placed(rows[i], i)
  {
    if rows != [] {
      PlacedHold(Front(rows));
    }
  }

  ghost predicate HasGroup(rows: seq<Placed>, g: Group, hasSplit: bool) {
    exists i :: 0 <= i < |rows| && GroupOf(rows[i].row, hasSplit) == g
  }

  lemma {:induction false} GroupsHold(rows: seq<Placed>, hasSplit: bool, g: Group)
    ensures g in GroupsOf(rows, hasSplit) <==> HasGroup(rows, g, hasSplit)
    ensures g in Appearing(rows, hasSplit) <==> HasGroup(rows, g, hasSplit)
  {
    KeysHold(rows, RowGroup(hasSplit), GroupBefore, g);
    if rows != [] {
      GroupsHold(Front(rows), hasSplit, g);
      HasGroupAppend(rows, g, hasSplit);
    }
  }

  lemma {:induction false} HasGroupAppend(rows: seq<Placed>, g: Group, hasSplit: bool)
    requires rows != []
    ensures HasGroup(rows, g, hasSplit) <==> HasGroup(Front(rows), g, hasSplit) || GroupOf(Last(rows).row, hasSplit) == g
  {
    var shorter := Front(rows);
    if HasGroup(shorter, g, hasSplit) {
      var i :| 0 <= i < |shorter| && GroupOf(shorter[i].row, hasSplit) == g;
      assert rows[i] == shorter[i];
    }
    if HasGroup(rows, g, hasSplit) {
      var i :| 0 <= i < |rows| && GroupOf(rows[i].row, hasSplit) == g;
      assert i < |shorter| ==> shorter[i] == rows[i];
    }
    assert rows[|rows| - 1] == Last(rows);
  }

  lemma {:induction false} MembersHold(rows: seq<Placed>, g: Group, hasSplit: bool)
    ensures forall i :: 0 <= i < |Members(rows, g, hasSplit)| ==>
              Members(rows, g, hasSplit)[i] in rows && GroupOf(Members(rows, g, hasSplit)[i].row, hasSplit) == g
    ensures !HasGroup(rows, g, hasSplit) ==> Members(rows, g, hasSplit) == []
  {
    var members := Members(rows, g, hasSplit);
    forall i | 0 <= i < |members|
      ensures members[i] in rows && GroupOf(members[i].row, hasSplit) == g
    {
      FilterKeepsExactly(rows, InGroup(g, hasSplit), members[i]);
    }
    if members != [] {
      assert members[0] in rows;
      var j :| 0 <= j < |rows| && rows[j] == members[0];
      assert HasGroup(rows, g, hasSplit);
    }
  }

  // ---- Cadence ----

  lemma {:induction false} CheckedGroupsAreRegular(rows: seq<Placed>, groups: seq<Group>, hasSplit: bool,
                                                   interval: int, g: Group)
    requires GroupsError(rows, groups, hasSplit, interval) == None && g in groups
    ensures Increasing(Members(rows, g, hasSplit)) && Regular(Members(rows, g, hasSplit), interval)
    decreases |groups|
  {
    if g != groups[0] {
      assert groups == [groups[0]] + groups[1..];
      CheckedGroupsAreRegular(rows, groups[1..], hasSplit, interval, g);
    }
  }

  /** In an accepted table every group runs at the fixed cadence. */
  lemma {:induction false} AcceptedGroupsAreRegular(rows: seq<Placed>, hasSplit: bool, interval: int, g: Group)
    requires CadenceError(rows, hasSplit, interval) == None
    ensures Regular(Members(rows, g, hasSplit), interval)
  {
    GroupsHold(rows, hasSplit, g);
    MembersHold(rows, g, hasSplit);
    if HasGroup(rows, g, hasSplit) {
      CheckedGroupsAreRegular(rows, Appearing(rows, hasSplit), hasSplit, interval, g);
    }
  }

  lemma {:induction false} RegularGroupsPass(rows: seq<Placed>, groups: seq<Group>, hasSplit: bool, interval: int)
    requires interval > 0
    requires forall i :: 0 <= i < |groups| ==> Regular(Members(rows, groups[i], hasSplit), interval)
    ensures GroupsError(rows, groups, hasSplit, interval) == None
    decreases |groups|
  {
    if groups != [] {
      assert forall i :: 0 <= i < |groups[1..]| ==> groups[1..][i] == groups[i + 1];
      RegularGroupsPass(rows, groups[1..], hasSplit, interval);
    }
  }

  lemma {:induction false} RegularTimes(members: seq<Placed>, interval: int, i: nat, k: nat)
    requires Regular(members, interval) && i + k < |members|
    ensures members[i + k].row.timestamp == members[i].row.timestamp + k * interval
  {
    if k > 0 {
      RegularTimes(members, interval, i, k - 1);
      assert members[i + k - 1 + 1].row.timestamp == members[i + k - 1].row.timestamp + interval;
      assert k * interval == (k - 1) * interval + interval;
    }
  }

  // ---- Exactly the windows that fit ----

  lemma {:induction false} MultiWindowsHold(members: seq<Placed>, g: Group, length: int, horizon: int, starts: seq<int>,
                                            w: MultiWindow)
    requires length >= 1 && horizon >= 1 && StartsFit(starts, |members| - length - horizon)
    ensures w in MultiWindowsAt(members, g, length, horizon, starts) <==>
            exists i :: 0 <= i < |starts| && w == MultiAt(members, g, length, horizon, starts[i])
  {
    if starts != [] {
      var fewer := Front(starts);
      MultiWindowsHold(members, g, length, horizon, fewer, w);
      assert forall i :: 0 <= i < |fewer| ==> fewer[i] == starts[i];
      assert starts[|starts| - 1] == Last(starts);
    }
  }

  ghost predicate Fits(members: seq<Placed>, p: Parameters, start: int)
    requires Positive(p)
  {
    0 <= start && start % p.stride == 0 && start + p.length + p.horizon <= |members|
  }

  lemma {:induction false} GroupWindowsAreExact(members: seq<Placed>, g: Group, p: Parameters, w: MultiWindow)
    requires Positive(p)
    ensures w in GroupMultiWindows(members, g, p) <==>
            exists start :: Fits(members, p, start) && w == MultiAt(members, g, p.length, p.horizon, start)
  {
    var last := |members| - p.length - p.horizon;
    var starts := Range(0, last, p.stride);
    RangeFits(0, last, p.stride);
    MultiWindowsHold(members, g, p.length, p.horizon, starts, w);
    if exists i :: 0 <= i < |starts| && w == MultiAt(members, g, p.length, p.horizon, starts[i]) {
      var i :| 0 <= i < |starts| && w == MultiAt(members, g, p.length, p.horizon, starts[i]);
      RangeHolds(0, last, p.stride, starts[i]);
      assert Fits(members, p, starts[i]);
    }
    if exists start :: Fits(members, p, start) && w == MultiAt(members, g, p.length, p.horizon, start) {
      var start :| Fits(members, p, start) && w == MultiAt(members, g, p.length, p.horizon, start);
      RangeHolds(0, last, p.stride, start);
    }
  }

  lemma {:induction false} AllMultiWindowsHold(rows: seq<Placed>, groups: seq<Group>, hasSplit: bool, p: Parameters,
                                               w: MultiWindow)
    requires Positive(p)
    ensures w in AllMultiWindows(rows, groups, hasSplit, p) <==>
            exists g :: g in groups && w in GroupMultiWindows(Members(rows, g, hasSplit), g, p)
  {
    if groups != [] {
      FrontAndLast(groups);
      AllMultiWindowsHold(rows, Front(groups), hasSplit, p, w);
    }
  }

  /** The window of group `g` that starts at its row `start`. */
  ghost predicate IsWindow(table: seq<StateRow>, hasSplit: bool, p: Parameters, g: Group, start: int, w: MultiWindow)
    requires Positive(p)
  {
    var members := Members(Place(table), g, hasSplit);
    Fits(members, p, start) && w == MultiAt(members, g, p.length, p.horizon, start)
  }

  lemma {:induction false} AcceptedWindowsAre(table: seq<StateRow>, hasSplit: bool, p: Parameters)
    requires BuildMultistepSequences(table, hasSplit, CurrentAttack, p).Ok?
    ensures
      var rows := Place(table);
      BuildMultistepSequences(table, hasSplit, CurrentAttack, p).value == AllMultiWindows(rows, GroupsOf(rows, hasSplit), hasSplit, p)
  {
  }

  lemma {:induction false} WindowHasStart(table: seq<StateRow>, hasSplit: bool, p: Parameters, w: MultiWindow)
    returns (g: Group, start: int)
    requires Positive(p) && w in AllMultiWindows(Place(table), GroupsOf(Place(table), hasSplit), hasSplit, p)
    ensures IsWindow(table, hasSplit, p, g, start, w)
  {
    var rows := Place(table);
    AllMultiWindowsHold(rows, GroupsOf(rows, hasSplit), hasSplit, p, w);
    g :| g in GroupsOf(rows, hasSplit) && w in GroupMultiWindows(Members(rows, g, hasSplit), g, p);
    var members := Members(rows, g, hasSplit);
    GroupWindowsAreExact(members, g, p, w);
    start :| Fits(members, p, start) && w == MultiAt(members, g, p.length, p.horizon, start);
  }

  lemma {:induction false} StartHasWindow(table: seq<StateRow>, hasSplit: bool, p: Parameters, g: Group, start: int,
                                          w: MultiWindow)
    requires Positive(p) && IsWindow(table, hasSplit, p, g, start, w)
    ensures w in AllMultiWindows(Place(table), GroupsOf(Place(table), hasSplit), hasSplit, p)
  {
    var rows := Place(table);
    GroupWindowsAreExact(Members(rows, g, hasSplit), g, p, w);
    MembersHold(rows, g, hasSplit);
    GroupsHold(rows, hasSplit, g);
    AllMultiWindowsHold(rows, GroupsOf(rows, hasSplit), hasSplit, p, w);
  }

  /** The multi-step builder yields exactly the windows that start at 0, stride, 2 * stride, ...
      of a group and fit, with their targets, into that group. */
  lemma {:induction false} MultiStepWindowsAreExact(table: seq<StateRow>, hasSplit: bool, p: Parameters, w: MultiWindow)
    requires BuildMultistepSequences(table, hasSplit, CurrentAttack, p).Ok?
    ensures w in BuildMultistepSequences(table, hasSplit, CurrentAttack, p).value <==>
            exists g, start :: IsWindow(table, hasSplit, p, g, start, w)
  {
    AcceptedWindowsAre(table, hasSplit, p);
    if w in BuildMultistepSequences(table, hasSplit, CurrentAttack, p).value {
      var g, start := WindowHasStart(table, hasSplit, p, w);
    }
    if g, start :| IsWindow(table, hasSplit, p, g, start, w) {
      StartHasWindow(table, hasSplit, p, g, start, w);
    }
  }

  // ---- In order, and each once ----

  lemma {:induction false} GroupOrderIsTotal()
    ensures StrictTotal(GroupBefore)
  {
    forall a: Group, b: Group
      ensures !GroupBefore(a, a)
      ensures a != b ==> (GroupBefore(a, b) <==> !GroupBefore(b, a))
    {
      BeforeIsTotal(a.split, b.split);
      BeforeIsTotal(a.split, a.split);
    }
    forall a: Group, b: Group, c: Group | GroupBefore(a, b) && GroupBefore(b, c)
      ensures GroupBefore(a, c)
    {
      if Before(a.split, b.split) && Before(b.split, c.split) {
        BeforeIsTransitive(a.split, b.split, c.split);
      }
    }
  }

  /** How many windows a group of `size` rows has. */
  function WindowCount(size: int, p: Parameters): nat
    requires Positive(p)
  {
    if size < p.length + p.horizon then 0 else (size - p.length - p.horizon) / p.stride + 1
  }

  lemma {:induction false} OneStepLess(x: int, step: int)
    requires step > 0
    ensures (x - step) / step == x / step - 1
  {
    assert x - step == step * (x / step - 1) + x % step;
    RemainderOfSum(x / step - 1, x % step, step);
    assert x - step == step * ((x - step) / step) + (x - step) % step;
    SameProduct((x - step) / step, x / step - 1, step);
  }

  lemma {:induction false} SameProduct(a: int, b: int, step: int)
    requires step > 0 && step * a == step * b
    ensures a == b
  {
    if a < b {
      Scale(a + 1, b, step);
    } else if b < a {
      Scale(b + 1, a, step);
    }
  }

  lemma {:induction false} RangeCounts(start: int, end: int, step: int)
    requires step > 0 && start <= end
    ensures |Range(start, end, step)| == (end - start) / step + 1
    decreases end - start
  {
    if start + step <= end {
      RangeCounts(start + step, end, step);
      OneStepLess(end - start, step);
    }
  }

  lemma {:induction false} RangeAt(start: int, end: int, step: int, i: nat)
    requires step > 0 && i < |Range(start, end, step)|
    ensures Range(start, end, step)[i] == start + i * step
    decreases i
  {
    if i > 0 {
      RangeAt(start + step, end, step, i - 1);
      assert i * step == (i - 1) * step + step;
    }
  }

  lemma {:induction false} MultiWindowsInOrder(members: seq<Placed>, g: Group, length: int, horizon: int,
                                               starts: seq<int>, i: nat)
    requires length >= 1 && horizon >= 1 && StartsFit(starts, |members| - length - horizon)
    ensures |MultiWindowsAt(members, g, length, horizon, starts)| == |starts|
    ensures i < |starts| ==>
              MultiWindowsAt(members, g, length, horizon, starts)[i] == MultiAt(members, g, length, horizon, starts[i])
  {
    if starts != [] {
      assert starts[|starts| - 1] == Last(starts);
      MultiWindowsInOrder(members, g, length, horizon, Front(starts), i);
    }
  }

  /** A group has one window for each of the starts 0, stride, 2 * stride, ... that fit, in that order. */
  lemma {:induction false} GroupWindowsInOrder(members: seq<Placed>, g: Group, p: Parameters, i: nat)
    requires Positive(p)
    ensures |GroupMultiWindows(members, g, p)| == WindowCount(|members|, p)
    ensures i < WindowCount(|members|, p) ==>
              && Fits(members, p, i * p.stride)
              && GroupMultiWindows(members, g, p)[i] == MultiAt(members, g, p.length, p.horizon, i * p.stride)
  {
    var last := |members| - p.length - p.horizon;
    var starts := Range(0, last, p.stride);
    RangeFits(0, last, p.stride);
    MultiWindowsInOrder(members, g, p.length, p.horizon, starts, i);
    if last >= 0 {
      RangeCounts(0, last, p.stride);
      if i < |starts| {
        RangeAt(0, last, p.stride, i);
        RangeHolds(0, last, p.stride, starts[i]);
      }
    }
  }

  /** How many windows the groups have together. */
  function WindowsIn(rows: seq<Placed>, groups: seq<Group>, hasSplit: bool, p: Parameters): nat
    requires Positive(p)
  {
    if groups == [] then 0
    else WindowsIn(rows, Front(groups), hasSplit, p) + WindowCount(|Members(rows, Last(groups), hasSplit)|, p)
  }

  lemma {:induction false} AllWindowsInOrder(rows: seq<Placed>, groups: seq<Group>, hasSplit: bool, p: Parameters,
                                             j: nat, i: nat)
    requires Positive(p)
    ensures |AllMultiWindows(rows, groups, hasSplit, p)| == WindowsIn(rows, groups, hasSplit, p)
    ensures j < |groups| && i < WindowCount(|Members(rows, groups[j], hasSplit)|, p) ==>
              && Fits(Members(rows, groups[j], hasSplit), p, i * p.stride)
              && WindowsIn(rows, groups[..j], hasSplit, p) + i < WindowsIn(rows, groups, hasSplit, p)
              && AllMultiWindows(rows, groups, hasSplit, p)[WindowsIn(rows, groups[..j], hasSplit, p) + i]
                 == MultiAt(Members(rows, groups[j], hasSplit), groups[j], p.length, p.horizon, i * p.stride)
  {
    if groups != [] {
      var fewer, g := Front(groups), Last(groups);
      AllWindowsInOrder(rows, fewer, hasSplit, p, j, i);
      GroupWindowsInOrder(Members(rows, g, hasSplit), g, p, i);
      if j < |fewer| {
        assert groups[..j] == fewer[..j] && groups[j] == fewer[j];
      } else if j == |fewer| {
        assert groups[..j] == fewer && groups[j] == g;
      }
    }
  }

  ghost predicate WindowsInGroupOrder(table: seq<StateRow>, hasSplit: bool, p: Parameters, windows: seq<MultiWindow>, j: nat, i: nat)
    requires Positive(p)
  {
    var rows := Place(table);
    var groups := GroupsOf(rows, hasSplit);
    && Sorted(groups, GroupBefore) && |windows| == WindowsIn(rows, groups, hasSplit, p)
    && (j < |groups| && i < WindowCount(|Members(rows, groups[j], hasSplit)|, p) ==>
          && WindowsIn(rows, groups[..j], hasSplit, p) + i < |windows|
          && IsWindow(table, hasSplit, p, groups[j], i * p.stride, windows[WindowsIn(rows, groups[..j], hasSplit, p) + i]))
  }

  lemma {:induction false} AllWindowsInGroupOrder(table: seq<StateRow>, hasSplit: bool, p: Parameters, j: nat, i: nat)
    requires Positive(p)
    ensures WindowsInGroupOrder(table, hasSplit, p, AllMultiWindows(Place(table), GroupsOf(Place(table), hasSplit), hasSplit, p), j, i)
  {
    var rows := Place(table);
    GroupOrderIsTotal();
    KeysAreSorted(rows, RowGroup(hasSplit), GroupBefore);
    AllWindowsInOrder(rows, GroupsOf(rows, hasSplit), hasSplit, p, j, i);
  }

  /** The multi-step builder returns the windows group by group, in the sorted order of the groups,
      and within a group by their start, each once. */
  lemma {:induction false} MultiStepWindowsAreOrdered(table: seq<StateRow>, hasSplit: bool, p: Parameters, j: nat, i: nat)
    requires BuildMultistepSequences(table, hasSplit, CurrentAttack, p).Ok?
    ensures WindowsInGroupOrder(table, hasSplit, p, BuildMultistepSequences(table, hasSplit, CurrentAttack, p).value, j, i)
  {
    AcceptedWindowsAre(table, hasSplit, p);
    AllWindowsInGroupOrder(table, hasSplit, p, j, i);
  }

  /** The j-th target (from 0) of a window is a row of its group, j + 1 intervals after the origin. */
  ghost predicate TargetInGroup(table: seq<StateRow>, hasSplit: bool, g: Group, w: MultiWindow, j: nat, interval: int)
    requires j < |w.targets| == |w.targetTimes| == |w.targetPositions|
  {
    var position := w.targetPositions[j];
    && 0 <= position < |table| && GroupOf(table[position], hasSplit) == g
    && w.targets[j] == table[position].attack
    && w.targetTimes[j] == table[position].timestamp
    && w.targetTimes[j] == w.origin + (j + 1) * interval
  }

  lemma {:induction false} TargetIsInGroup(table: seq<StateRow>, hasSplit: bool, p: Parameters, g: Group, start: int,
                                           w: MultiWindow, j: nat, interval: int)
    requires Positive(p) && IsWindow(table, hasSplit, p, g, start, w) && j < p.horizon
    requires Regular(Members(Place(table), g, hasSplit), interval)
    ensures |w.targets| == |w.targetTimes| == |w.targetPositions| == p.horizon
    ensures TargetInGroup(table, hasSplit, g, w, j, interval)
  {
    var end := start + p.length - 1;
    MemberIsRow(table, hasSplit, g, end + 1 + j);
    RegularTimes(Members(Place(table), g, hasSplit), interval, end, j + 1);
  }

  ghost predicate TargetsSpaced(table: seq<StateRow>, hasSplit: bool, g: Group, w: MultiWindow, horizon: nat, interval: int) {
    && |w.targets| == |w.targetTimes| == |w.targetPositions| == horizon
    && forall j :: 0 <= j < horizon ==> TargetInGroup(table, hasSplit, g, w, j, interval)
  }

  ghost predicate OriginInGroup(table: seq<StateRow>, hasSplit: bool, g: Group, w: MultiWindow, length: nat) {
    && 0 <= w.inputEnd < |table| && GroupOf(table[w.inputEnd], hasSplit) == g
    && w.origin == table[w.inputEnd].timestamp
    && |w.inputs| == length && (length > 0 ==> w.inputs[length - 1] == table[w.inputEnd].features)
  }

  /** The i-th input is the features of a row of the group, the right number of intervals before
      the origin. */
  ghost predicate InputInGroup(table: seq<StateRow>, hasSplit: bool, g: Group, w: MultiWindow, i: nat, interval: int)
    requires i < |w.inputs|
  {
    exists k :: 0 <= k < |table| && IsInput(table[k], hasSplit, g, w, i, interval)
  }

  predicate IsInput(row: StateRow, hasSplit: bool, g: Group, w: MultiWindow, i: nat, interval: int)
    requires i < |w.inputs|
  {
    && GroupOf(row, hasSplit) == g && w.inputs[i] == row.features
    && row.timestamp == w.origin - (|w.inputs| - 1 - i) * interval
  }

  lemma {:induction false} InputsAre(members: seq<Placed>, g: Group, length: int, horizon: int, start: int, i: nat)
    requires length >= 1 && horizon >= 1 && 0 <= start && start + length + horizon <= |members| && i < length
    ensures
      var w := MultiAt(members, g, length, horizon, start);
      && |w.inputs| == length && w.inputs[i] == members[start + i].row.features
      && w.origin == members[start + length - 1].row.timestamp
  {
  }

  lemma {:induction false} InputIsInGroup(table: seq<StateRow>, hasSplit: bool, p: Parameters, g: Group, start: int,
                                          w: MultiWindow, i: nat, interval: int)
    requires Positive(p) && IsWindow(table, hasSplit, p, g, start, w) && i < p.length
    requires w.origin == Members(Place(table), g, hasSplit)[start + i].row.timestamp + (p.length - 1 - i) * interval
    ensures |w.inputs| == p.length && InputInGroup(table, hasSplit, g, w, i, interval)
  {
    var members := Members(Place(table), g, hasSplit);
    InputsAre(members, g, p.length, p.horizon, start, i);
    MemberIsRow(table, hasSplit, g, start + i);
    InputAt(table, members[start + i].position, members[start + i].row, hasSplit, g, w, i, p.length - 1 - i, interval);
  }

  lemma {:induction false} InputTime(members: seq<Placed>, g: Group, length: int, horizon: int, start: int, i: nat,
                                     interval: int)
    requires length >= 1 && horizon >= 1 && 0 <= start && start + length + horizon <= |members| && i < length
    requires Regular(members, interval)
    ensures MultiAt(members, g, length, horizon, start).origin == members[start + i].row.timestamp + (length - 1 - i) * interval
  {
    RegularTimes(members, interval, start + i, length - 1 - i);
  }

  lemma {:induction false} InputAt(table: seq<StateRow>, position: nat, row: StateRow, hasSplit: bool, g: Group,
                                   w: MultiWindow,
                                   i: nat, k: nat, interval: int)
    requires position < |table| && table[position] == row && i < |w.inputs| && k == |w.inputs| - 1 - i
    requires GroupOf(row, hasSplit) == g && w.inputs[i] == row.features && w.origin == row.timestamp + k * interval
    ensures InputInGroup(table, hasSplit, g, w, i, interval)
  {
    assert IsInput(table[position], hasSplit, g, w, i, interval);
  }

  ghost predicate InputsInGroup(table: seq<StateRow>, hasSplit: bool, g: Group, w: MultiWindow, length: nat, interval: int) {
    |w.inputs| == length && forall i :: 0 <= i < length ==> InputInGroup(table, hasSplit, g, w, i, interval)
  }

  lemma {:induction false} InputsAreSpaced(table: seq<StateRow>, hasSplit: bool, p: Parameters, g: Group, start: int,
                                           w: MultiWindow, interval: int)
    requires Positive(p) && IsWindow(table, hasSplit, p, g, start, w)
    requires Regular(Members(Place(table), g, hasSplit), interval)
    ensures InputsInGroup(table, hasSplit, g, w, p.length, interval)
  {
    forall i | 0 <= i < p.length
      ensures |w.inputs| == p.length && InputInGroup(table, hasSplit, g, w, i, interval)
    {
      InputTime(Members(Place(table), g, hasSplit), g, p.length, p.horizon, start, i, interval);
      InputIsInGroup(table, hasSplit, p, g, start, w, i, interval);
    }
  }

  lemma {:induction false} TargetsAreSpaced(table: seq<StateRow>, hasSplit: bool, p: Parameters, g: Group, start: int,
                                            w: MultiWindow, interval: int)
    requires Positive(p) && IsWindow(table, hasSplit, p, g, start, w)
    requires Regular(Members(Place(table), g, hasSplit), interval)
    ensures TargetsSpaced(table, hasSplit, g, w, p.horizon, interval)
    ensures OriginInGroup(table, hasSplit, g, w, p.length)
  {
    MemberIsRow(table, hasSplit, g, start + p.length - 1);
    forall j | 0 <= j < p.horizon
      ensures TargetInGroup(table, hasSplit, g, w, j, interval)
    {
      TargetIsInGroup(table, hasSplit, p, g, start, w, j, interval);
    }
  }

  /** Inputs, origin and targets of every window are rows of its own group: the inputs are the
      consecutive rows that end at the origin, and the j-th target (from 1) is the label exactly
      j intervals after it. */
  lemma {:induction false} MultiStepTargetsAreSpaced(table: seq<StateRow>, hasSplit: bool, p: Parameters, g: Group,
                                                     start: int,
                                                     w: MultiWindow)
    requires BuildMultistepSequences(table, hasSplit, CurrentAttack, p).Ok? && table != []
    requires IsWindow(table, hasSplit, p, g, start, w)
    ensures TargetsSpaced(table, hasSplit, g, w, p.horizon, p.intervalSeconds * SECOND)
    ensures OriginInGroup(table, hasSplit, g, w, p.length)
    ensures InputsInGroup(table, hasSplit, g, w, p.length, p.intervalSeconds * SECOND)
  {
    AcceptedGroupsAreRegular(Place(table), hasSplit, p.intervalSeconds * SECOND, g);
    TargetsAreSpaced(table, hasSplit, p, g, start, w, p.intervalSeconds * SECOND);
    InputsAreSpaced(table, hasSplit, p, g, start, w, p.intervalSeconds * SECOND);
  }

  lemma {:induction false} MemberIsRow(table: seq<StateRow>, hasSplit: bool, g: Group, i: int)
    requires 0 <= i < |Members(Place(table), g, hasSplit)|
    ensures
      var member := Members(Place(table), g, hasSplit)[i];
      member.position < |table| && table[member.position] == member.row && GroupOf(member.row, hasSplit) == g
  {
    PlacedHold(table);
    MembersHold(Place(table), g, hasSplit);
    var member := Members(Place(table), g, hasSplit)[i];
    var k :| 0 <= k < |table| && Place(table)[k] == member;
  }

  // ---- One step: the two builders ----

  /** The part of a window both builders return. */
  datatype View = View(inputs: seq<seq<real>>, target: int, origin: int, group: Group)

  function Seen(): Window -> View {
    (w: Window) => View(w.inputs, w.target, w.origin, w.group)
  }

  function SeenMulti(): MultiWindow -> View {
    (w: MultiWindow) => View(w.inputs, if w.targets == [] then 0 else w.targets[0], w.origin, w.group)
  }

  /** The stored target of every row but the last is the next row's label. */
  ghost predicate Shifted(members: seq<Placed>) {
    forall i :: 0 <= i < |members| - 1 ==>
      members[i].row.available && members[i].row.future == members[i + 1].row.attack
  }

  /** A window that ends at the last row of the group, whose target is stored nevertheless. */
  predicate ExtraWindow(members: seq<Placed>, length: int, stride: int)
    requires stride >= 1 && length >= 1
  {
    |members| >= length && Reaches(0, |members| - length, stride) && members[|members| - 1].row.available
  }

  /** The condition in the caller's terms. */
  lemma {:induction false} ExtraWindowExactly(members: seq<Placed>, length: int, stride: int)
    requires stride >= 1 && length >= 1
    ensures ExtraWindow(members, length, stride) <==>
            && |members| >= length && (|members| - length) % stride == 0 && members[|members| - 1].row.available
  {
    ReachesIsMultiple(|members| - length, stride);
  }

  lemma {:induction false} WindowsAgree(members: seq<Placed>, g: Group, length: int, starts: seq<int>)
    requires length >= 1 && Shifted(members) && StartsFit(starts, |members| - length - 1)
    ensures StartsFit(starts, |members| - length)
    ensures Map(WindowsAt(members, g, length, 0, FutureAttack, starts), Seen()) ==
            Map(MultiWindowsAt(members, g, length, 1, starts), SeenMulti())
  {
    if starts != [] {
      var fewer, start := Front(starts), Last(starts);
      assert starts[|starts| - 1] == start;
      assert forall i :: 0 <= i < |fewer| ==> fewer[i] == starts[i];
      WindowsAgree(members, g, length, fewer);
      var end := start + length - 1;
      assert members[end].row.available && members[end].row.future == members[end + 1].row.attack;
      var one, multi := WindowAt(members, g, length, 0, FutureAttack, start), MultiAt(members, g, length, 1, start);
      assert Seen()(one) == SeenMulti()(multi);
      MapAppend(WindowsAt(members, g, length, 0, FutureAttack, fewer), one, Seen());
      MapAppend(MultiWindowsAt(members, g, length, 1, fewer), multi, SeenMulti());
    }
  }

  lemma {:induction false} MapOneMore<T, U>(xs: seq<T>, x: T, f: T -> U)
    ensures |Map(xs + [x], f)| == |Map(xs, f)| + 1 && Map(xs + [x], f)[..|Map(xs, f)|] == Map(xs, f)
  {
    MapAppend(xs, x, f);
  }

  /** The one-step builder's last start, if the stride reaches it, adds a window exactly if the
      last target is available. */
  lemma {:induction false} LastStartAdds(members: seq<Placed>, g: Group, length: int, starts: seq<int>, last: int)
    requires length >= 1 && 0 <= last == |members| - length && StartsFit(starts, last)
    ensures StartsFit(starts + [last], last)
    ensures
      var fewer := WindowsAt(members, g, length, 0, FutureAttack, starts);
      WindowsAt(members, g, length, 0, FutureAttack, starts + [last]) ==
        if members[|members| - 1].row.available then fewer + [WindowAt(members, g, length, 0, FutureAttack, last)] else fewer
  {
    assert Front(starts + [last]) == starts && Last(starts + [last]) == last;
    var fewer := WindowsAt(members, g, length, 0, FutureAttack, starts);
    assert fewer + [] == fewer;
  }

  /** The starts of the multi-step builder at K = 1. */
  function InnerStarts(members: seq<Placed>, p: Parameters): seq<int>
    requires Positive(p)
  {
    Range(0, |members| - p.length - 1, p.stride)
  }

  lemma {:induction false} OneStepWindows(members: seq<Placed>, g: Group, p: Parameters)
    requires Positive(p)
    ensures StartsFit(InnerStarts(members, p), |members| - p.length)
    ensures StartsFit(InnerStarts(members, p), |members| - p.length - 1)
    ensures
      var inner := WindowsAt(members, g, p.length, 0, FutureAttack, InnerStarts(members, p));
      GroupWindows(members, g, p, 0, FutureAttack) ==
        if ExtraWindow(members, p.length, p.stride)
        then inner + [WindowAt(members, g, p.length, 0, FutureAttack, |members| - p.length)] else inner
  {
    var last := |members| - p.length;
    RangeFits(0, last - 1, p.stride);
    RangeFits(0, last, p.stride);
    RangeEnds(0, last, p.stride);
    if 0 <= last && Reaches(0, last, p.stride) {
      LastStartAdds(members, g, p.length, InnerStarts(members, p), last);
    }
  }

  /** In one group the one-step builder yields the windows of the multi-step builder, and one more
      exactly if there is an extra window. */
  lemma {:induction false} GroupsAgree(members: seq<Placed>, g: Group, p: Parameters)
    requires Positive(p) && p.horizon == 1 && Shifted(members)
    ensures
      var one := Map(GroupWindows(members, g, p, 0, FutureAttack), Seen());
      var multi := Map(GroupMultiWindows(members, g, p), SeenMulti());
      if ExtraWindow(members, p.length, p.stride) then |one| == |multi| + 1 && one[..|multi|] == multi else one == multi
  {
    OneStepWindows(members, g, p);
    InnerWindowsAgree(members, g, p);
    if ExtraWindow(members, p.length, p.stride) {
      MapOneMore(WindowsAt(members, g, p.length, 0, FutureAttack, InnerStarts(members, p)),
                 WindowAt(members, g, p.length, 0, FutureAttack, |members| - p.length), Seen());
    }
  }

  lemma {:induction false} InnerWindowsAgree(members: seq<Placed>, g: Group, p: Parameters)
    requires Positive(p) && p.horizon == 1 && Shifted(members)
    ensures StartsFit(InnerStarts(members, p), |members| - p.length)
    ensures Map(WindowsAt(members, g, p.length, 0, FutureAttack, InnerStarts(members, p)), Seen())
            == Map(GroupMultiWindows(members, g, p), SeenMulti())
  {
    MultiWindowsAre(members, g, p);
    WindowsAgree(members, g, p.length, InnerStarts(members, p));
  }

  /** At K = 1 the multi-step builder's starts are the inner ones. */
  lemma {:induction false} MultiWindowsAre(members: seq<Placed>, g: Group, p: Parameters)
    requires Positive(p) && p.horizon == 1
    ensures StartsFit(InnerStarts(members, p), |members| - p.length - 1)
    ensures GroupMultiWindows(members, g, p) == MultiWindowsAt(members, g, p.length, 1, InnerStarts(members, p))
  {
    RangeFits(0, |members| - p.length - 1, p.stride);
  }

  ghost predicate ShiftedGroups(rows: seq<Placed>, groups: seq<Group>, hasSplit: bool) {
    forall i :: 0 <= i < |groups| ==> Shifted(Members(rows, groups[i], hasSplit))
  }

  ghost predicate HasExtraWindow(rows: seq<Placed>, groups: seq<Group>, hasSplit: bool, p: Parameters)
    requires Positive(p)
  {
    exists i :: 0 <= i < |groups| && ExtraWindow(Members(rows, groups[i], hasSplit), p.length, p.stride)
  }

  lemma {:induction false} HasExtraAppend(rows: seq<Placed>, groups: seq<Group>, hasSplit: bool, p: Parameters)
    requires Positive(p) && groups != []
    ensures HasExtraWindow(rows, groups, hasSplit, p) <==>
            HasExtraWindow(rows, Front(groups), hasSplit, p) || ExtraWindow(Members(rows, Last(groups), hasSplit), p.length, p.stride)
  {
    var fewer := Front(groups);
    if HasExtraWindow(rows, fewer, hasSplit, p) {
      var i :| 0 <= i < |fewer| && ExtraWindow(Members(rows, fewer[i], hasSplit), p.length, p.stride);
      assert groups[i] == fewer[i];
    }
    if HasExtraWindow(rows, groups, hasSplit, p) {
      var i :| 0 <= i < |groups| && ExtraWindow(Members(rows, groups[i], hasSplit), p.length, p.stride);
      assert i < |fewer| ==> fewer[i] == groups[i];
    }
    assert groups[|groups| - 1] == Last(groups);
  }

  /** Over all groups: the same windows, unless some group has an extra one. */
  lemma {:induction false} TablesAgree(rows: seq<Placed>, groups: seq<Group>, hasSplit: bool, p: Parameters)
    requires Positive(p) && p.horizon == 1 && ShiftedGroups(rows, groups, hasSplit)
    ensures
      var one := Map(AllWindows(rows, groups, hasSplit, p, FutureAttack), Seen());
      var multi := Map(AllMultiWindows(rows, groups, hasSplit, p), SeenMulti());
      && |one| >= |multi|
      && (HasExtraWindow(rows, groups, hasSplit, p) <==> |one| > |multi|)
      && (!HasExtraWindow(rows, groups, hasSplit, p) ==> one == multi)
  {
    if groups != [] {
      var g := Last(groups);
      var members := Members(rows, g, hasSplit);
      assert groups[|groups| - 1] == g;
      assert forall i :: 0 <= i < |Front(groups)| ==> Front(groups)[i] == groups[i];
      TablesAgree(rows, Front(groups), hasSplit, p);
      GroupsAgree(members, g, p);
      HasExtraAppend(rows, groups, hasSplit, p);
      MapConcat(AllWindows(rows, Front(groups), hasSplit, p, FutureAttack), GroupWindows(members, g, p, 0, FutureAttack), Seen());
      MapConcat(AllMultiWindows(rows, Front(groups), hasSplit, p), GroupMultiWindows(members, g, p), SeenMulti());
    }
  }

  ghost predicate ShiftedTable(table: seq<StateRow>, hasSplit: bool) {
    ShiftedGroups(Place(table), GroupsOf(Place(table), hasSplit), hasSplit)
  }

  /** K = 1: on a table whose stored targets are the next labels of each group, the two builders
      return the same inputs, targets, origins and groups if and only if no group has a window
      that ends at its last row while that row's target is marked available. */
  lemma {:induction false} OneStepBuildersAgreeExactly(table: seq<StateRow>, hasSplit: bool, p: Parameters)
    requires p.horizon == 1 && ShiftedTable(table, hasSplit)
    requires BuildSequences(table, hasSplit, FutureAttack, p).Ok?
    requires BuildMultistepSequences(table, hasSplit, CurrentAttack, p).Ok?
    ensures
      Map(BuildSequences(table, hasSplit, FutureAttack, p).value, Seen()) ==
      Map(BuildMultistepSequences(table, hasSplit, CurrentAttack, p).value, SeenMulti())
      <==> !HasExtraWindow(Place(table), GroupsOf(Place(table), hasSplit), hasSplit, p)
  {
    TablesAgree(Place(table), GroupsOf(Place(table), hasSplit), hasSplit, p);
  }

  /** Two rows of one day, ten seconds apart, both with a stored target. */
  function TwoRows(): seq<StateRow> {
    [StateRow(0, "", 0, [], 0, 0, true), StateRow(STATE_INTERVAL, "", 0, [], 0, 0, true)]
  }

  lemma {:induction false} TwoRowsPlaced()
    ensures Place(TwoRows()) == [Placed(TwoRows()[0], 0), Placed(TwoRows()[1], 1)]
  {
    assert Front(TwoRows()) == [TwoRows()[0]] && Front([TwoRows()[0]]) == [];
    assert Place([TwoRows()[0]]) == [] + [Placed(TwoRows()[0], 0)];
  }

  lemma {:induction false} TwoRowsAreOneGroup(g: Group)
    ensures Members(Place(TwoRows()), g, false) == if g == Group("", 0) then Place(TwoRows()) else []
  {
    TwoRowsPlaced();
    if g == Group("", 0) {
      FilterKeepsAll(Place(TwoRows()), InGroup(g, false));
    } else {
      FilterKeepsNone(Place(TwoRows()), InGroup(g, false));
    }
  }

  lemma {:induction false} TwoRowsAreRegular()
    ensures Increasing(Place(TwoRows())) && Regular(Place(TwoRows()), STATE_INTERVAL)
  {
    TwoRowsPlaced();
  }

  lemma {:induction false} NoRowsAreRegular(interval: int)
    ensures Regular([], interval)
  {
  }

  lemma {:induction false} TwoRowsPass(groups: seq<Group>)
    ensures GroupsError(Place(TwoRows()), groups, false, STATE_INTERVAL) == None
  {
    forall i | 0 <= i < |groups|
      ensures Regular(Members(Place(TwoRows()), groups[i], false), STATE_INTERVAL)
    {
      TwoRowsAreOneGroup(groups[i]);
      TwoRowsAreRegular();
      NoRowsAreRegular(STATE_INTERVAL);
    }
    RegularGroupsPass(Place(TwoRows()), groups, false, STATE_INTERVAL);
  }

  lemma {:induction false} TwoRowsAreShifted(groups: seq<Group>)
    ensures ShiftedGroups(Place(TwoRows()), groups, false)
  {
    TwoRowsPlaced();
    forall i | 0 <= i < |groups|
      ensures Shifted(Members(Place(TwoRows()), groups[i], false))
    {
      TwoRowsAreOneGroup(groups[i]);
    }
  }

  lemma {:induction false} TwoRowsHaveExtra(p: Parameters)
    requires p == Parameters(1, 1, 1, 10)
    ensures HasExtraWindow(Place(TwoRows()), GroupsOf(Place(TwoRows()), false), false, p)
  {
    var rows, groups, g := Place(TwoRows()), GroupsOf(Place(TwoRows()), false), Group("", 0);
    TwoRowsPlaced();
    TwoRowsAreOneGroup(g);
    GroupsHold(rows, false, g);
    assert GroupOf(rows[0].row, false) == g;
    assert Reaches(0, 1, 1);
    var i :| 0 <= i < |groups| && groups[i] == g;
    assert ExtraWindow(Members(rows, groups[i], false), p.length, p.stride);
  }

  lemma {:induction false} AcceptedByBoth(table: seq<StateRow>, p: Parameters)
    requires Positive(p) && p.horizon == 1 && Binary(table)
    requires CadenceError(Place(table), false, p.intervalSeconds * SECOND) == None
    ensures BuildSequences(table, false, FutureAttack, p).Ok?
    ensures BuildMultistepSequences(table, false, CurrentAttack, p).Ok?
  {
  }

  lemma {:induction false} NoCadenceError(rows: seq<Placed>, hasSplit: bool, interval: int)
    requires forall i :: 0 <= i < |rows| ==> rows[i].row.timestamp / DAY == rows[i].row.day
    requires GroupsError(rows, Appearing(rows, hasSplit), hasSplit, interval) == None
    ensures CadenceError(rows, hasSplit, interval) == None
  {
  }

  lemma {:induction false} TwoRowsAreAccepted()
    ensures Binary(TwoRows()) && CadenceError(Place(TwoRows()), false, STATE_INTERVAL) == None
  {
    TwoRowsPass(Appearing(Place(TwoRows()), false));
    forall i | 0 <= i < |Place(TwoRows())|
      ensures Place(TwoRows())[i].row.timestamp / DAY == Place(TwoRows())[i].row.day
    {
      TwoRowsPlaced();
    }
    NoCadenceError(Place(TwoRows()), false, STATE_INTERVAL);
  }

  /** The one-step builder returns a window that ends at the second row, which the multi-step
      builder does not. */
  lemma {:induction false} OneStepBuildersDiffer()
    ensures
      var p := Parameters(1, 1, 1, 10);
      var one := BuildSequences(TwoRows(), false, FutureAttack, p);
      var multi := BuildMultistepSequences(TwoRows(), false, CurrentAttack, p);
      && ShiftedTable(TwoRows(), false) && one.Ok? && multi.Ok?
      && Map(one.value, Seen()) != Map(multi.value, SeenMulti())
  {
    var p := Parameters(1, 1, 1, 10);
    TwoRowsAreShifted(GroupsOf(Place(TwoRows()), false));
    TwoRowsAreAccepted();
    AcceptedByBoth(TwoRows(), p);
    TwoRowsHaveExtra(p);
    OneStepBuildersAgreeExactly(TwoRows(), false, p);
  }
}
