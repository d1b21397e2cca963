/** Filtering rows without a target before building windows, as the training scripts do: exactly when
    the filtered table is still accepted (src/forecasting/windowing.py). */
module FilteredTables {
  import opened Prelude
  import opened SortedLists
  import opened Windowing
  import opened WindowTheorems

  function IsAvailable(): StateRow -> bool {
    (row: StateRow) => row.available
  }

  function RowInGroup(g: Group, hasSplit: bool): StateRow -> bool {
    (row: StateRow) => GroupOf(row, hasSplit) == g
  }

  function TheRow(): Placed -> StateRow {
    (r: Placed) => r.row
  }

  lemma {:induction false} PlacedRows(table: seq<StateRow>)
    ensures Map(Place(table), TheRow()) == table
  {
    if table != [] {
      FrontAndLast(table);
      PlacedRows(Front(table));
      MapAppend(Place(Front(table)), Placed(Last(table), |table| - 1), TheRow());
    }
  }

  lemma {:induction false} MemberRows(table: seq<StateRow>, g: Group, hasSplit: bool)
    ensures Map(Members(Place(table), g, hasSplit), TheRow()) == Filter(table, RowInGroup(g, hasSplit))
  {
    PlacedRows(table);
    FilterMap(Place(table), TheRow(), RowInGroup(g, hasSplit), InGroup(g, hasSplit));
  }

  // ---- The available rows of a group ----

  /** No unavailable row lies between two available ones. */
  predicate Together(rows: seq<StateRow>) {
    forall i, j, k :: 0 <= i < j < k < |rows| && rows[i].available && rows[k].available ==> rows[j].available
  }

  /** How many unavailable rows come first. */
  function Leading(rows: seq<StateRow>): (a: nat)
    ensures a <= |rows| && (a < |rows| ==> rows[a].available)
  {
    if rows == [] || rows[0].available then 0 else 1 + Leading(rows[1..])
  }

  lemma {:induction false} LeadingAreUnavailable(rows: seq<StateRow>, i: nat)
    requires i < Leading(rows)
    ensures !rows[i].available
  {
    if i > 0 {
      LeadingAreUnavailable(rows[1..], i - 1);
    }
  }

  /** The position after the last available row. */
  function EndOf(rows: seq<StateRow>): (b: nat)
    ensures b <= |rows| && (b > 0 ==> rows[b - 1].available)
  {
    if rows == [] then 0 else if Last(rows).available then |rows| else EndOf(Front(rows))
  }

  lemma {:induction false} TrailingAreUnavailable(rows: seq<StateRow>, i: nat)
    requires EndOf(rows) <= i < |rows|
    ensures !rows[i].available
  {
    if i < |rows| - 1 {
      TrailingAreUnavailable(Front(rows), i);
    }
  }

  lemma {:induction false} OutsideIsUnavailable(rows: seq<StateRow>, i: nat)
    requires i < |rows| && (i < Leading(rows) || EndOf(rows) <= i)
    ensures !rows[i].available
  {
    if i < Leading(rows) {
      LeadingAreUnavailable(rows, i);
    } else {
      TrailingAreUnavailable(rows, i);
    }
  }

  /** The rows from the first available to the last available one. */
  function Middle(rows: seq<StateRow>): seq<StateRow> {
    if Leading(rows) <= EndOf(rows) then rows[Leading(rows)..EndOf(rows)] else []
  }

  lemma {:induction false} FilterDropsUnavailable(rows: seq<StateRow>)
    requires forall i :: 0 <= i < |rows| ==> !rows[i].available
    ensures Filter(rows, IsAvailable()) == []
  {
    forall row | row in rows
      ensures !IsAvailable()(row)
    {
    }
    FilterKeepsNone(rows, IsAvailable());
  }

  lemma {:induction false} FilterOfParts(rows: seq<StateRow>, a: nat, b: nat)
    requires a <= b <= |rows|
    requires forall i :: 0 <= i < |rows| && (i < a || b <= i) ==> !rows[i].available
    ensures Filter(rows, IsAvailable()) == Filter(rows[a..b], IsAvailable())
  {
    var left, middle, right := rows[..a], rows[a..b], rows[b..];
    assert rows == left + middle + right;
    FilterConcat(left + middle, right, IsAvailable());
    FilterConcat(left, middle, IsAvailable());
    FilterDropsUnavailable(left);
    FilterDropsUnavailable(right);
  }

  lemma {:induction false} FilterOfMiddle(rows: seq<StateRow>)
    ensures Filter(rows, IsAvailable()) == Filter(Middle(rows), IsAvailable())
  {
    var a, b := Leading(rows), EndOf(rows);
    forall i | 0 <= i < |rows| && (i < a || b <= i)
      ensures !rows[i].available
    {
      OutsideIsUnavailable(rows, i);
    }
    if a <= b {
      FilterOfParts(rows, a, b);
    } else {
      FilterDropsUnavailable(rows);
    }
  }

  lemma {:induction false} FilterOfSlice(rows: seq<StateRow>)
    requires Leading(rows) <= EndOf(rows)
    ensures Filter(rows, IsAvailable()) == Filter(rows[Leading(rows)..EndOf(rows)], IsAvailable())
  {
    FilterOfMiddle(rows);
  }

  lemma {:induction false} FilterOfAvailable(rows: seq<StateRow>)
    requires forall i :: 0 <= i < |rows| ==> rows[i].available
    ensures Filter(rows, IsAvailable()) == rows
  {
    forall row | row in rows
      ensures IsAvailable()(row)
    {
    }
    FilterKeepsAll(rows, IsAvailable());
  }

  ghost predicate AllAvailable(rows: seq<StateRow>, a: nat, b: nat) {
    b <= |rows| && forall j :: a <= j < b ==> rows[j].available
  }

  /** Every row from the first available to the last available one is available. */
  ghost predicate Block(rows: seq<StateRow>) {
    AllAvailable(rows, Leading(rows), EndOf(rows))
  }

  lemma {:induction false} TogetherIsBlock(rows: seq<StateRow>)
    ensures Together(rows) <==> Block(rows)
  {
    var a, b := Leading(rows), EndOf(rows);
    if Together(rows) {
      forall j | a <= j < b
        ensures rows[j].available
      {
        assert rows[a].available && rows[b - 1].available;
      }
    }
    if Block(rows) {
      forall i, j, k | 0 <= i < j < k < |rows| && rows[i].available && rows[k].available
        ensures rows[j].available
      {
        InsideIsBetween(rows, i);
        InsideIsBetween(rows, k);
      }
    }
  }

  lemma {:induction false} InsideIsBetween(rows: seq<StateRow>, i: nat)
    requires i < |rows| && rows[i].available
    ensures Leading(rows) <= i < EndOf(rows)
  {
    if i < Leading(rows) || EndOf(rows) <= i {
      OutsideIsUnavailable(rows, i);
    }
  }

  lemma {:induction false} MiddleIsAvailable(rows: seq<StateRow>, a: nat, b: nat)
    requires AllAvailable(rows, a, b)
    ensures a <= b ==> forall i :: 0 <= i < |rows[a..b]| ==> rows[a..b][i].available
  {
  }

  /** Rows that are available together are what filtering leaves. */
  lemma {:induction false} FilterIsMiddle(rows: seq<StateRow>)
    requires Block(rows)
    ensures Filter(rows, IsAvailable()) == Middle(rows)
  {
    FilterOfMiddle(rows);
    MiddleIsAvailable(rows, Leading(rows), EndOf(rows));
    FilterOfAvailable(Middle(rows));
  }

  // ---- Cadence ----

  ghost predicate Cadence(rows: seq<StateRow>, interval: int) {
    forall i, j :: 0 <= i && j == i + 1 < |rows| ==> rows[j].timestamp == rows[i].timestamp + interval
  }

  lemma {:induction false} CadenceOfMembers(members: seq<Placed>, interval: int)
    ensures Regular(members, interval) <==> Cadence(Map(members, TheRow()), interval)
  {
    MapAt(members, TheRow());
  }

  lemma {:induction false} CadenceTimes(rows: seq<StateRow>, interval: int, i: nat, k: nat)
    requires Cadence(rows, interval) && i + k < |rows|
    ensures rows[i + k].timestamp == rows[i].timestamp + k * interval
  {
    if k > 0 {
      CadenceTimes(rows, interval, i, k - 1);
      assert k * interval == (k - 1) * interval + interval;
    }
  }

  lemma {:induction false} FilterStartsWith<T>(xs: seq<T>, keep: T -> bool)
    requires xs != [] && keep(xs[0])
    ensures Filter(xs, keep) != [] && Filter(xs, keep)[0] == xs[0]
  {
    if |xs| > 1 {
      FilterStartsWith(Front(xs), keep);
    }
  }

  lemma {:induction false} FilterIsShorter<T>(xs: seq<T>, keep: T -> bool)
    ensures |Filter(xs, keep)| <= |xs|
  {
    if xs != [] {
      FilterIsShorter(Front(xs), keep);
    }
  }

  lemma {:induction false} FilterOfSameSize<T>(xs: seq<T>, keep: T -> bool, i: nat)
    requires |Filter(xs, keep)| == |xs| && i < |xs|
    ensures keep(xs[i])
  {
    FilterIsShorter(Front(xs), keep);
    if i < |xs| - 1 {
      FilterOfSameSize(Front(xs), keep, i);
    }
  }

  /** Between two available rows of a fixed cadence, filtering keeps the cadence only if it drops none. */
  lemma {:induction false} KeptCadenceDropsNone(rows: seq<StateRow>, interval: int)
    requires interval > 0 && Cadence(rows, interval) && rows != [] && rows[0].available && Last(rows).available
    requires Cadence(Filter(rows, IsAvailable()), interval)
    ensures |Filter(rows, IsAvailable())| == |rows|
  {
    var kept := Filter(rows, IsAvailable());
    FilterStartsWith(rows, IsAvailable());
    CadenceTimes(rows, interval, 0, |rows| - 1);
    CadenceTimes(kept, interval, 0, |kept| - 1);
    SameProduct(|kept| - 1, |rows| - 1, interval);
  }

  lemma {:induction false} CadenceOfSlice(rows: seq<StateRow>, interval: int, a: nat, b: nat)
    requires Cadence(rows, interval) && a <= b <= |rows|
    ensures Cadence(rows[a..b], interval)
  {
    assert forall i :: 0 <= i < b - a ==> rows[a..b][i] == rows[a + i];
  }

  lemma {:induction false} KeptSliceIsAvailable(rows: seq<StateRow>, interval: int, a: nat, b: nat, kept: seq<StateRow>)
    requires interval > 0 && Cadence(rows, interval) && a < b <= |rows| && rows[a].available && rows[b - 1].available
    requires kept == Filter(rows[a..b], IsAvailable()) && Cadence(kept, interval)
    ensures AllAvailable(rows, a, b)
  {
    CadenceOfSlice(rows, interval, a, b);
    KeptCadenceDropsNone(rows[a..b], interval);
    forall j | a <= j < b
      ensures rows[j].available
    {
      FilterOfSameSize(rows[a..b], IsAvailable(), j - a);
    }
  }

  lemma {:induction false} KeptCadenceIsBlock(rows: seq<StateRow>, interval: int)
    requires interval > 0 && Cadence(rows, interval) && Cadence(Filter(rows, IsAvailable()), interval)
    ensures Block(rows)
  {
    var a, b := Leading(rows), EndOf(rows);
    if a < b {
      FilterOfSlice(rows);
      KeptSliceIsAvailable(rows, interval, a, b, Filter(rows, IsAvailable()));
    }
  }

  lemma {:induction false} BlockKeepsCadence(rows: seq<StateRow>, interval: int)
    requires Cadence(rows, interval) && Block(rows)
    ensures Cadence(Filter(rows, IsAvailable()), interval)
  {
    FilterIsMiddle(rows);
    if Leading(rows) <= EndOf(rows) {
      CadenceOfSlice(rows, interval, Leading(rows), EndOf(rows));
    }
  }

  /** The filtered rows of a group run at the cadence of the group exactly if they are together. */
  lemma {:induction false} FilteredCadenceExactly(rows: seq<StateRow>, interval: int)
    requires interval > 0 && Cadence(rows, interval)
    ensures Cadence(Filter(rows, IsAvailable()), interval) <==> Together(rows)
  {
    TogetherIsBlock(rows);
    if Block(rows) {
      BlockKeepsCadence(rows, interval);
    }
    if Cadence(Filter(rows, IsAvailable()), interval) {
      KeptCadenceIsBlock(rows, interval);
    }
  }

  // ---- Groups that lose all their rows ----

  function Remaining(rows: seq<Placed>, hasSplit: bool): Group -> bool {
    (g: Group) => exists i :: 0 <= i < |rows| && GroupOf(rows[i].row, hasSplit) == g
  }

  /** Every row of the filtered table is a row of the table. */
  lemma {:induction false} FilteredGroupExists(table: seq<StateRow>, hasSplit: bool, g: Group)
    requires HasGroup(Place(Filter(table, IsAvailable())), g, hasSplit)
    ensures HasGroup(Place(table), g, hasSplit)
  {
    var fewer := Filter(table, IsAvailable());
    PlacedHold(fewer);
    PlacedHold(table);
    var i :| 0 <= i < |Place(fewer)| && GroupOf(Place(fewer)[i].row, hasSplit) == g;
    FilterKeepsExactly(table, IsAvailable(), fewer[i]);
    var j :| 0 <= j < |table| && table[j] == fewer[i];
    assert Place(table)[j].row == fewer[i];
  }

  /** The groups of the filtered table are the groups that keep a row, in the same order. */
  lemma {:induction false} FilteredGroups(table: seq<StateRow>, hasSplit: bool)
    ensures
      var rows, filtered := Place(table), Place(Filter(table, IsAvailable()));
      GroupsOf(filtered, hasSplit) == Filter(GroupsOf(rows, hasSplit), Remaining(filtered, hasSplit))
  {
    var rows, filtered := Place(table), Place(Filter(table, IsAvailable()));
    var kept := Filter(GroupsOf(rows, hasSplit), Remaining(filtered, hasSplit));
    GroupOrderIsTotal();
    KeysAreSorted(rows, RowGroup(hasSplit), GroupBefore);
    KeysAreSorted(filtered, RowGroup(hasSplit), GroupBefore);
    FilterKeepsSorted(GroupsOf(rows, hasSplit), Remaining(filtered, hasSplit), GroupBefore);
    forall g
      ensures g in GroupsOf(filtered, hasSplit) <==> g in kept
    {
      GroupsHold(filtered, hasSplit, g);
      GroupsHold(rows, hasSplit, g);
      FilterKeepsExactly(GroupsOf(rows, hasSplit), Remaining(filtered, hasSplit), g);
      if HasGroup(filtered, g, hasSplit) {
        FilteredGroupExists(table, hasSplit, g);
      }
    }
    SortedAreEqual(GroupsOf(filtered, hasSplit), kept, GroupBefore);
  }

  lemma {:induction false} AllWindowsAppend(rows: seq<Placed>, groups: seq<Group>, g: Group, hasSplit: bool, p: Parameters)
    requires Positive(p)
    ensures AllWindows(rows, groups + [g], hasSplit, p, FutureAttack) ==
            AllWindows(rows, groups, hasSplit, p, FutureAttack) + GroupWindows(Members(rows, g, hasSplit), g, p, 0, FutureAttack)
  {
    assert Front(groups + [g]) == groups && Last(groups + [g]) == g;
  }

  /** Groups without rows have no windows. */
  lemma {:induction false} EmptyGroupsAddNothing(rows: seq<Placed>, groups: seq<Group>, hasSplit: bool, p: Parameters)
    requires Positive(p)
    ensures AllWindows(rows, Filter(groups, Remaining(rows, hasSplit)), hasSplit, p, FutureAttack)
            == AllWindows(rows, groups, hasSplit, p, FutureAttack)
  {
    if groups != [] {
      var fewer, g := Front(groups), Last(groups);
      var keep := Remaining(rows, hasSplit);
      FrontAndLast(groups);
      EmptyGroupsAddNothing(rows, fewer, hasSplit, p);
      AllWindowsAppend(rows, fewer, g, hasSplit, p);
      FilterAppend(fewer, g, keep);
      if keep(g) {
        AllWindowsAppend(rows, Filter(fewer, keep), g, hasSplit, p);
      } else {
        MembersHold(rows, g, hasSplit);
        assert Filter(fewer, keep) + [] == Filter(fewer, keep);
      }
    }
  }

  // ---- When the filtered table is accepted ----

  ghost predicate DaysMatch(rows: seq<StateRow>) {
    forall i :: 0 <= i < |rows| ==> rows[i].timestamp / DAY == rows[i].day
  }

  lemma {:induction false} AcceptedDaysMatch(table: seq<StateRow>, hasSplit: bool, interval: int)
    requires CadenceError(Place(table), hasSplit, interval) == None
    ensures DaysMatch(table)
  {
    var rows := Place(table);
    PlacedHold(table);
    forall i | 0 <= i < |table|
      ensures table[i].timestamp / DAY == table[i].day
    {
      assert rows[i].row == table[i];
    }
  }

  function GroupRows(table: seq<StateRow>, g: Group, hasSplit: bool): seq<StateRow> {
    Filter(table, RowInGroup(g, hasSplit))
  }

  function Filtered(table: seq<StateRow>): seq<StateRow> {
    Filter(table, IsAvailable())
  }

  lemma {:induction false} FilteredGroupRows(table: seq<StateRow>, g: Group, hasSplit: bool)
    ensures Map(Members(Place(table), g, hasSplit), TheRow()) == GroupRows(table, g, hasSplit)
    ensures Map(Members(Place(Filtered(table)), g, hasSplit), TheRow()) == Filtered(GroupRows(table, g, hasSplit))
  {
    MemberRows(table, g, hasSplit);
    MemberRows(Filtered(table), g, hasSplit);
    FilterCommutes(table, IsAvailable(), RowInGroup(g, hasSplit));
  }

  lemma {:induction false} RegularExactly(table: seq<StateRow>, g: Group, hasSplit: bool, interval: int)
    requires interval > 0 && Regular(Members(Place(table), g, hasSplit), interval)
    ensures Regular(Members(Place(Filtered(table)), g, hasSplit), interval) <==> Together(GroupRows(table, g, hasSplit))
  {
    FilteredGroupRows(table, g, hasSplit);
    CadenceOfMembers(Members(Place(table), g, hasSplit), interval);
    CadenceOfMembers(Members(Place(Filtered(table)), g, hasSplit), interval);
    FilteredCadenceExactly(GroupRows(table, g, hasSplit), interval);
  }

  predicate Earlier(a: StateRow, b: StateRow) {
    a.timestamp < b.timestamp
  }

  lemma {:induction false} CadenceIsSorted(rows: seq<StateRow>, interval: int)
    requires interval > 0 && Cadence(rows, interval)
    ensures Sorted(rows, Earlier)
  {
    forall i, j | 0 <= i < j < |rows|
      ensures Earlier(rows[i], rows[j])
    {
      CadenceTimes(rows, interval, i, j - i);
      Scale(1, j - i, interval);
    }
  }

  lemma {:induction false} FilteredIsIncreasing(table: seq<StateRow>, g: Group, hasSplit: bool, interval: int)
    requires interval > 0 && Regular(Members(Place(table), g, hasSplit), interval)
    ensures Increasing(Members(Place(Filtered(table)), g, hasSplit))
  {
    FilteredGroupRows(table, g, hasSplit);
    CadenceOfMembers(Members(Place(table), g, hasSplit), interval);
    CadenceIsSorted(GroupRows(table, g, hasSplit), interval);
    FilterKeepsSorted(GroupRows(table, g, hasSplit), IsAvailable(), Earlier);
    MapAt(Members(Place(Filtered(table)), g, hasSplit), TheRow());
  }

  ghost predicate AllRegular(rows: seq<Placed>, groups: seq<Group>, hasSplit: bool, interval: int) {
    forall i :: 0 <= i < |groups| ==> Regular(Members(rows, groups[i], hasSplit), interval)
  }

  ghost predicate AllIncreasing(rows: seq<Placed>, groups: seq<Group>, hasSplit: bool) {
    forall i :: 0 <= i < |groups| ==> Increasing(Members(rows, groups[i], hasSplit))
  }

  /** Groups in increasing order can only have the wrong cadence. */
  lemma {:induction false} OnlyCadenceFails(rows: seq<Placed>, groups: seq<Group>, hasSplit: bool, interval: int)
    requires AllIncreasing(rows, groups, hasSplit)
    ensures GroupsError(rows, groups, hasSplit, interval) ==
            if AllRegular(rows, groups, hasSplit, interval) then None else Some(WrongCadence)
    decreases |groups|
  {
    if groups != [] {
      var rest := groups[1..];
      assert forall i :: 0 <= i < |rest| ==> rest[i] == groups[i + 1];
      assert AllIncreasing(rows, rest, hasSplit);
      OnlyCadenceFails(rows, rest, hasSplit, interval);
      assert AllRegular(rows, groups, hasSplit, interval) <==>
             Regular(Members(rows, groups[0], hasSplit), interval) && AllRegular(rows, rest, hasSplit, interval) by {
        assert forall i :: 1 <= i < |groups| ==> groups[i] == rest[i - 1];
      }
    }
  }

  ghost predicate AllTogether(table: seq<StateRow>, hasSplit: bool) {
    forall g :: g in GroupsOf(Place(table), hasSplit) ==> Together(GroupRows(table, g, hasSplit))
  }

  lemma {:induction false} FilteredGroupIsGroup(table: seq<StateRow>, hasSplit: bool, g: Group)
    requires g in Appearing(Place(Filtered(table)), hasSplit)
    ensures g in GroupsOf(Place(table), hasSplit)
  {
    GroupsHold(Place(Filtered(table)), hasSplit, g);
    FilteredGroupExists(table, hasSplit, g);
    GroupsHold(Place(table), hasSplit, g);
  }

  lemma {:induction false} FilteredRegularExactly(table: seq<StateRow>, hasSplit: bool, interval: int)
    requires interval > 0 && CadenceError(Place(table), hasSplit, interval) == None
    ensures
      var filtered := Place(Filtered(table));
      var groups := Appearing(filtered, hasSplit);
      && AllIncreasing(filtered, groups, hasSplit)
      && (AllRegular(filtered, groups, hasSplit, interval) <==> AllTogether(table, hasSplit))
  {
    var filtered := Place(Filtered(table));
    var groups := Appearing(filtered, hasSplit);
    forall i | 0 <= i < |groups|
      ensures groups[i] in GroupsOf(Place(table), hasSplit) && Increasing(Members(filtered, groups[i], hasSplit))
      ensures Regular(Members(filtered, groups[i], hasSplit), interval) <==> Together(GroupRows(table, groups[i], hasSplit))
    {
      assert groups[i] in groups;
      FilteredGroupIsGroup(table, hasSplit, groups[i]);
      AcceptedGroupsAreRegular(Place(table), hasSplit, interval, groups[i]);
      FilteredIsIncreasing(table, groups[i], hasSplit, interval);
      RegularExactly(table, groups[i], hasSplit, interval);
    }
    if AllRegular(filtered, groups, hasSplit, interval) {
      forall g | g in GroupsOf(Place(table), hasSplit)
        ensures Together(GroupRows(table, g, hasSplit))
      {
        RegularGroupIsTogether(table, hasSplit, interval, g);
      }
    }
  }

  lemma {:induction false} RegularGroupIsTogether(table: seq<StateRow>, hasSplit: bool, interval: int, g: Group)
    requires interval > 0 && CadenceError(Place(table), hasSplit, interval) == None
    requires AllRegular(Place(Filtered(table)), Appearing(Place(Filtered(table)), hasSplit), hasSplit, interval)
    ensures Together(GroupRows(table, g, hasSplit))
  {
    var filtered := Place(Filtered(table));
    GroupsHold(filtered, hasSplit, g);
    MembersHold(filtered, g, hasSplit);
    AcceptedGroupsAreRegular(Place(table), hasSplit, interval, g);
    RegularExactly(table, g, hasSplit, interval);
    if HasGroup(filtered, g, hasSplit) {
      var i :| 0 <= i < |Appearing(filtered, hasSplit)| && Appearing(filtered, hasSplit)[i] == g;
    }
  }

  lemma {:induction false} FilteredDaysMatch(table: seq<StateRow>, hasSplit: bool, interval: int)
    requires CadenceError(Place(table), hasSplit, interval) == None
    ensures
      var filtered := Place(Filtered(table));
      CadenceError(filtered, hasSplit, interval) == GroupsError(filtered, Appearing(filtered, hasSplit), hasSplit, interval)
  {
    var fewer := Filtered(table);
    AcceptedDaysMatch(table, hasSplit, interval);
    PlacedHold(fewer);
    forall i | 0 <= i < |fewer|
      ensures Place(fewer)[i].row.timestamp / DAY == Place(fewer)[i].row.day
    {
      FilterKeepsExactly(table, IsAvailable(), fewer[i]);
    }
  }

  lemma {:induction false} FilteredCadenceError(table: seq<StateRow>, hasSplit: bool, interval: int)
    requires interval > 0 && CadenceError(Place(table), hasSplit, interval) == None
    ensures CadenceError(Place(Filtered(table)), hasSplit, interval) ==
            if AllTogether(table, hasSplit) then None else Some(WrongCadence)
  {
    FilteredDaysMatch(table, hasSplit, interval);
    FilteredRegularExactly(table, hasSplit, interval);
    OnlyCadenceFails(Place(Filtered(table)), Appearing(Place(Filtered(table)), hasSplit), hasSplit, interval);
  }

  /** Filtering first is accepted exactly if in no group an unavailable row lies between two
      available ones, and otherwise fails for the wrong cadence. */
  lemma {:induction false} FilteredIsAcceptedExactly(table: seq<StateRow>, hasSplit: bool, p: Parameters)
    requires p.horizon == 1 && BuildSequences(table, hasSplit, FutureAttack, p).Ok?
    ensures BuildSequences(Filtered(table), hasSplit, FutureAttack, p).Ok? <==> AllTogether(table, hasSplit)
    ensures !AllTogether(table, hasSplit) ==> BuildSequences(Filtered(table), hasSplit, FutureAttack, p) == Err(WrongCadence)
  {
    if table != [] {
      FilteredCadenceError(table, hasSplit, p.intervalSeconds * SECOND);
    }
    assert Filtered(table) == [] ==> Place(Filtered(table)) == [];
  }
}
