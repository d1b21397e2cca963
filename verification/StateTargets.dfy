/** The stored one-step targets of an aggregated state table (src/features/network_state.py), and
    what they mean for the two window builders. */
module StateTargets {
  import opened Prelude
  import opened NetworkStates
  import opened Windowing
  import opened WindowTheorems
  import opened FilteredTables
  import opened FilteredWindows

  function Label(s: NetState): int {
    if s.maliciousCount > 0 then 1 else 0
  }

  /** The model inputs as one row of numbers. */
  function Vector(f: Features): seq<real> {
    [f.flowCount as real, f.byteSum, f.packetSum, f.meanDuration, f.meanIat, f.synRatio, f.ackRatio, f.rstRatio,
     f.fwdByteShare, f.fwdPacketShare, f.uniquePorts as real, f.bytesPerSecond, f.packetsPerSecond, f.packetSizeMean]
  }

  /** The next row of day `d` from index `i` on: a shift by one within the day. */
  function NextOfDay(states: seq<NetState>, d: int, i: nat): (next: Option<nat>)
    ensures next.Some? ==> i <= next.value < |states|
    decreases |states| - i
  {
    if i >= |states| then None
    else if states[i].day == d then Some(i)
    else NextOfDay(states, d, i + 1)
  }

  function TargetRow(states: seq<NetState>, i: nat): StateRow
    requires i < |states|
  {
    var s := states[i];
    match NextOfDay(states, s.day, i + 1)
    case None => StateRow(s.timestamp, "", s.day, Vector(s.features), Label(s), -1, false)
    case Some(j) => StateRow(s.timestamp, "", s.day, Vector(s.features), Label(s), Label(states[j]), true)
  }

  /** The supervised state table. */
  function TargetTable(states: seq<NetState>): seq<StateRow> {
    seq(|states|, i requires 0 <= i < |states| => TargetRow(states, i))
  }

  /** The method that fills the target columns of the table, row by row. */
  method AddTargets(states: seq<NetState>) returns (table: seq<StateRow>)
    ensures table == TargetTable(states)
  {
    table := [];
    for i := 0 to |states|
      invariant |table| == i && forall j :: 0 <= j < i ==> table[j] == TargetRow(states, j)
    {
      table := table + [TargetRow(states, i)];
    }
  }

  // ---- Days are runs of adjacent rows ----

  ghost predicate DaysInOrder(rows: seq<Placed>) {
    forall i, j :: 0 <= i < j < |rows| ==> rows[i].row.day <= rows[j].row.day
  }

  lemma {:induction false} SliceEndsLast(rows: seq<Placed>, a: nat, b: nat, d: int)
    requires DaysInOrder(rows) && a < b <= |rows| - 1 && rows[a].row.day == d == Last(rows).row.day
    requires forall i :: b <= i < |rows| - 1 ==> rows[i].row.day != d
    ensures b == |rows| - 1
  {
    var i := if b < |rows| - 1 then b else a;
    assert rows[a].row.day <= rows[i].row.day;
    assert rows[i].row.day <= rows[|rows| - 1].row.day;
  }

  lemma {:induction false} SliceOfLonger<T>(xs: seq<T>, x: T, a: nat, b: nat)
    requires a <= b <= |xs|
    ensures (xs + [x])[a..b] == xs[a..b]
    ensures (xs + [x])[a..|xs| + 1] == xs[a..] + [x]
  {
  }

  /** A day's rows are adjacent: those from `a` up to `b`. */
  lemma {:induction false} DayIsSlice(rows: seq<Placed>, g: Group) returns (a: nat, b: nat)
    requires DaysInOrder(rows) && g.split == ""
    ensures a <= b <= |rows| && Members(rows, g, false) == rows[a..b]
    ensures forall i :: 0 <= i < |rows| ==> (a <= i < b <==> rows[i].row.day == g.day)
  {
    if rows == [] {
      a, b := 0, 0;
    } else {
      var fewer := Front(rows);
      a, b := DayIsSlice(fewer, g);
      FrontAndLast(rows);
      assert forall i :: 0 <= i < |fewer| ==> fewer[i] == rows[i];
      if Last(rows).row.day == g.day {
        if a == b {
          a := |fewer|;
          assert fewer[a..a] == [] == Members(fewer, g, false);
        } else {
          assert fewer[a].row.day == g.day;
          SliceEndsLast(rows, a, b, g.day);
        }
        b := |rows|;
        SliceOfLonger(fewer, Last(rows), a, |fewer|);
      } else {
        SliceOfLonger(fewer, Last(rows), a, b);
      }
    }
  }

  lemma {:induction false} TableDays(states: seq<NetState>, step: int)
    requires OrderedStates(states, step)
    ensures IsTable(states, Place(TargetTable(states)))
  {
    var rows := Place(TargetTable(states));
    PlacedHold(TargetTable(states));
    forall i, j | 0 <= i < j < |rows|
      ensures rows[i].row.day <= rows[j].row.day
    {
      assert states[i].timestamp < states[j].timestamp;
      if DayOf(states[j].timestamp) < DayOf(states[i].timestamp) {
        LaterDayIsLater(states[j].timestamp, states[i].timestamp);
      }
    }
  }

  lemma {:induction false} NoNextOfDay(states: seq<NetState>, d: int, i: nat)
    requires forall j :: i <= j < |states| ==> states[j].day != d
    ensures NextOfDay(states, d, i) == None
    decreases |states| - i
  {
    if i < |states| {
      NoNextOfDay(states, d, i + 1);
    }
  }

  lemma {:induction false} SliceIsShifted(states: seq<NetState>, step: int, g: Group, rows: seq<Placed>, a: nat, b: nat)
    requires OrderedStates(states, step) && |rows| == |states| && a <= b <= |rows|
    requires forall j :: 0 <= j < |rows| ==> rows[j] == Placed(TargetRow(states, j), j)
    requires forall i :: 0 <= i < |rows| ==> (a <= i < b <==> rows[i].row.day == g.day)
    ensures Windowing.Regular(rows[a..b], step) && Shifted(rows[a..b])
  {
    var members := rows[a..b];
    forall i | 0 <= i < |members| - 1
      ensures members[i + 1].row.timestamp == members[i].row.timestamp + step
      ensures members[i].row.available && members[i].row.future == members[i + 1].row.attack
    {
      assert members[i] == rows[a + i] && members[i + 1] == rows[a + i + 1];
    }
  }

  lemma {:induction false} SliceEndsUnavailable(states: seq<NetState>, g: Group, rows: seq<Placed>, a: nat, b: nat)
    requires |rows| == |states| && a < b <= |rows|
    requires forall j :: 0 <= j < |rows| ==> rows[j] == Placed(TargetRow(states, j), j)
    requires forall i :: 0 <= i < |rows| ==> (a <= i < b <==> rows[i].row.day == g.day)
    ensures !Last(rows[a..b]).row.available
  {
    assert Last(rows[a..b]) == rows[b - 1];
    forall j | b <= j < |states|
      ensures states[j].day != g.day
    {
      assert rows[j].row.day == states[j].day;
    }
    assert rows[b - 1].row.day == states[b - 1].day;
    NoNextOfDay(states, g.day, b);
  }

  ghost predicate IsTable(states: seq<NetState>, rows: seq<Placed>) {
    && |rows| == |states| && DaysInOrder(rows)
    && forall i :: 0 <= i < |rows| ==> rows[i] == Placed(TargetRow(states, i), i)
  }

  ghost predicate Promised(members: seq<Placed>, step: int) {
    && Windowing.Regular(members, step) && Shifted(members)
    && (members != [] ==> !Last(members).row.available)
  }

  lemma {:induction false} SliceIsPromised(states: seq<NetState>, step: int, g: Group, rows: seq<Placed>, a: nat, b: nat)
    requires OrderedStates(states, step) && IsTable(states, rows) && a <= b <= |rows|
    requires forall i :: 0 <= i < |rows| ==> (a <= i < b <==> rows[i].row.day == g.day)
    ensures Promised(rows[a..b], step)
  {
    SliceIsShifted(states, step, g, rows, a, b);
    if a < b {
      SliceEndsUnavailable(states, g, rows, a, b);
    }
  }

  lemma {:induction false} GroupIsPromised(states: seq<NetState>, step: int, g: Group, rows: seq<Placed>)
    requires OrderedStates(states, step) && IsTable(states, rows)
    ensures Promised(Members(rows, g, false), step)
  {
    if g.split == "" {
      var a, b := DayIsSlice(rows, g);
      SliceIsPromised(states, step, g, rows, a, b);
    } else {
      NoSuchGroup(rows, g);
    }
  }

  /** What the aggregation promises of each day of the table. */
  lemma {:induction false} DayIsShifted(states: seq<NetState>, step: int, g: Group)
    requires OrderedStates(states, step)
    ensures Promised(Members(Place(TargetTable(states)), g, false), step)
  {
    TableDays(states, step);
    GroupIsPromised(states, step, g, Place(TargetTable(states)));
  }

  lemma {:induction false} NoSuchGroup(rows: seq<Placed>, g: Group)
    requires g.split != ""
    ensures Members(rows, g, false) == []
  {
    FilterKeepsNone(rows, InGroup(g, false));
  }

  lemma {:induction false} TableIsAccepted(states: seq<NetState>, step: int)
    requires OrderedStates(states, step) && step > 0
    ensures CadenceError(Place(TargetTable(states)), false, step) == None
  {
    var rows := Place(TargetTable(states));
    TableDays(states, step);
    forall i | 0 <= i < |rows|
      ensures rows[i].row.timestamp / DAY == rows[i].row.day
    {
      assert states[i].day == DayOf(states[i].timestamp);
    }
    var groups := Appearing(rows, false);
    forall i | 0 <= i < |groups|
      ensures Windowing.Regular(Members(rows, groups[i], false), step)
    {
      DayIsShifted(states, step, groups[i]);
    }
    RegularGroupsPass(rows, groups, false, step);
  }

  lemma {:induction false} TableGroupsAreShifted(states: seq<NetState>, step: int, p: Parameters)
    requires OrderedStates(states, step) && Windowing.Positive(p)
    ensures
      var table := TargetTable(states);
      var groups := GroupsOf(Place(table), false);
      && ShiftedTable(table, false) && OnlyLastsUnavailable(table, groups, false)
      && !HasExtraWindow(Place(table), groups, false, p)
  {
    var rows := Place(TargetTable(states));
    var groups := GroupsOf(rows, false);
    forall i | 0 <= i < |groups|
      ensures Shifted(Members(rows, groups[i], false)) && OnlyLastUnavailable(Members(rows, groups[i], false))
      ensures !ExtraWindow(Members(rows, groups[i], false), p.length, p.stride)
    {
      DayIsShifted(states, step, groups[i]);
    }
  }

  /** K = 1 on every aggregated table: for every length and stride the one-step builder, whether it
      skips the unavailable rows itself or they are filtered out first, and the multi-step builder
      return the same inputs, targets, origins and groups. */
  lemma {:induction false} OneStepFormsAgree(flows: seq<FlowRow>, p: Parameters)
    requires Windowing.Positive(p) && p.horizon == 1 && Interval(p.intervalSeconds * SECOND)
    ensures
      var step := p.intervalSeconds * SECOND;
      step > 0 &&
      var table := TargetTable(StatesOfFlows(flows, step));
      var inside := BuildSequences(table, false, FutureAttack, p);
      var first := BuildSequences(Filter(table, IsAvailable()), false, FutureAttack, p);
      var multi := BuildMultistepSequences(table, false, CurrentAttack, p);
      && inside.Ok? && first.Ok? && multi.Ok?
      && Map(inside.value, Seen()) == Map(multi.value, SeenMulti()) == Map(first.value, Seen())
  {
    var step := p.intervalSeconds * SECOND;
    AggregatedStatesAreOrdered(flows, step);
    var states := StatesOfFlows(flows, step);
    TableIsAccepted(states, step);
    TableGroupsAreShifted(states, step, p);
    TableIsBinary(states);
    OneStepBuildersAgreeExactly(TargetTable(states), false, p);
    FilteringFirstAgrees(TargetTable(states), false, p);
  }

  lemma {:induction false} TableIsBinary(states: seq<NetState>)
    ensures Binary(TargetTable(states))
  {
    var table := TargetTable(states);
    forall i | 0 <= i < |table|
      ensures table[i].attack == 0 || table[i].attack == 1
    {
      assert table[i] == TargetRow(states, i);
    }
  }
}
