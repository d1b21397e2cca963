/** Group-isolated windows over state tables, with one-step and multi-step targets
    (src/forecasting/windowing.py). */
module Windowing {
  import opened Prelude
  import opened SortedLists

  /** One row of a state table. `future` is the stored one-step target, meaningful when `available`. */
  datatype StateRow = StateRow(timestamp: int, split: string, day: int, features: seq<real>,
                               attack: int, future: int, available: bool)

  /** A row with its position in the input table. */
  datatype Placed = Placed(row: StateRow, position: nat)

  datatype Group = Group(split: string, day: int)

  datatype Column = CurrentAttack | FutureAttack

  datatype Parameters = Parameters(length: int, horizon: int, stride: int, intervalSeconds: int)

  datatype WindowError = NotPositive | HorizonNotOne | FutureAsSource | NotBinary | DayMismatch | NotIncreasing | WrongCadence

  datatype Window = Window(inputs: seq<seq<real>>, target: int, origin: int, targetTime: int, group: Group,
                           inputEnd: nat, targetPosition: nat)

  datatype MultiWindow = MultiWindow(inputs: seq<seq<real>>, targets: seq<int>, origin: int, targetTimes: seq<int>,
                                     group: Group, inputEnd: int, targetPositions: seq<int>)

  predicate Positive(p: Parameters) {
    p.length >= 1 && p.horizon >= 1 && p.stride >= 1 && p.intervalSeconds >= 1
  }

  // ---- Groups ----

  function Place(rows: seq<StateRow>): seq<Placed> {
    if rows == [] then [] else Place(Front(rows)) + [Placed(Last(rows), |rows| - 1)]
  }

  function GroupOf(row: StateRow, hasSplit: bool): Group {
    Group(if hasSplit then row.split else "", row.day)
  }

  predicate GroupBefore(a: Group, b: Group) {
    Before(a.split, b.split) || (a.split == b.split && a.day < b.day)
  }

  function RowGroup(hasSplit: bool): Placed -> Group {
    (r: Placed) => GroupOf(r.row, hasSplit)
  }

  /** The groups of the table in their sorted order. */
  function GroupsOf(rows: seq<Placed>, hasSplit: bool): seq<Group> {
    SortedKeys(rows, RowGroup(hasSplit), GroupBefore)
  }

  /** The groups in the order in which they first appear. */
  function Appearing(rows: seq<Placed>, hasSplit: bool): seq<Group> {
    if rows == [] then []
    else
      var earlier, g := Appearing(Front(rows), hasSplit), GroupOf(Last(rows).row, hasSplit);
      if g in earlier then earlier else earlier + [g]
  }

  function InGroup(g: Group, hasSplit: bool): Placed -> bool {
    (r: Placed) => GroupOf(r.row, hasSplit) == g
  }

  function Members(rows: seq<Placed>, g: Group, hasSplit: bool): seq<Placed> {
    Filter(rows, InGroup(g, hasSplit))
  }

  // ---- Cadence ----

  predicate Increasing(rows: seq<Placed>) {
    forall i, j :: 0 <= i < |rows| && 0 <= j < |rows| && j == i + 1 ==> rows[i].row.timestamp < rows[j].row.timestamp
  }

  predicate Regular(rows: seq<Placed>, interval: int) {
    forall i, j :: 0 <= i < |rows| && 0 <= j < |rows| && j == i + 1 ==> rows[j].row.timestamp == rows[i].row.timestamp + interval
  }

  function GroupsError(rows: seq<Placed>, groups: seq<Group>, hasSplit: bool, interval: int): Option<WindowError>
    decreases |groups|
  {
    if groups == [] then None
    else if !Increasing(Members(rows, groups[0], hasSplit)) then Some(NotIncreasing)
    else if !Regular(Members(rows, groups[0], hasSplit), interval) then Some(WrongCadence)
    else GroupsError(rows, groups[1..], hasSplit, interval)
  }

  /** The rows of each group must follow each other, in input order, one interval apart. */
  function CadenceError(rows: seq<Placed>, hasSplit: bool, interval: int): Option<WindowError> {
    if exists i :: 0 <= i < |rows| && rows[i].row.timestamp / DAY != rows[i].row.day then Some(DayMismatch)
    else GroupsError(rows, Appearing(rows, hasSplit), hasSplit, interval)
  }

  // ---- Windows of one group ----

  function Inputs(members: seq<Placed>, start: int, length: int): seq<seq<real>>
    requires 0 <= start && 0 <= length && start + length <= |members|
  {
    seq(length, i requires 0 <= i < length => members[start + i].row.features)
  }

  function TargetOf(row: StateRow, column: Column): int {
    if column.FutureAttack? then row.future else row.attack
  }

  function WindowAt(members: seq<Placed>, g: Group, length: int, offset: int, column: Column, start: int): Window
    requires length >= 1 && offset >= 0 && 0 <= start && start + length + offset <= |members|
  {
    var end := start + length - 1;
    var target := members[end + offset];
    Window(Inputs(members, start, length), TargetOf(target.row, column), members[end].row.timestamp,
           target.row.timestamp, g, members[end].position, target.position)
  }

  function MultiAt(members: seq<Placed>, g: Group, length: int, horizon: int, start: int): MultiWindow
    requires length >= 1 && horizon >= 1 && 0 <= start && start + length + horizon <= |members|
  {
    var end := start + length - 1;
    MultiWindow(Inputs(members, start, length),
                seq(horizon, j requires 0 <= j < horizon => members[end + 1 + j].row.attack),
                members[end].row.timestamp,
                seq(horizon, j requires 0 <= j < horizon => members[end + 1 + j].row.timestamp), g,
                members[end].position,
                seq(horizon, j requires 0 <= j < horizon => members[end + 1 + j].position))
  }

  predicate StartsFit(starts: seq<int>, size: int) {
    forall i :: 0 <= i < |starts| ==> 0 <= starts[i] <= size
  }

  /** The window at `start`, unless its target row has no target available. */
  function Offered(members: seq<Placed>, g: Group, length: int, offset: int, column: Column, start: int): seq<Window>
    requires length >= 1 && offset >= 0 && 0 <= start <= |members| - length - offset
  {
    if members[start + length - 1 + offset].row.available
    then [WindowAt(members, g, length, offset, column, start)] else []
  }

  function WindowsAt(members: seq<Placed>, g: Group, length: int, offset: int, column: Column, starts: seq<int>): seq<Window>
    requires length >= 1 && offset >= 0 && StartsFit(starts, |members| - length - offset)
  {
    if starts == [] then []
    else
      assert starts[|starts| - 1] == Last(starts);
      WindowsAt(members, g, length, offset, column, Front(starts)) + Offered(members, g, length, offset, column, Last(starts))
  }

  function MultiWindowsAt(members: seq<Placed>, g: Group, length: int, horizon: int, starts: seq<int>): seq<MultiWindow>
    requires length >= 1 && horizon >= 1 && StartsFit(starts, |members| - length - horizon)
  {
    if starts == [] then []
    else
      assert starts[|starts| - 1] == Last(starts);
      MultiWindowsAt(members, g, length, horizon, Front(starts)) + [MultiAt(members, g, length, horizon, Last(starts))]
  }

  lemma {:induction false} RangeFits(start: int, end: int, stride: int)
    requires stride >= 1 && 0 <= start
    ensures StartsFit(Range(start, end, stride), end)
    decreases end - start
  {
    if start <= end {
      RangeFits(start + stride, end, stride);
    }
  }

  function GroupWindows(members: seq<Placed>, g: Group, p: Parameters, offset: int, column: Column): seq<Window>
    requires Positive(p) && offset >= 0
  {
    RangeFits(0, |members| - p.length - offset, p.stride);
    WindowsAt(members, g, p.length, offset, column, Range(0, |members| - p.length - offset, p.stride))
  }

  function GroupMultiWindows(members: seq<Placed>, g: Group, p: Parameters): seq<MultiWindow>
    requires Positive(p)
  {
    RangeFits(0, |members| - p.length - p.horizon, p.stride);
    MultiWindowsAt(members, g, p.length, p.horizon, Range(0, |members| - p.length - p.horizon, p.stride))
  }

  // ---- Windows of a table ----

  function Offset(column: Column, horizon: int): int {
    if column.FutureAttack? then 0 else horizon
  }

  function AllWindows(rows: seq<Placed>, groups: seq<Group>, hasSplit: bool, p: Parameters, column: Column): seq<Window>
    requires Positive(p)
  {
    if groups == [] then []
    else
      AllWindows(rows, Front(groups), hasSplit, p, column)
      + GroupWindows(Members(rows, Last(groups), hasSplit), Last(groups), p, Offset(column, p.horizon), column)
  }

  function AllMultiWindows(rows: seq<Placed>, groups: seq<Group>, hasSplit: bool, p: Parameters): seq<MultiWindow>
    requires Positive(p)
  {
    if groups == [] then []
    else
      AllMultiWindows(rows, Front(groups), hasSplit, p)
      + GroupMultiWindows(Members(rows, Last(groups), hasSplit), Last(groups), p)
  }

  function BuildSequences(table: seq<StateRow>, hasSplit: bool, column: Column, p: Parameters): Result<seq<Window>, WindowError> {
    var rows := Place(table);
    if !Positive(p) then Err(NotPositive)
    else if column.FutureAttack? && p.horizon != 1 then Err(HorizonNotOne)
    else if table == [] then Ok([])
    else
      match CadenceError(rows, hasSplit, p.intervalSeconds * SECOND)
      case Some(e) => Err(e)
      case None => Ok(AllWindows(rows, GroupsOf(rows, hasSplit), hasSplit, p, column))
  }

  predicate Binary(table: seq<StateRow>) {
    forall i :: 0 <= i < |table| ==> table[i].attack == 0 || table[i].attack == 1
  }

  function BuildMultistepSequences(table: seq<StateRow>, hasSplit: bool, column: Column, p: Parameters)
    : Result<seq<MultiWindow>, WindowError>
  {
    var rows := Place(table);
    if !Positive(p) then Err(NotPositive)
    else if column.FutureAttack? then Err(FutureAsSource)
    else if table == [] then Ok([])
    else if !Binary(table) then Err(NotBinary)
    else
      match CadenceError(rows, hasSplit, p.intervalSeconds * SECOND)
      case Some(e) => Err(e)
      case None => Ok(AllMultiWindows(rows, GroupsOf(rows, hasSplit), hasSplit, p))
  }

  // ---- The builders' loops ----

  method WindowsUpTo(members: seq<Placed>, g: Group, length: int, offset: int, column: Column, last: int, stride: int)
    returns (windows: seq<Window>)
    requires length >= 1 && offset >= 0 && stride >= 1 && 0 <= last == |members| - length - offset
    ensures StartsFit(Range(0, last, stride), last)
    ensures windows == WindowsAt(members, g, length, offset, column, Range(0, last, stride))
  {
    windows := [];
    var start := 0;
    ghost var starts: seq<int> := [];
    while start <= last
      invariant 0 <= start <= last + stride && Reaches(0, start, stride)
      invariant starts == Range(0, start - stride, stride) && StartsFit(starts, last)
      invariant windows == WindowsAt(members, g, length, offset, column, starts)
      decreases last - start
    {
      RangeAppends(0, start, stride);
      starts := starts + [start];
      windows := windows + Offered(members, g, length, offset, column, start);
      start := start + stride;
    }
    RangeStops(0, last, start, stride);
  }

  method WindowsOfGroup(members: seq<Placed>, g: Group, p: Parameters, offset: int, column: Column) returns (windows: seq<Window>)
    requires Positive(p) && offset >= 0
    ensures windows == GroupWindows(members, g, p, offset, column)
  {
    var last := |members| - p.length - offset;
    RangeFits(0, last, p.stride);
    windows := [];
    if last >= 0 {
      windows := WindowsUpTo(members, g, p.length, offset, column, last, p.stride);
    }
  }

  /** Reads the target rows of one window one by one. */
  method FutureOf(members: seq<Placed>, g: Group, p: Parameters, start: int) returns (w: MultiWindow)
    requires Positive(p) && 0 <= start && start + p.length + p.horizon <= |members|
    ensures w == MultiAt(members, g, p.length, p.horizon, start)
  {
    var end := start + p.length - 1;
    var targets: seq<int>, times: seq<int>, positions: seq<int> := [], [], [];
    for j := 0 to p.horizon
      invariant |targets| == |times| == |positions| == j
      invariant forall i :: 0 <= i < j ==>
                  && targets[i] == members[end + 1 + i].row.attack
                  && times[i] == members[end + 1 + i].row.timestamp
                  && positions[i] == members[end + 1 + i].position
    {
      var future := members[end + 1 + j];
      targets := targets + [future.row.attack];
      times := times + [future.row.timestamp];
      positions := positions + [future.position];
    }
    w := MultiWindow(Inputs(members, start, p.length), targets, members[end].row.timestamp, times, g, members[end].position, positions);
  }

  method MultiWindowsOfGroup(members: seq<Placed>, g: Group, p: Parameters) returns (windows: seq<MultiWindow>)
    requires Positive(p)
    ensures windows == GroupMultiWindows(members, g, p)
  {
    var last := |members| - p.length - p.horizon;
    RangeFits(0, last, p.stride);
    windows := [];
    if last >= 0 {
      var start := 0;
      ghost var starts: seq<int> := [];
      while start <= last
        invariant 0 <= start <= last + p.stride && Reaches(0, start, p.stride)
        invariant starts == Range(0, start - p.stride, p.stride) && StartsFit(starts, last)
        invariant windows == MultiWindowsAt(members, g, p.length, p.horizon, starts)
        decreases last - start
      {
        RangeAppends(0, start, p.stride);
        assert Front(starts + [start]) == starts && Last(starts + [start]) == start;
        starts := starts + [start];
        var w := FutureOf(members, g, p, start);
        windows := windows + [w];
        start := start + p.stride;
      }
      RangeStops(0, last, start, p.stride);
    }
  }

  method MakeSequences(table: seq<StateRow>, hasSplit: bool, column: Column, p: Parameters)
    returns (result: Result<seq<Window>, WindowError>)
    ensures result == BuildSequences(table, hasSplit, column, p)
  {
    if !Positive(p) {
      return Err(NotPositive);
    }
    if column.FutureAttack? && p.horizon != 1 {
      return Err(HorizonNotOne);
    }
    if table == [] {
      return Ok([]);
    }
    var rows := Place(table);
    var error := CadenceError(rows, hasSplit, p.intervalSeconds * SECOND);
    if error.Some? {
      return Err(error.value);
    }
    var groups := GroupsOf(rows, hasSplit);
    var windows: seq<Window> := [];
    for i := 0 to |groups|
      invariant windows == AllWindows(rows, groups[..i], hasSplit, p, column)
    {
      var more := WindowsOfGroup(Members(rows, groups[i], hasSplit), groups[i], p, Offset(column, p.horizon), column);
      windows := windows + more;
      assert Front(groups[..i + 1]) == groups[..i];
    }
    assert groups[..|groups|] == groups;
    result := Ok(windows);
  }

  method MakeMultistepSequences(table: seq<StateRow>, hasSplit: bool, column: Column, p: Parameters)
    returns (result: Result<seq<MultiWindow>, WindowError>)
    ensures result == BuildMultistepSequences(table, hasSplit, column, p)
  {
    if !Positive(p) {
      return Err(NotPositive);
    }
    if column.FutureAttack? {
      return Err(FutureAsSource);
    }
    if table == [] {
      return Ok([]);
    }
    if !Binary(table) {
      return Err(NotBinary);
    }
    var rows := Place(table);
    var error := CadenceError(rows, hasSplit, p.intervalSeconds * SECOND);
    if error.Some? {
      return Err(error.value);
    }
    var groups := GroupsOf(rows, hasSplit);
    var windows: seq<MultiWindow> := [];
    for i := 0 to |groups|
      invariant windows == AllMultiWindows(rows, groups[..i], hasSplit, p)
    {
      var more := MultiWindowsOfGroup(Members(rows, groups[i], hasSplit), groups[i], p);
      windows := windows + more;
      assert Front(groups[..i + 1]) == groups[..i];
    }
    assert groups[..|groups|] == groups;
    result := Ok(windows);
  }
}
