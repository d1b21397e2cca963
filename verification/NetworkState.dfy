/** Fixed-interval network states: the complete state index and the aggregation of flows into
    states (src/features/network_state.py). */
module NetworkStates {
  import opened Prelude
  import opened SortedLists

  /** One flow row. `day` is the capture date the row claims; anomalous rows are left out. */
  datatype FlowRow = FlowRow(timestamp: int, day: int, anomaly: bool, malicious: bool, destinationPort: int,
                             duration: real, fwdPackets: real, bwdPackets: real, fwdBytes: real, bwdBytes: real,
                             iatMean: real, synCount: real, ackCount: real, rstCount: real, lengthMean: real)

  /** The model inputs of one state; the median duration and the means of standard deviations are
      not part of this model. */
  datatype Features = Features(flowCount: nat, byteSum: real, packetSum: real, meanDuration: real, meanIat: real,
                               synRatio: real, ackRatio: real, rstRatio: real, fwdByteShare: real, fwdPacketShare: real,
                               uniquePorts: nat, bytesPerSecond: real, packetsPerSecond: real, packetSizeMean: real)

  datatype NetState = NetState(timestamp: int, day: int, features: Features, maliciousCount: nat)

  datatype AggregateError = DateMismatch | NoValidFlows | UnsupportedInterval

  const INTERVAL_CANDIDATES: set<int> := {1 * SECOND, 5 * SECOND, 10 * SECOND, 30 * SECOND, 60 * SECOND}

  predicate Interval(step: int) {
    step in INTERVAL_CANDIDATES
  }

  function DayOf(t: int): int {
    t / DAY
  }

  // ---- The state index ----

  predicate Less(a: int, b: int) {
    a < b
  }

  function RowDay(): FlowRow -> int {
    (row: FlowRow) => DayOf(row.timestamp)
  }

  /** The days on which there are flows, in order. */
  function DaysOf(rows: seq<FlowRow>): seq<int> {
    SortedKeys(rows, RowDay(), Less)
  }

  datatype Span = Span(first: int, last: int)

  /** The earliest and latest timestamps on day `d`. */
  function SpanOf(rows: seq<FlowRow>, d: int): Option<Span> {
    if rows == [] then None
    else
      var t := Last(rows).timestamp;
      match SpanOf(Front(rows), d)
      case None => if DayOf(t) == d then Some(Span(t, t)) else None
      case Some(s) => if DayOf(t) == d then Some(Span(Min(s.first, t), Max(s.last, t))) else Some(s)
  }

  function DayIndex(rows: seq<FlowRow>, d: int, step: int): seq<int>
    requires step > 0
  {
    match SpanOf(rows, d)
    case None => []
    case Some(s) => Range(Floor(s.first, step), Floor(s.last, step), step)
  }

  function IndexOver(rows: seq<FlowRow>, days: seq<int>, step: int): seq<int>
    requires step > 0
  {
    if days == [] then [] else IndexOver(rows, Front(days), step) + DayIndex(rows, Last(days), step)
  }

  /** Every window from the first to the last flow of each day, empty ones included. */
  function StateIndex(rows: seq<FlowRow>, step: int): seq<int>
    requires step > 0
  {
    IndexOver(rows, DaysOf(rows), step)
  }

  // ---- States ----

  function InWindow(w: int, step: int): FlowRow -> bool
    requires step > 0
  {
    (row: FlowRow) => Floor(row.timestamp, step) == w
  }

  function Total(rows: seq<FlowRow>, field: FlowRow -> real): real {
    if rows == [] then 0.0 else Total(Front(rows), field) + field(Last(rows))
  }

  function Ratio(part: real, whole: real): real {
    if whole == 0.0 then 0.0 else part / whole
  }

  function Ports(rows: seq<FlowRow>): set<int> {
    set i | 0 <= i < |rows| :: rows[i].destinationPort
  }

  function FeaturesOf(rows: seq<FlowRow>, step: int): Features
    requires step > 0
  {
    var n := |rows| as real;
    var seconds := step as real / SECOND as real;
    var fwdBytes := Total(rows, (r: FlowRow) => r.fwdBytes);
    var fwdPackets := Total(rows, (r: FlowRow) => r.fwdPackets);
    var bytes := fwdBytes + Total(rows, (r: FlowRow) => r.bwdBytes);
    var packets := fwdPackets + Total(rows, (r: FlowRow) => r.bwdPackets);
    Features(|rows|, bytes, packets,
             Ratio(Total(rows, (r: FlowRow) => r.duration), n),
             Ratio(Total(rows, (r: FlowRow) => r.iatMean), n),
             Ratio(|Filter(rows, (r: FlowRow) => r.synCount > 0.0)| as real, n),
             Ratio(|Filter(rows, (r: FlowRow) => r.ackCount > 0.0)| as real, n),
             Ratio(|Filter(rows, (r: FlowRow) => r.rstCount > 0.0)| as real, n),
             Ratio(fwdBytes, bytes), Ratio(fwdPackets, packets), |Ports(rows)|,
             Ratio(bytes, seconds), Ratio(packets, seconds),
             Ratio(Total(rows, (r: FlowRow) => r.lengthMean), n))
  }

  /** The state of one window: its features depend on the flows of that window alone. */
  function StateAt(rows: seq<FlowRow>, w: int, step: int): NetState
    requires step > 0
  {
    var members := Filter(rows, InWindow(w, step));
    NetState(w, DayOf(w), FeaturesOf(members, step), |Filter(members, (r: FlowRow) => r.malicious)|)
  }

  function StateMaker(rows: seq<FlowRow>, step: int): int -> NetState
    requires step > 0
  {
    (w: int) => StateAt(rows, w, step)
  }

  function StatesAt(rows: seq<FlowRow>, windows: seq<int>, step: int): seq<NetState>
    requires step > 0
  {
    Map(windows, StateMaker(rows, step))
  }

  function StatesOfFlows(rows: seq<FlowRow>, step: int): seq<NetState>
    requires step > 0
  {
    StatesAt(rows, StateIndex(rows, step), step)
  }

  function Usable(rows: seq<FlowRow>): seq<FlowRow> {
    Filter(rows, (r: FlowRow) => !r.anomaly)
  }

  predicate DatesMatch(rows: seq<FlowRow>) {
    forall i :: 0 <= i < |rows| ==> rows[i].day == DayOf(rows[i].timestamp)
  }

  function Aggregate(rows: seq<FlowRow>, step: int): Result<seq<NetState>, AggregateError> {
    if !Interval(step) then Err(UnsupportedInterval)
    else if !DatesMatch(Usable(rows)) then Err(DateMismatch)
    else if Usable(rows) == [] then Err(NoValidFlows)
    else Ok(StatesOfFlows(Usable(rows), step))
  }

  // ---- The index is exactly the spanned windows ----

  /** Neighbours in a window list: one step apart on the same day, later anyway. */
  ghost predicate Regular(windows: seq<int>, step: int)
    requires step > 0
  {
    && (forall i, j :: 0 <= i < j < |windows| ==> windows[i] < windows[j])
    && (forall i, j :: 0 <= i && j == i + 1 < |windows| && DayOf(windows[i]) == DayOf(windows[j]) ==>
          windows[j] == windows[i] + step)
  }

  lemma {:induction false} RangeIsRegular(start: int, end: int, step: int)
    requires step > 0
    ensures Regular(Range(start, end, step), step)
    ensures Range(start, end, step) != [] ==> Range(start, end, step)[0] == start
    ensures forall i :: 0 <= i < |Range(start, end, step)| ==> start <= Range(start, end, step)[i] <= end
    decreases end - start
  {
    if start <= end {
      RangeIsRegular(start + step, end, step);
    }
  }

  lemma {:induction false} SpanHolds(rows: seq<FlowRow>, d: int)
    ensures SpanOf(rows, d).None? <==> forall i :: 0 <= i < |rows| ==> DayOf(rows[i].timestamp) != d
    ensures SpanOf(rows, d).Some? ==>
              && (forall i :: 0 <= i < |rows| && DayOf(rows[i].timestamp) == d ==>
                    SpanOf(rows, d).value.first <= rows[i].timestamp <= SpanOf(rows, d).value.last)
              && (exists i :: 0 <= i < |rows| && DayOf(rows[i].timestamp) == d && rows[i].timestamp == SpanOf(rows, d).value.first)
              && (exists i :: 0 <= i < |rows| && DayOf(rows[i].timestamp) == d && rows[i].timestamp == SpanOf(rows, d).value.last)
  {
    if rows != [] {
      var shorter := Front(rows);
      SpanHolds(shorter, d);
      assert forall i :: 0 <= i < |shorter| ==> shorter[i] == rows[i];
      if SpanOf(shorter, d).Some? {
        var i :| 0 <= i < |shorter| && DayOf(shorter[i].timestamp) == d && shorter[i].timestamp == SpanOf(shorter, d).value.first;
        var j :| 0 <= j < |shorter| && DayOf(shorter[j].timestamp) == d && shorter[j].timestamp == SpanOf(shorter, d).value.last;
        assert rows[i] == shorter[i] && rows[j] == shorter[j];
      }
      assert rows[|rows| - 1] == Last(rows);
    }
  }

  ghost predicate HasDay(rows: seq<FlowRow>, d: int) {
    exists i :: 0 <= i < |rows| && DayOf(rows[i].timestamp) == d
  }

  lemma {:induction false} DaysHold(rows: seq<FlowRow>)
    ensures Sorted(DaysOf(rows), Less)
    ensures forall d :: d in DaysOf(rows) <==> HasDay(rows, d)
  {
    KeysAreSorted(rows, RowDay(), Less);
    forall d
      ensures d in DaysOf(rows) <==> HasDay(rows, d)
    {
      KeysHold(rows, RowDay(), Less, d);
    }
  }

  lemma {:induction false} FloorStaysInDay(t: int, step: int)
    requires step > 0 && DAY % step == 0
    ensures DayOf(Floor(t, step)) == DayOf(t)
  {
    var start := DayOf(t) * DAY;
    assert start <= t < start + DAY;
    assert start == step * (DayOf(t) * (DAY / step)) by {
      assert DAY == step * (DAY / step);
    }
    MultipleHasNoRemainder(DayOf(t) * (DAY / step), step);
    FloorIsMultiple(t, step);
    if Floor(t, step) < start {
      MultiplesAreApart(Floor(t, step), start, step);
    }
  }

  lemma {:induction false} LaterDayIsLater(a: int, b: int)
    requires DayOf(a) < DayOf(b)
    ensures a < b
  {
  }

  /** Some flows of w's own day lie in or before, and in or after, the window `w`. */
  ghost predicate Spanned(rows: seq<FlowRow>, w: int, step: int)
    requires step > 0
  {
    && w % step == 0
    && (exists i :: 0 <= i < |rows| && DayOf(rows[i].timestamp) == DayOf(w) && Floor(rows[i].timestamp, step) <= w)
    && (exists j :: 0 <= j < |rows| && DayOf(rows[j].timestamp) == DayOf(w) && w <= Floor(rows[j].timestamp, step))
  }

  lemma {:induction false} DayIndexHolds(rows: seq<FlowRow>, d: int, step: int)
    requires step > 0 && DAY % step == 0
    ensures Regular(DayIndex(rows, d, step), step)
    ensures forall w :: w in DayIndex(rows, d, step) ==> DayOf(w) == d
  {
    match SpanOf(rows, d) {
      case None =>
      case Some(s) =>
        SpanHolds(rows, d);
        RangeIsRegular(Floor(s.first, step), Floor(s.last, step), step);
        FloorStaysInDay(s.first, step);
        FloorStaysInDay(s.last, step);
        forall w | w in DayIndex(rows, d, step)
          ensures DayOf(w) == d
        {
          assert Floor(s.first, step) <= w <= Floor(s.last, step);
          if DayOf(w) < d {
            LaterDayIsLater(w, Floor(s.first, step));
          } else if DayOf(w) > d {
            LaterDayIsLater(Floor(s.last, step), w);
          }
        }
    }
  }

  lemma {:induction false} DayIndexIsSpanned(rows: seq<FlowRow>, w: int, step: int)
    requires step > 0 && DAY % step == 0
    ensures w in DayIndex(rows, DayOf(w), step) <==> Spanned(rows, w, step)
  {
    var d := DayOf(w);
    SpanHolds(rows, d);
    match SpanOf(rows, d) {
      case None =>
      case Some(s) =>
        FloorIsMultiple(s.first, step);
        RangeHolds(Floor(s.first, step), Floor(s.last, step), step, w);
        SpannedByBounds(rows, s, w, step);
    }
  }

  /** Only the earliest and the latest flow of the day matter. */
  lemma {:induction false} SpannedByBounds(rows: seq<FlowRow>, s: Span, w: int, step: int)
    requires step > 0 && SpanOf(rows, DayOf(w)) == Some(s)
    ensures Spanned(rows, w, step) <==> w % step == 0 && Floor(s.first, step) <= w <= Floor(s.last, step)
  {
    SpanHolds(rows, DayOf(w));
    if Spanned(rows, w, step) {
      var i :| 0 <= i < |rows| && DayOf(rows[i].timestamp) == DayOf(w) && Floor(rows[i].timestamp, step) <= w;
      var j :| 0 <= j < |rows| && DayOf(rows[j].timestamp) == DayOf(w) && w <= Floor(rows[j].timestamp, step);
      FloorIsMonotone(s.first, rows[i].timestamp, step);
      FloorIsMonotone(rows[j].timestamp, s.last, step);
    }
  }

  lemma {:induction false} RegularConcat(xs: seq<int>, ys: seq<int>, step: int)
    requires step > 0 && Regular(xs, step) && Regular(ys, step)
    requires forall i, j :: 0 <= i < |xs| && 0 <= j < |ys| ==> DayOf(xs[i]) < DayOf(ys[j])
    ensures Regular(xs + ys, step)
  {
    forall i, j | 0 <= i < |xs| && 0 <= j < |ys|
      ensures xs[i] < ys[j]
    {
      LaterDayIsLater(xs[i], ys[j]);
    }
  }

  lemma {:induction false} IndexOverHolds(rows: seq<FlowRow>, days: seq<int>, step: int)
    requires step > 0 && DAY % step == 0 && Sorted(days, Less)
    ensures Regular(IndexOver(rows, days, step), step)
    ensures forall w :: w in IndexOver(rows, days, step) <==> DayOf(w) in days && w in DayIndex(rows, DayOf(w), step)
  {
    if days != [] {
      var earlier, today := IndexOver(rows, Front(days), step), DayIndex(rows, Last(days), step);
      IndexOverHolds(rows, Front(days), step);
      DayIndexHolds(rows, Last(days), step);
      assert days == Front(days) + [Last(days)];
      forall i, j | 0 <= i < |earlier| && 0 <= j < |today|
        ensures DayOf(earlier[i]) < DayOf(today[j])
      {
        assert earlier[i] in earlier && today[j] in today;
        var m :| 0 <= m < |Front(days)| && Front(days)[m] == DayOf(earlier[i]);
        assert days[m] < days[|days| - 1];
      }
      RegularConcat(earlier, today, step);
    }
  }

  /** The state index: in order, exactly the windows spanned by flows of their own day, and hence
      exactly one step apart within a day. */
  lemma {:induction false} IndexIsComplete(rows: seq<FlowRow>, step: int)
    requires Interval(step)
    ensures step > 0 && Regular(StateIndex(rows, step), step)
    ensures forall w :: w in StateIndex(rows, step) <==> Spanned(rows, w, step)
  {
    DaysHold(rows);
    IndexOverHolds(rows, DaysOf(rows), step);
    forall w
      ensures w in StateIndex(rows, step) <==> Spanned(rows, w, step)
    {
      DayIndexIsSpanned(rows, w, step);
      if w in DayIndex(rows, DayOf(w), step) {
        assert HasDay(rows, DayOf(w));
      }
    }
  }

  lemma {:induction false} FlowWindowIsIndexed(rows: seq<FlowRow>, row: FlowRow, step: int)
    requires Interval(step) && row in rows
    ensures step > 0 && Floor(row.timestamp, step) in StateIndex(rows, step)
  {
    IndexIsComplete(rows, step);
    FloorIsMultiple(row.timestamp, step);
    FloorStaysInDay(row.timestamp, step);
    var i :| 0 <= i < |rows| && rows[i] == row;
    assert Spanned(rows, Floor(row.timestamp, step), step);
  }

  // ---- Every flow is counted once ----

  function CountedFlows(states: seq<NetState>): nat {
    if states == [] then 0 else CountedFlows(Front(states)) + Last(states).features.flowCount
  }

  /** How many of the rows fall into one of the windows. */
  lemma {:induction false} WindowsCountRows(rows: seq<FlowRow>, windows: seq<int>, step: int)
    requires step > 0
    requires forall i, j :: 0 <= i < j < |windows| ==> windows[i] != windows[j]
    ensures CountedFlows(StatesAt(rows, windows, step)) == |Filter(rows, InWindows(windows, step))|
  {
    if windows == [] {
      NoRowInNoWindow(rows, windows, step);
    } else {
      var shorter, w := Front(windows), Last(windows);
      WindowsCountRows(rows, shorter, step);
      assert w !in shorter;
      assert windows == shorter + [w];
      OneMoreWindow(rows, shorter, w, step);
    }
  }

  function InWindows(windows: seq<int>, step: int): FlowRow -> bool
    requires step > 0
  {
    (row: FlowRow) => Floor(row.timestamp, step) in windows
  }

  lemma {:induction false} NoRowInNoWindow(rows: seq<FlowRow>, windows: seq<int>, step: int)
    requires step > 0 && windows == []
    ensures Filter(rows, InWindows(windows, step)) == []
  {
    if rows != [] {
      NoRowInNoWindow(Front(rows), windows, step);
    }
  }

  lemma {:induction false} OneMoreWindow(rows: seq<FlowRow>, windows: seq<int>, w: int, step: int)
    requires step > 0 && w !in windows
    ensures |Filter(rows, InWindows(windows + [w], step))| ==
            |Filter(rows, InWindows(windows, step))| + |Filter(rows, InWindow(w, step))|
  {
    if rows != [] {
      OneMoreWindow(Front(rows), windows, w, step);
    }
  }

  /** The flow counts of all states add up to the number of flows. */
  lemma {:induction false} EveryFlowIsCountedOnce(rows: seq<FlowRow>, step: int)
    requires Interval(step)
    ensures step > 0 && CountedFlows(StatesOfFlows(rows, step)) == |rows|
  {
    IndexIsComplete(rows, step);
    WindowsCountRows(rows, StateIndex(rows, step), step);
    forall row | row in rows
      ensures InWindows(StateIndex(rows, step), step)(row)
    {
      FlowWindowIsIndexed(rows, row, step);
    }
    FilterKeepsAll(rows, InWindows(StateIndex(rows, step), step));
  }

  // ---- Aggregated states are ordered ----

  /** An ordered state list: later each time, one step apart within a day, days as given. */
  ghost predicate OrderedStates(states: seq<NetState>, step: int) {
    && (forall i, j :: 0 <= i < j < |states| ==> states[i].timestamp < states[j].timestamp)
    && (forall i, j :: 0 <= i && j == i + 1 < |states| && states[i].day == states[j].day ==>
          states[j].timestamp == states[i].timestamp + step)
    && (forall i :: 0 <= i < |states| ==> states[i].day == DayOf(states[i].timestamp))
  }

  lemma {:induction false} AggregatedStatesAreOrdered(rows: seq<FlowRow>, step: int)
    requires Interval(step)
    ensures step > 0 && OrderedStates(StatesOfFlows(rows, step), step)
  {
    var index := StateIndex(rows, step);
    var states := StatesOfFlows(rows, step);
    IndexIsComplete(rows, step);
    MapAt(index, StateMaker(rows, step));
    forall i | 0 <= i < |states|
      ensures states[i].timestamp == index[i] && states[i].day == DayOf(index[i])
    {
      assert states[i] == StateMaker(rows, step)(index[i]);
    }
  }

  // ---- Flows that arrive in time order ----

  ghost predicate Chronological(rows: seq<FlowRow>) {
    forall i, j :: 0 <= i < j < |rows| ==> rows[i].timestamp <= rows[j].timestamp
  }

  ghost predicate NoneAfter(rows: seq<FlowRow>, t: int) {
    forall i :: 0 <= i < |rows| ==> rows[i].timestamp <= t
  }

  /** The index grows at its end: up to the new window, or by a window of a new day. */
  function Extend(index: seq<int>, w: int, step: int): seq<int>
    requires step > 0
  {
    if index == [] || DayOf(Last(index)) != DayOf(w) then index + [w]
    else index + Range(Last(index) + step, w, step)
  }

  lemma {:induction false} RangeSplits(start: int, mid: int, end: int, step: int)
    requires step > 0 && start % step == 0 && mid % step == 0 && start <= mid <= end
    ensures Range(start, end, step) == Range(start, mid, step) + Range(mid + step, end, step)
    ensures Range(start, mid, step) != [] && Last(Range(start, mid, step)) == mid
    decreases mid - start
  {
    if start < mid {
      NextMultiple(start, step);
      MultiplesAreApart(start, mid, step);
      RangeSplits(start + step, mid, end, step);
    } else {
      assert Range(mid + step, mid, step) == [];
    }
  }

  lemma {:induction false} OtherDaysKeepIndex(rows: seq<FlowRow>, row: FlowRow, days: seq<int>, step: int)
    requires step > 0 && DayOf(row.timestamp) !in days
    ensures IndexOver(rows + [row], days, step) == IndexOver(rows, days, step)
  {
    if days != [] {
      FrontAndLast(days);
      assert Last(days) in days;
      OtherDaysKeepIndex(rows, row, Front(days), step);
      assert Front(rows + [row]) == rows;
    }
  }

  lemma {:induction false} LatestIsLast(rows: seq<FlowRow>, t: int)
    requires NoneAfter(rows, t)
    ensures forall i :: 0 <= i < |DaysOf(rows)| ==> DaysOf(rows)[i] <= DayOf(t)
  {
    DaysHold(rows);
    forall i | 0 <= i < |DaysOf(rows)|
      ensures DaysOf(rows)[i] <= DayOf(t)
    {
      assert DaysOf(rows)[i] in DaysOf(rows);
      var j :| 0 <= j < |rows| && DayOf(rows[j].timestamp) == DaysOf(rows)[i];
      if DayOf(t) < DayOf(rows[j].timestamp) {
        LaterDayIsLater(t, rows[j].timestamp);
      }
    }
  }

  lemma {:induction false} FirstOfDayIndex(rows: seq<FlowRow>, row: FlowRow, step: int)
    requires step > 0 && !HasDay(rows, DayOf(row.timestamp))
    ensures DayIndex(rows + [row], DayOf(row.timestamp), step) == [Floor(row.timestamp, step)]
  {
    var t := row.timestamp;
    assert Front(rows + [row]) == rows && Last(rows + [row]) == row;
    SpanHolds(rows, DayOf(t));
    assert SpanOf(rows + [row], DayOf(t)) == Some(Span(t, t));
    assert Range(Floor(t, step) + step, Floor(t, step), step) == [];
  }

  lemma {:induction false} AppendNewDay(rows: seq<FlowRow>, row: FlowRow, step: int)
    requires step > 0 && DAY % step == 0 && NoneAfter(rows, row.timestamp)
    requires !HasDay(rows, DayOf(row.timestamp))
    ensures StateIndex(rows + [row], step) == StateIndex(rows, step) + [Floor(row.timestamp, step)]
  {
    var d, days := DayOf(row.timestamp), DaysOf(rows);
    assert Front(rows + [row]) == rows;
    DaysHold(rows);
    LatestIsLast(rows, row.timestamp);
    assert days != [] ==> Last(days) in days;
    assert DaysOf(rows + [row]) == days + [d];
    OtherDaysKeepIndex(rows, row, days, step);
    FirstOfDayIndex(rows, row, step);
    assert Front(days + [d]) == days;
  }

  /** The windows after `before`, up to `w`, have been added. */
  ghost predicate GrowsTo(before: seq<int>, after: seq<int>, w: int, step: int)
    requires step > 0
  {
    before != [] && after == before + Range(Last(before) + step, w, step) && Last(after) == w
  }

  lemma {:induction false} AppendSameDay(rows: seq<FlowRow>, row: FlowRow, step: int)
    requires step > 0 && DAY % step == 0 && NoneAfter(rows, row.timestamp)
    requires HasDay(rows, DayOf(row.timestamp))
    ensures GrowsTo(StateIndex(rows, step), StateIndex(rows + [row], step), Floor(row.timestamp, step), step)
    ensures StateIndex(rows, step) != [] && DayOf(Last(StateIndex(rows, step))) == DayOf(row.timestamp)
  {
    SameDayExtends(rows, row, step);
    var earlier := OnlyTodayGrows(rows, row, step);
    var d := DayOf(row.timestamp);
    PartsExtend(StateIndex(rows, step), StateIndex(rows + [row], step), earlier, DayIndex(rows, d, step),
                DayIndex(rows + [row], d, step), Floor(row.timestamp, step), step);
  }

  lemma {:induction false} OnlyTodayGrows(rows: seq<FlowRow>, row: FlowRow, step: int) returns (earlier: seq<int>)
    requires step > 0 && NoneAfter(rows, row.timestamp) && HasDay(rows, DayOf(row.timestamp))
    ensures StateIndex(rows, step) == earlier + DayIndex(rows, DayOf(row.timestamp), step)
    ensures StateIndex(rows + [row], step) == earlier + DayIndex(rows + [row], DayOf(row.timestamp), step)
  {
    TodayIsLast(rows, row);
    earlier := IndexOver(rows, Front(DaysOf(rows)), step);
    OtherDaysKeepIndex(rows, row, Front(DaysOf(rows)), step);
  }

  lemma {:induction false} PartsExtend(before: seq<int>, after: seq<int>, earlier: seq<int>, today: seq<int>,
                                       grown: seq<int>, w: int, step: int)
    requires step > 0 && GrowsTo(today, grown, w, step)
    requires before == earlier + today && after == earlier + grown
    ensures GrowsTo(before, after, w, step) && Last(before) == Last(today)
  {
    ConcatIsAssociative(earlier, today, Range(Last(today) + step, w, step));
    ConcatEndsWith(earlier, today);
    ConcatEndsWith(earlier, grown);
  }

  lemma {:induction false} TodayIsLast(rows: seq<FlowRow>, row: FlowRow)
    requires NoneAfter(rows, row.timestamp) && HasDay(rows, DayOf(row.timestamp))
    ensures DaysOf(rows) != [] && Last(DaysOf(rows)) == DayOf(row.timestamp)
    ensures DaysOf(rows + [row]) == DaysOf(rows)
    ensures DayOf(row.timestamp) !in Front(DaysOf(rows))
  {
    var d, days := DayOf(row.timestamp), DaysOf(rows);
    assert Front(rows + [row]) == rows;
    DaysHold(rows);
    LatestIsLast(rows, row.timestamp);
    var m :| 0 <= m < |days| && days[m] == d;
    assert days[m] <= Last(days) <= d;
    assert forall i :: 0 <= i < |Front(days)| ==> days[i] < d;
  }

  lemma {:induction false} LaterDayExtends(rows: seq<FlowRow>, row: FlowRow, step: int)
    requires step > 0 && DAY % step == 0 && NoneAfter(rows, row.timestamp)
    requires !HasDay(rows, DayOf(row.timestamp)) && DayOf(Floor(row.timestamp, step)) == DayOf(row.timestamp)
    ensures StateIndex(rows + [row], step) == Extend(StateIndex(rows, step), Floor(row.timestamp, step), step)
    ensures Last(StateIndex(rows + [row], step)) == Floor(row.timestamp, step)
  {
    AppendNewDay(rows, row, step);
    DaysHold(rows);
    NewDayExtends(rows, DayOf(row.timestamp), step);
  }

  lemma {:induction false} TodayExtends(rows: seq<FlowRow>, row: FlowRow, step: int)
    requires step > 0 && DAY % step == 0 && NoneAfter(rows, row.timestamp)
    requires HasDay(rows, DayOf(row.timestamp)) && DayOf(Floor(row.timestamp, step)) == DayOf(row.timestamp)
    ensures StateIndex(rows + [row], step) == Extend(StateIndex(rows, step), Floor(row.timestamp, step), step)
    ensures Last(StateIndex(rows + [row], step)) == Floor(row.timestamp, step)
  {
    AppendSameDay(rows, row, step);
    GrownIsExtended(StateIndex(rows, step), StateIndex(rows + [row], step), Floor(row.timestamp, step), step);
  }

  lemma {:induction false} GrownIsExtended(before: seq<int>, after: seq<int>, w: int, step: int)
    requires step > 0 && GrowsTo(before, after, w, step) && DayOf(Last(before)) == DayOf(w)
    ensures after == Extend(before, w, step) && Last(after) == w
  {
  }

  /** A flow no earlier than all others extends the index to its own window. */
  lemma {:induction false} AppendExtendsIndex(rows: seq<FlowRow>, row: FlowRow, step: int)
    requires step > 0 && DAY % step == 0 && NoneAfter(rows, row.timestamp)
    ensures StateIndex(rows + [row], step) == Extend(StateIndex(rows, step), Floor(row.timestamp, step), step)
    ensures Last(StateIndex(rows + [row], step)) == Floor(row.timestamp, step)
  {
    FloorStaysInDay(row.timestamp, step);
    if HasDay(rows, DayOf(row.timestamp)) {
      TodayExtends(rows, row, step);
    } else {
      LaterDayExtends(rows, row, step);
    }
  }

  lemma {:induction false} NewDayExtends(rows: seq<FlowRow>, d: int, step: int)
    requires step > 0 && DAY % step == 0 && d !in DaysOf(rows)
    ensures StateIndex(rows, step) != [] ==> DayOf(Last(StateIndex(rows, step))) != d
  {
    DaysHold(rows);
    IndexOverHolds(rows, DaysOf(rows), step);
    if StateIndex(rows, step) != [] {
      assert Last(StateIndex(rows, step)) in StateIndex(rows, step);
    }
  }

  lemma {:induction false} SameDayExtends(rows: seq<FlowRow>, row: FlowRow, step: int)
    requires step > 0 && DAY % step == 0 && NoneAfter(rows, row.timestamp)
    requires HasDay(rows, DayOf(row.timestamp))
    ensures
      var d := DayOf(row.timestamp);
      var before := DayIndex(rows, d, step);
      && GrowsTo(before, DayIndex(rows + [row], d, step), Floor(row.timestamp, step), step)
      && before != [] && DayOf(Last(before)) == d
  {
    var d := DayOf(row.timestamp);
    assert Front(rows + [row]) == rows;
    SpanHolds(rows, d);
    var s := SpanOf(rows, d).value;
    FloorIsMultiple(s.first, step);
    FloorIsMultiple(s.last, step);
    FloorIsMultiple(row.timestamp, step);
    FloorIsMonotone(s.first, s.last, step);
    FloorIsMonotone(s.last, row.timestamp, step);
    FloorStaysInDay(s.last, step);
    RangeSplits(Floor(s.first, step), Floor(s.last, step), Floor(row.timestamp, step), step);
    RangeSplits(Floor(s.first, step), Floor(row.timestamp, step), Floor(row.timestamp, step), step);
  }

  // ---- The loops of the program ----

  method DateRange(start: int, end: int, step: int) returns (timestamps: seq<int>)
    requires step > 0 && start <= end
    ensures timestamps == Range(start, end, step)
  {
    timestamps := [];
    var t := start;
    while t <= end
      invariant start <= t <= end + step && Reaches(start, t, step)
      invariant timestamps == Range(start, t - step, step)
      decreases end - t
    {
      RangeAppends(start, t, step);
      timestamps := timestamps + [t];
      t := t + step;
    }
    RangeStops(start, end, t, step);
  }

  method CompleteStateIndex(rows: seq<FlowRow>, step: int) returns (index: seq<int>)
    requires step > 0
    ensures index == StateIndex(rows, step)
  {
    var days := DaysOf(rows);
    DaysHold(rows);
    index := [];
    for i := 0 to |days|
      invariant index == IndexOver(rows, days[..i], step)
    {
      var d := days[i];
      assert d in days && HasDay(rows, d);
      SpanHolds(rows, d);
      var span := SpanOf(rows, d).value;
      FloorIsMonotone(span.first, span.last, step);
      var timestamps := DateRange(Floor(span.first, step), Floor(span.last, step), step);
      index := index + timestamps;
      assert Front(days[..i + 1]) == days[..i];
    }
    assert days[..|days|] == days;
  }

  method BuildStates(rows: seq<FlowRow>, index: seq<int>, step: int) returns (states: seq<NetState>)
    requires step > 0
    ensures states == StatesAt(rows, index, step)
  {
    states := [];
    for i := 0 to |index|
      invariant states == StatesAt(rows, index[..i], step)
    {
      assert index[..i + 1] == index[..i] + [index[i]];
      MapAppend(index[..i], index[i], StateMaker(rows, step));
      states := states + [StateAt(rows, index[i], step)];
    }
    assert index[..|index|] == index;
  }

  method AggregateNetworkStates(rows: seq<FlowRow>, step: int) returns (result: Result<seq<NetState>, AggregateError>)
    ensures result == Aggregate(rows, step)
  {
    if !Interval(step) {
      return Err(UnsupportedInterval);
    }
    var clean := Usable(rows);
    if !DatesMatch(clean) {
      return Err(DateMismatch);
    }
    if clean == [] {
      return Err(NoValidFlows);
    }
    var index := CompleteStateIndex(clean, step);
    var states := BuildStates(clean, index, step);
    result := Ok(states);
  }
}
