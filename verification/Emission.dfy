/** What the collector emits, over every run: exactly the aggregation of all completed flows, unless
    a call takes a state and then refuses a later one. */
module Emissions {
  import opened Prelude
  import opened SortedLists
  import opened PacketEvents
  import opened FlowBuilders
  import opened FlowSegments
  import opened NetworkStates
  import opened Collectors

  // ---- One emission ----

  /** The first `j` states have been handed over. */
  function Handing(c: Collector, states: seq<NetState>, j: nat): Collector
    requires j <= |states|
  {
    c.(stateCount := c.stateCount + j, emitted := c.emitted + states[..j],
       lastWindow := if j == 0 then c.lastWindow else Some(states[j - 1].timestamp))
  }

  /** The callback takes a prefix of the states, all of them or up to the first it refuses. */
  lemma {:induction false} EmissionTakesPrefix(c: Collector, states: seq<NetState>, takes: Callback, i: nat) returns (j: nat)
    ensures j <= |states| && (j < |states| ==> !takes(i + j)) && forall k :: i <= k < i + j ==> takes(k)
    ensures j > 0 <==> states != [] && takes(i)
    ensures Emit(c, states, takes, i) == (Handing(c, states, j), j == |states|)
    decreases |states|
  {
    if states == [] || !takes(i) {
      j := 0;
      assert c.emitted + states[..0] == c.emitted;
    } else {
      var next := c.(stateCount := c.stateCount + 1, lastWindow := Some(states[0].timestamp), emitted := c.emitted + [states[0]]);
      var m := EmissionTakesPrefix(next, states[1..], takes, i + 1);
      j := m + 1;
      assert c.emitted + [states[0]] + states[1..][..m] == c.emitted + states[..j];
    }
  }

  /** After a refusal the next emission up to the same watermark starts over: the states taken
      before the refusal, if any, are emitted a second time. */
  lemma {:induction false} RefusedEmissionStartsOver(c: Collector, current: int, refusing: Callback, accepting: Callback)
    returns (j: nat)
    requires !EmitDue(c, current, refusing).1 && forall i :: accepting(i)
    ensures
      var due := Filter(PendingStates(c.windows), StartsBefore(current));
      var stopped := EmitDue(c, current, refusing).0;
      && j < |due| && (j > 0 <==> refusing(0))
      && stopped.emitted == c.emitted + due[..j]
      && EmitDue(stopped, current, accepting).0.emitted == c.emitted + due[..j] + due
  {
    var due := Filter(PendingStates(c.windows), StartsBefore(current));
    j := EmissionTakesPrefix(c, due, refusing, 0);
    var m := EmissionTakesPrefix(EmitDue(c, current, refusing).0, due, accepting, 0);
    assert due[..m] == due;
  }

  // ---- Completed flows and their index ----

  /** A state depends only on the flows of its own window. */
  lemma {:induction false} SameMembersSameStates(rows: seq<FlowRow>, others: seq<FlowRow>, windows: seq<int>, step: int)
    requires step > 0
    requires forall i :: 0 <= i < |windows| ==>
               Filter(rows, InWindow(windows[i], step)) == Filter(others, InWindow(windows[i], step))
    ensures StatesAt(rows, windows, step) == StatesAt(others, windows, step)
  {
    forall i | 0 <= i < |windows|
      ensures StateMaker(rows, step)(windows[i]) == StateMaker(others, step)(windows[i])
    {
    }
    MapsAgree(windows, StateMaker(rows, step), StateMaker(others, step));
  }

  ghost predicate SameTime(rows: seq<FlowRow>, t: int) {
    forall i :: 0 <= i < |rows| ==> rows[i].timestamp == t
  }

  /** Flows that all complete now extend the index once. */
  lemma {:induction false} CompletionsExtendIndex(rows: seq<FlowRow>, done: seq<FlowRow>, t: int)
    requires NoneAfter(rows, t) && SameTime(done, t) && done != []
    ensures StateIndex(rows + done, STATE_INTERVAL) == Extend(StateIndex(rows, STATE_INTERVAL), WindowOf(t), STATE_INTERVAL)
    ensures StateIndex(rows + done, STATE_INTERVAL) != [] && Last(StateIndex(rows + done, STATE_INTERVAL)) == WindowOf(t)
  {
    var fewer := Front(done);
    assert rows + done == (rows + fewer) + [Last(done)];
    assert NoneAfter(rows + fewer, t);
    AppendExtendsIndex(rows + fewer, Last(done), STATE_INTERVAL);
    if fewer == [] {
      assert rows + fewer == rows;
    } else {
      CompletionsExtendIndex(rows, fewer, t);
      var index := StateIndex(rows + fewer, STATE_INTERVAL);
      assert Range(WindowOf(t) + STATE_INTERVAL, WindowOf(t), STATE_INTERVAL) == [];
      assert index + [] == index;
    }
  }

  /** Flows of one window, in time order, have that window for their index. */
  lemma {:induction false} OneWindowIndex(rows: seq<FlowRow>, w: int)
    requires rows != [] && Chronological(rows)
    requires forall i :: 0 <= i < |rows| ==> WindowOf(rows[i].timestamp) == w
    ensures StateIndex(rows, STATE_INTERVAL) == [w]
  {
    var fewer := Front(rows);
    FrontAndLast(rows);
    AppendExtendsIndex(fewer, Last(rows), STATE_INTERVAL);
    if fewer == [] {
      assert StateIndex(fewer, STATE_INTERVAL) == [];
    } else {
      OneWindowIndex(fewer, w);
      assert Range(w + STATE_INTERVAL, w, STATE_INTERVAL) == [];
    }
  }

  lemma {:induction false} FrontIsEarlier(windows: seq<int>)
    requires windows != [] && Regular(windows, STATE_INTERVAL)
    ensures forall i :: 0 <= i < |Front(windows)| ==> Front(windows)[i] < Last(windows)
  {
  }

  lemma {:induction false} AllStartBefore(rows: seq<FlowRow>, windows: seq<int>, w: int)
    requires forall i :: 0 <= i < |windows| ==> windows[i] < w
    ensures Filter(StatesAt(rows, windows, STATE_INTERVAL), StartsBefore(w)) == StatesAt(rows, windows, STATE_INTERVAL)
  {
    var states := StatesAt(rows, windows, STATE_INTERVAL);
    MapAt(windows, StateMaker(rows, STATE_INTERVAL));
    forall s | s in states
      ensures StartsBefore(w)(s)
    {
      var i :| 0 <= i < |states| && states[i] == s;
      assert states[i].timestamp == windows[i];
    }
    FilterKeepsAll(states, StartsBefore(w));
  }

  /** Of the pending states all but the newest are due. */
  lemma {:induction false} DueAreAllButNewest(rows: seq<FlowRow>, windows: seq<int>)
    requires windows != [] && Regular(windows, STATE_INTERVAL)
    ensures Filter(StatesAt(rows, windows, STATE_INTERVAL), StartsBefore(Last(windows)))
            == StatesAt(rows, Front(windows), STATE_INTERVAL)
  {
    FrontAndLast(windows);
    FrontIsEarlier(windows);
    MapAppend(Front(windows), Last(windows), StateMaker(rows, STATE_INTERVAL));
    FilterAppend(StatesAt(rows, Front(windows), STATE_INTERVAL), StateAt(rows, Last(windows), STATE_INTERVAL),
                 StartsBefore(Last(windows)));
    AllStartBefore(rows, Front(windows), Last(windows));
  }

  // ---- The flows that wait ----

  ghost predicate PaneHolds(p: Pane) {
    p.flows != [] && forall i :: 0 <= i < |p.flows| ==> WindowOf(p.flows[i].timestamp) == p.window
  }

  /** Every pane holds flows of its own window, and later panes are of later windows. */
  ghost predicate Panes(windows: seq<Pane>) {
    && (forall i :: 0 <= i < |windows| ==> PaneHolds(windows[i]))
    && (forall i, j :: 0 <= i < j < |windows| ==> windows[i].window < windows[j].window)
  }

  ghost predicate AllBefore(rows: seq<FlowRow>, w: int) {
    forall i :: 0 <= i < |rows| ==> WindowOf(rows[i].timestamp) < w
  }

  lemma {:induction false} PendingAppend(windows: seq<Pane>, p: Pane)
    ensures PendingFlows(windows + [p]) == PendingFlows(windows) + p.flows
  {
    if windows == [] {
      assert (windows + [p])[1..] == [] && p.flows + [] == p.flows;
    } else {
      PendingAppend(windows[1..], p);
      assert (windows + [p])[1..] == windows[1..] + [p];
    }
  }

  lemma {:induction false} PendingIsBefore(windows: seq<Pane>, w: int)
    requires forall i :: 0 <= i < |windows| ==> PaneHolds(windows[i]) && windows[i].window < w
    ensures AllBefore(PendingFlows(windows), w)
    ensures PendingFlows(windows) == [] <==> windows == []
  {
    if windows != [] {
      assert PaneHolds(windows[0]);
      PendingIsBefore(windows[1..], w);
    }
  }

  /** The panes before window `w`. */
  function OlderPanes(windows: seq<Pane>, w: int): seq<Pane> {
    if windows != [] && Last(windows).window == w then Front(windows) else windows
  }

  /** The flows that wait in window `w` already. */
  function WaitingIn(windows: seq<Pane>, w: int): seq<FlowRow> {
    if windows != [] && Last(windows).window == w then Last(windows).flows else []
  }

  /** The panes once flows `done` have completed in window `w`. */
  function AddPane(windows: seq<Pane>, w: int, done: seq<FlowRow>): seq<Pane> {
    OlderPanes(windows, w) + [Pane(w, WaitingIn(windows, w) + done)]
  }

  ghost predicate PanesBefore(windows: seq<Pane>, w: int) {
    Panes(windows) && forall i :: 0 <= i < |windows| ==> windows[i].window < w
  }

  lemma {:induction false} OlderPanesAreBefore(windows: seq<Pane>, w: int)
    requires Panes(windows) && (windows != [] ==> Last(windows).window <= w)
    ensures PanesBefore(OlderPanes(windows, w), w)
  {
  }

  lemma {:induction false} NewestPaneHolds(windows: seq<Pane>, w: int, done: seq<FlowRow>)
    requires Panes(windows) && done != [] && forall i :: 0 <= i < |done| ==> WindowOf(done[i].timestamp) == w
    ensures PaneHolds(Pane(w, WaitingIn(windows, w) + done))
  {
    if windows != [] {
      assert PaneHolds(windows[|windows| - 1]);
    }
  }

  lemma {:induction false} PanesAppend(windows: seq<Pane>, p: Pane)
    requires PanesBefore(windows, p.window) && PaneHolds(p)
    ensures Panes(windows + [p]) && Panes([p])
  {
  }

  lemma {:induction false} AddedPaneHolds(windows: seq<Pane>, w: int, done: seq<FlowRow>)
    requires Panes(windows) && (windows != [] ==> Last(windows).window <= w)
    requires done != [] && forall i :: 0 <= i < |done| ==> WindowOf(done[i].timestamp) == w
    ensures Panes(AddPane(windows, w, done)) && Panes([Last(AddPane(windows, w, done))])
    ensures PanesBefore(OlderPanes(windows, w), w)
  {
    OlderPanesAreBefore(windows, w);
    NewestPaneHolds(windows, w, done);
    PanesAppend(OlderPanes(windows, w), Pane(w, WaitingIn(windows, w) + done));
  }

  lemma {:induction false} AddedPaneWaits(windows: seq<Pane>, w: int, done: seq<FlowRow>)
    ensures PendingFlows(AddPane(windows, w, done)) == PendingFlows(windows) + done
  {
    var older, waiting := OlderPanes(windows, w), WaitingIn(windows, w);
    PendingAppend(older, Pane(w, waiting + done));
    assert PendingFlows(older) + (waiting + done) == PendingFlows(older) + waiting + done;
    if windows != [] && Last(windows).window == w {
      FrontAndLast(windows);
      PendingAppend(older, Last(windows));
    } else {
      assert PendingFlows(older) + waiting == PendingFlows(older);
    }
  }

  lemma {:induction false} PutIntoLast(before: seq<Pane>, w: int, flows: seq<FlowRow>, row: FlowRow)
    requires WindowOf(row.timestamp) == w && forall i :: 0 <= i < |before| ==> before[i].window != w
    ensures PutRow(before + [Pane(w, flows)], row) == before + [Pane(w, flows + [row])]
    ensures PutRow(before, row) == before + [Pane(w, [row])]
  {
    if before != [] {
      PutIntoLast(before[1..], w, flows, row);
      assert (before + [Pane(w, flows)])[1..] == before[1..] + [Pane(w, flows)];
      assert before == [before[0]] + before[1..];
    }
  }

  /** Completed flows of one window gather in its pane. */
  lemma {:induction false} AcceptFillsPane(c: Collector, before: seq<Pane>, w: int, flows: seq<FlowRow>, rows: seq<FlowRow>)
    requires c.windows == before + [Pane(w, flows)] && forall i :: 0 <= i < |before| ==> before[i].window != w
    requires forall i :: 0 <= i < |rows| ==> WindowOf(rows[i].timestamp) == w
    ensures AcceptRows(c, rows) == c.(windows := before + [Pane(w, flows + rows)], flowCount := c.flowCount + |rows|,
                                      completed := c.completed + rows)
    decreases |rows|
  {
    if rows == [] {
      assert flows + rows == flows && c.completed + rows == c.completed;
    } else {
      PutIntoLast(before, w, flows, rows[0]);
      var next := c.(windows := PutRow(c.windows, rows[0]), flowCount := c.flowCount + 1, completed := c.completed + [rows[0]]);
      AcceptFillsPane(next, before, w, flows + [rows[0]], rows[1..]);
      assert flows + [rows[0]] + rows[1..] == flows + rows;
      assert c.completed + [rows[0]] + rows[1..] == c.completed + rows;
    }
  }

  lemma {:induction false} AcceptOpensPane(c: Collector, w: int, rows: seq<FlowRow>)
    requires rows != [] && forall i :: 0 <= i < |c.windows| ==> c.windows[i].window != w
    requires forall i :: 0 <= i < |rows| ==> WindowOf(rows[i].timestamp) == w
    ensures AcceptRows(c, rows) == c.(windows := c.windows + [Pane(w, rows)], flowCount := c.flowCount + |rows|,
                                      completed := c.completed + rows)
  {
    PutIntoLast(c.windows, w, [], rows[0]);
    var next := c.(windows := PutRow(c.windows, rows[0]), flowCount := c.flowCount + 1, completed := c.completed + [rows[0]]);
    AcceptFillsPane(next, c.windows, w, [rows[0]], rows[1..]);
    assert [rows[0]] + rows[1..] == rows;
    assert c.completed + [rows[0]] + rows[1..] == c.completed + rows;
  }

  lemma {:induction false} AcceptAddsPane(c: Collector, done: seq<FlowRow>, t: int)
    requires Panes(c.windows) && (c.windows != [] ==> Last(c.windows).window <= WindowOf(t))
    requires SameTime(done, t) && done != []
    ensures AcceptRows(c, done) == c.(windows := AddPane(c.windows, WindowOf(t), done), flowCount := c.flowCount + |done|,
                                      completed := c.completed + done)
  {
    if c.windows != [] && Last(c.windows).window == WindowOf(t) {
      FrontAndLast(c.windows);
      AcceptFillsPane(c, Front(c.windows), WindowOf(t), Last(c.windows).flows, done);
    } else {
      AcceptOpensPane(c, WindowOf(t), done);
      assert [] + done == done;
    }
  }

  lemma {:induction false} FilterPanes(before: seq<Pane>, pane: Pane, w: int)
    requires pane.window >= w && forall i :: 0 <= i < |before| ==> before[i].window < w
    ensures Filter(before + [pane], NotBefore(w)) == [pane]
    ensures before == [] ==> Filter([pane], NotBefore(w)) == [pane]
  {
    FilterAppend(before, pane, NotBefore(w));
    FilterKeepsNone(before, NotBefore(w));
    assert before == [] ==> before + [pane] == [pane];
  }

  // ---- The waiting flows within all completed flows ----

  ghost predicate EndsWithRows(rows: seq<FlowRow>, tail: seq<FlowRow>) {
    |tail| <= |rows| && rows[|rows| - |tail|..] == tail
  }

  function HeadOf(rows: seq<FlowRow>, tail: seq<FlowRow>): seq<FlowRow>
    requires |tail| <= |rows|
  {
    rows[..|rows| - |tail|]
  }

  /** The windows of all completed flows, up to those of the waiting ones. */
  function SettledBy(rows: seq<FlowRow>, tail: seq<FlowRow>): seq<int> {
    var all, open := StateIndex(rows, STATE_INTERVAL), StateIndex(tail, STATE_INTERVAL);
    if |open| <= |all| then all[..|all| - |open|] else []
  }

  /** The waiting flows are the newest completed ones, from some window on, and their index is the
      end of the whole index. */
  ghost predicate Waits(rows: seq<FlowRow>, tail: seq<FlowRow>) {
    && EndsWithRows(rows, tail) && (rows != [] ==> tail != [])
    && (tail != [] ==> AllBefore(HeadOf(rows, tail), WindowOf(tail[0].timestamp)))
    && StateIndex(rows, STATE_INTERVAL) == SettledBy(rows, tail) + StateIndex(tail, STATE_INTERVAL)
  }

  lemma {:induction false} SettledIsFront(rows: seq<FlowRow>, tail: seq<FlowRow>, settled: seq<int>)
    requires StateIndex(rows, STATE_INTERVAL) == settled + StateIndex(tail, STATE_INTERVAL)
    ensures SettledBy(rows, tail) == settled
  {
  }

  lemma {:induction false} ExtendAfter(before: seq<int>, index: seq<int>, w: int)
    requires index != []
    ensures Extend(before + index, w, STATE_INTERVAL) == before + Extend(index, w, STATE_INTERVAL)
  {
    var more := if DayOf(Last(index)) != DayOf(w) then [w] else Range(Last(index) + STATE_INTERVAL, w, STATE_INTERVAL);
    assert Last(before + index) == Last(index);
    assert before + index + more == before + (index + more);
  }

  lemma {:induction false} IndexIsNotEmpty(rows: seq<FlowRow>)
    requires rows != []
    ensures StateIndex(rows, STATE_INTERVAL) != []
    ensures WindowOf(rows[0].timestamp) in StateIndex(rows, STATE_INTERVAL)
  {
    FlowWindowIsIndexed(rows, rows[0], STATE_INTERVAL);
  }

  lemma {:induction false} IndexesExtend(rows: seq<FlowRow>, tail: seq<FlowRow>, done: seq<FlowRow>, t: int,
                                         settled: seq<int>)
    requires StateIndex(rows, STATE_INTERVAL) == settled + StateIndex(tail, STATE_INTERVAL)
    requires tail == [] ==> rows == []
    requires NoneAfter(rows, t) && NoneAfter(tail, t) && SameTime(done, t) && done != []
    ensures StateIndex(rows + done, STATE_INTERVAL) == settled + StateIndex(tail + done, STATE_INTERVAL)
    ensures StateIndex(tail + done, STATE_INTERVAL) != [] && Last(StateIndex(tail + done, STATE_INTERVAL)) == WindowOf(t)
  {
    CompletionsExtendIndex(rows, done, t);
    CompletionsExtendIndex(tail, done, t);
    if tail == [] {
      assert settled == [];
    } else {
      IndexIsNotEmpty(tail);
      ExtendAfter(settled, StateIndex(tail, STATE_INTERVAL), WindowOf(t));
    }
  }

  /** New completions extend the index of the waiting flows and settle nothing. */
  lemma {:induction false} CompletionsWait(rows: seq<FlowRow>, tail: seq<FlowRow>, done: seq<FlowRow>, t: int)
    requires Waits(rows, tail) && NoneAfter(rows, t) && NoneAfter(tail, t) && SameTime(done, t) && done != []
    ensures Waits(rows + done, tail + done) && SettledBy(rows + done, tail + done) == SettledBy(rows, tail)
    ensures StateIndex(tail + done, STATE_INTERVAL) != [] && Last(StateIndex(tail + done, STATE_INTERVAL)) == WindowOf(t)
  {
    IndexesExtend(rows, tail, done, t, SettledBy(rows, tail));
    SettledIsFront(rows + done, tail + done, SettledBy(rows, tail));
    TailGrows(rows, tail, done);
  }

  lemma {:induction false} TailGrows(rows: seq<FlowRow>, tail: seq<FlowRow>, done: seq<FlowRow>)
    requires EndsWithRows(rows, tail)
    ensures EndsWithRows(rows + done, tail + done) && HeadOf(rows + done, tail + done) == HeadOf(rows, tail)
    ensures tail != [] ==> (tail + done)[0] == tail[0]
  {
  }

  lemma {:induction false} TailShrinks(rows: seq<FlowRow>, older: seq<FlowRow>, newest: seq<FlowRow>)
    requires EndsWithRows(rows, older + newest)
    ensures EndsWithRows(rows, newest) && HeadOf(rows, newest) == HeadOf(rows, older + newest) + older
  {
  }

  lemma {:induction false} FrontSettles(settled: seq<int>, open: seq<int>)
    requires open != []
    ensures settled + open == settled + Front(open) + [Last(open)]
  {
  }

  /** Once the older waiting flows are emitted, only those of the newest window wait. */
  lemma {:induction false} OlderSettle(rows: seq<FlowRow>, tail: seq<FlowRow>, older: seq<FlowRow>,
                                       newest: seq<FlowRow>, w: int)
    requires Waits(rows, tail) && tail == older + newest && Chronological(newest) && newest != []
    requires forall i :: 0 <= i < |newest| ==> WindowOf(newest[i].timestamp) == w
    requires AllBefore(older, w) && StateIndex(tail, STATE_INTERVAL) != [] && Last(StateIndex(tail, STATE_INTERVAL)) == w
    ensures Waits(rows, newest)
    ensures SettledBy(rows, newest) == SettledBy(rows, tail) + Front(StateIndex(tail, STATE_INTERVAL))
    ensures StateIndex(newest, STATE_INTERVAL) == [w]
  {
    var settled, open := SettledBy(rows, tail), StateIndex(tail, STATE_INTERVAL);
    OneWindowIndex(newest, w);
    FrontSettles(settled, open);
    SettledIsFront(rows, newest, settled + Front(open));
    TailShrinks(rows, older, newest);
    assert tail[0] == if older != [] then older[0] else newest[0];
    assert WindowOf(tail[0].timestamp) <= w;
  }

  lemma {:induction false} SpannedFromFirst(rows: seq<FlowRow>, w: int)
    requires Chronological(rows) && rows != [] && Spanned(rows, w, STATE_INTERVAL)
    ensures WindowOf(rows[0].timestamp) <= w
  {
    var j :| 0 <= j < |rows| && DayOf(rows[j].timestamp) == DayOf(w) && Floor(rows[j].timestamp, STATE_INTERVAL) <= w;
    FloorIsMonotone(rows[0].timestamp, rows[j].timestamp, STATE_INTERVAL);
  }

  lemma {:induction false} FirstWindow(rows: seq<FlowRow>)
    requires Chronological(rows) && rows != []
    ensures
      var index := StateIndex(rows, STATE_INTERVAL);
      forall i :: 0 <= i < |index| ==> WindowOf(rows[0].timestamp) <= index[i]
  {
    var index := StateIndex(rows, STATE_INTERVAL);
    forall i | 0 <= i < |index|
      ensures WindowOf(rows[0].timestamp) <= index[i]
    {
      IndexIsComplete(rows, STATE_INTERVAL);
      assert index[i] in index;
      SpannedFromFirst(rows, index[i]);
    }
  }

  /** Settled windows are earlier than those of the waiting flows. */
  lemma {:induction false} SettledIsEarlier(rows: seq<FlowRow>, tail: seq<FlowRow>)
    requires Waits(rows, tail) && tail != []
    ensures forall i :: 0 <= i < |SettledBy(rows, tail)| ==> SettledBy(rows, tail)[i] < WindowOf(tail[0].timestamp)
  {
    var settled, open := SettledBy(rows, tail), StateIndex(tail, STATE_INTERVAL);
    IndexIsNotEmpty(tail);
    IndexIsComplete(rows, STATE_INTERVAL);
    var m :| 0 <= m < |open| && open[m] == WindowOf(tail[0].timestamp);
    assert (settled + open)[|settled| + m] == open[m];
  }

  /** States of windows without a new flow stay as they were. */
  lemma {:induction false} EarlierStatesStay(rows: seq<FlowRow>, done: seq<FlowRow>, windows: seq<int>, t: int)
    requires SameTime(done, t) && forall i :: 0 <= i < |windows| ==> windows[i] < WindowOf(t)
    ensures StatesAt(rows + done, windows, STATE_INTERVAL) == StatesAt(rows, windows, STATE_INTERVAL)
  {
    forall i | 0 <= i < |windows|
      ensures Filter(rows + done, InWindow(windows[i], STATE_INTERVAL)) == Filter(rows, InWindow(windows[i], STATE_INTERVAL))
    {
      FilterConcat(rows, done, InWindow(windows[i], STATE_INTERVAL));
      FilterKeepsNone(done, InWindow(windows[i], STATE_INTERVAL));
    }
    SameMembersSameStates(rows + done, rows, windows, STATE_INTERVAL);
  }

  /** The states of later windows depend on the waiting flows only. */
  lemma {:induction false} TailDecidesStates(rows: seq<FlowRow>, tail: seq<FlowRow>, windows: seq<int>, w: int)
    requires EndsWithRows(rows, tail) && AllBefore(HeadOf(rows, tail), w)
    requires forall i :: 0 <= i < |windows| ==> w <= windows[i]
    ensures StatesAt(tail, windows, STATE_INTERVAL) == StatesAt(rows, windows, STATE_INTERVAL)
  {
    var head := HeadOf(rows, tail);
    assert head + tail == rows;
    forall i | 0 <= i < |windows|
      ensures Filter(tail, InWindow(windows[i], STATE_INTERVAL)) == Filter(rows, InWindow(windows[i], STATE_INTERVAL))
    {
      FilterConcat(head, tail, InWindow(windows[i], STATE_INTERVAL));
      FilterKeepsNone(head, InWindow(windows[i], STATE_INTERVAL));
    }
    SameMembersSameStates(tail, rows, windows, STATE_INTERVAL);
  }

  /** Settled states followed by those of the waiting flows are all states. */
  lemma {:induction false} SettledAndOpen(rows: seq<FlowRow>, tail: seq<FlowRow>)
    requires Waits(rows, tail) && Chronological(rows)
    ensures StatesAt(rows, SettledBy(rows, tail), STATE_INTERVAL) + StatesOfFlows(tail, STATE_INTERVAL)
            == StatesOfFlows(rows, STATE_INTERVAL)
  {
    var settled, open := SettledBy(rows, tail), StateIndex(tail, STATE_INTERVAL);
    MapConcat(settled, open, StateMaker(rows, STATE_INTERVAL));
    if tail == [] {
      assert rows == tail;
    } else {
      SuffixIsChronological(rows, tail);
      FirstWindow(tail);
      TailDecidesStates(rows, tail, open, WindowOf(tail[0].timestamp));
    }
  }

  lemma {:induction false} SuffixIsChronological(rows: seq<FlowRow>, tail: seq<FlowRow>)
    requires Chronological(rows) && EndsWithRows(rows, tail)
    ensures Chronological(tail) && forall t :: NoneAfter(rows, t) ==> NoneAfter(tail, t)
  {
    assert forall i :: 0 <= i < |tail| ==> tail[i] == rows[|rows| - |tail| + i];
  }

  // ---- One completion ----

  function LastOf(windows: seq<int>): Option<int> {
    if windows == [] then None else Some(Last(windows))
  }

  ghost predicate Watermarked(rows: seq<FlowRow>, lastEvent: Option<int>) {
    && Chronological(rows)
    && (rows != [] ==> lastEvent.Some?)
    && (lastEvent.Some? ==> NoneAfter(rows, lastEvent.value))
  }

  function SettledOf(rows: seq<FlowRow>, windows: seq<Pane>): seq<int> {
    SettledBy(rows, PendingFlows(windows))
  }

  ghost predicate Scheduled(rows: seq<FlowRow>, windows: seq<Pane>) {
    Chronological(rows) && Panes(windows) && Waits(rows, PendingFlows(windows))
  }

  lemma {:induction false} NewestPaneIsPast(rows: seq<FlowRow>, windows: seq<Pane>, t: int)
    requires Scheduled(rows, windows) && NoneAfter(rows, t) && windows != []
    ensures Last(windows).window <= WindowOf(t)
  {
    var before, newest := Front(windows), Last(windows);
    FrontAndLast(windows);
    PendingAppend(before, newest);
    assert PaneHolds(newest);
    var tail := PendingFlows(windows);
    assert Last(newest.flows) == Last(tail) == Last(rows);
    assert NoneAfter(rows, t) ==> Last(rows).timestamp <= t;
    FloorIsMonotone(Last(rows).timestamp, t, STATE_INTERVAL);
  }

  /** The states due when flows `done` complete at `t`. */
  function DueAt(windows: seq<Pane>, done: seq<FlowRow>, t: int): seq<NetState> {
    Filter(PendingStates(AddPane(windows, WindowOf(t), done)), StartsBefore(WindowOf(t)))
  }

  /** The windows that they settle. */
  function Settling(windows: seq<Pane>, done: seq<FlowRow>): seq<int> {
    var index := StateIndex(PendingFlows(windows) + done, STATE_INTERVAL);
    if index == [] then [] else Front(index)
  }

  ghost predicate Completing(rows: seq<FlowRow>, windows: seq<Pane>, done: seq<FlowRow>, t: int) {
    Scheduled(rows, windows) && NoneAfter(rows, t) && SameTime(done, t) && done != []
  }

  lemma {:induction false} CompletionsAreChronological(rows: seq<FlowRow>, done: seq<FlowRow>, t: int)
    requires Chronological(rows) && NoneAfter(rows, t) && SameTime(done, t)
    ensures Chronological(rows + done)
  {
  }

  lemma {:induction false} CompletionIsScheduled(rows: seq<FlowRow>, windows: seq<Pane>, done: seq<FlowRow>, t: int)
    requires Completing(rows, windows, done, t)
    ensures
      var added := AddPane(windows, WindowOf(t), done);
      && Scheduled(rows + done, added) && SettledOf(rows + done, added) == SettledOf(rows, windows)
      && PendingFlows(added) == PendingFlows(windows) + done
      && StateIndex(PendingFlows(added), STATE_INTERVAL) != []
      && Last(StateIndex(PendingFlows(added), STATE_INTERVAL)) == WindowOf(t)
  {
    var tail := PendingFlows(windows);
    if windows != [] {
      NewestPaneIsPast(rows, windows, t);
    }
    SuffixIsChronological(rows, tail);
    CompletionsAreChronological(rows, done, t);
    AddedPaneHolds(windows, WindowOf(t), done);
    AddedPaneWaits(windows, WindowOf(t), done);
    CompletionsWait(rows, tail, done, t);
  }

  /** The states due are those of the windows that become settled. */
  lemma {:induction false} DueSettlesWindows(rows: seq<FlowRow>, windows: seq<Pane>, done: seq<FlowRow>, t: int)
    requires Completing(rows, windows, done, t)
    ensures DueAt(windows, done, t) == StatesAt(rows + done, Settling(windows, done), STATE_INTERVAL)
  {
    var tail := PendingFlows(windows) + done;
    var index := StateIndex(tail, STATE_INTERVAL);
    CompletionIsScheduled(rows, windows, done, t);
    IndexIsComplete(tail, STATE_INTERVAL);
    DueAreAllButNewest(tail, index);
    SuffixIsChronological(rows + done, tail);
    FirstWindow(tail);
    TailDecidesStates(rows + done, tail, Front(index), WindowOf(tail[0].timestamp));
  }

  lemma {:induction false} SettledStatesStay(rows: seq<FlowRow>, windows: seq<Pane>, done: seq<FlowRow>, t: int)
    requires Completing(rows, windows, done, t)
    ensures StatesAt(rows + done, SettledOf(rows, windows), STATE_INTERVAL) == StatesAt(rows, SettledOf(rows, windows), STATE_INTERVAL)
  {
    var tail := PendingFlows(windows) + done;
    CompletionIsScheduled(rows, windows, done, t);
    SuffixIsChronological(rows, PendingFlows(windows));
    SettledIsEarlier(rows + done, tail);
    assert tail[0].timestamp <= t;
    FloorIsMonotone(tail[0].timestamp, t, STATE_INTERVAL);
    EarlierStatesStay(rows, done, SettledOf(rows, windows), t);
  }

  /** A full emission leaves the newest pane. */
  lemma {:induction false} NewestPaneIsLeft(windows: seq<Pane>, done: seq<FlowRow>, t: int)
    requires Panes(windows) && (windows != [] ==> Last(windows).window <= WindowOf(t)) && SameTime(done, t) && done != []
    ensures
      var added := AddPane(windows, WindowOf(t), done);
      var older, newest := PendingFlows(OlderPanes(windows, WindowOf(t))), Last(added);
      && Filter(added, NotBefore(WindowOf(t))) == [newest] && Panes([newest]) && newest.window == WindowOf(t)
      && PendingFlows([newest]) == newest.flows
      && PendingFlows(added) == older + newest.flows && AllBefore(older, WindowOf(t))
  {
    var w := WindowOf(t);
    var older, newest := OlderPanes(windows, w), Pane(w, WaitingIn(windows, w) + done);
    AddedPaneHolds(windows, w, done);
    FilterPanes(older, newest, w);
    PendingAppend(older, newest);
    PendingAppend([], newest);
    assert [] + [newest] == [newest] && [] + newest.flows == newest.flows;
    PendingIsBefore(older, w);
  }

  /** After a full emission the newest window's flows are left. */
  lemma {:induction false} EmissionLeavesNewest(rows: seq<FlowRow>, windows: seq<Pane>, done: seq<FlowRow>, t: int)
    requires Completing(rows, windows, done, t)
    ensures
      var left := Filter(AddPane(windows, WindowOf(t), done), NotBefore(WindowOf(t)));
      && |left| == 1 && Scheduled(rows + done, left)
      && SettledOf(rows + done, left) == SettledOf(rows, windows) + Settling(windows, done)
  {
    var added := AddPane(windows, WindowOf(t), done);
    var older, newest := PendingFlows(OlderPanes(windows, WindowOf(t))), Last(added);
    CompletionIsScheduled(rows, windows, done, t);
    if windows != [] {
      NewestPaneIsPast(rows, windows, t);
    }
    NewestPaneIsLeft(windows, done, t);
    NewestFlowsWait(rows + done, PendingFlows(added), older, newest);
  }

  lemma {:induction false} NewestFlowsWait(rows: seq<FlowRow>, tail: seq<FlowRow>, older: seq<FlowRow>, newest: Pane)
    requires Chronological(rows) && Waits(rows, tail) && tail == older + newest.flows && AllBefore(older, newest.window)
    requires Panes([newest]) && StateIndex(tail, STATE_INTERVAL) != []
    requires Last(StateIndex(tail, STATE_INTERVAL)) == newest.window
    ensures Waits(rows, newest.flows)
    ensures SettledBy(rows, newest.flows) == SettledBy(rows, tail) + Front(StateIndex(tail, STATE_INTERVAL))
  {
    assert PaneHolds([newest][0]);
    TailShrinks(rows, older, newest.flows);
    SuffixIsChronological(rows, newest.flows);
    OlderSettle(rows, tail, older, newest.flows, newest.window);
  }

  lemma {:induction false} RowsComplete(records: seq<Record>, t: int)
    ensures |RowsOf(records, t)| == |records| && SameTime(RowsOf(records, t), t)
  {
    if records != [] {
      RowsComplete(Front(records), t);
    }
  }

  /** The emitted states are as many as the settled windows and the repeated states; with none
      repeated they are the states of the settled windows. */
  ghost predicate Emitted(rows: seq<FlowRow>, windows: seq<Pane>, emitted: seq<NetState>, lastWindow: Option<int>, repeated: int) {
    && repeated >= 0
    && |emitted| == |SettledOf(rows, windows)| + repeated
    && (repeated == 0 ==>
          && emitted == StatesAt(rows, SettledOf(rows, windows), STATE_INTERVAL)
          && lastWindow == LastOf(SettledOf(rows, windows)))
  }

  ghost predicate Exact(policy: Policy, c: Collector, repeated: int) {
    && Sound(policy, c.builder)
    && Watermarked(c.completed, c.builder.lastEvent)
    && c.flowCount == |c.completed| && c.stateCount == |c.emitted|
    && Scheduled(c.completed, c.windows)
    && Emitted(c.completed, c.windows, c.emitted, c.lastWindow, repeated)
  }

  lemma {:induction false} FullEmissionSettles(rows: seq<FlowRow>, windows: seq<Pane>, done: seq<FlowRow>, t: int,
                                               emitted: seq<NetState>, lastWindow: Option<int>, repeated: int)
    requires Completing(rows, windows, done, t) && Emitted(rows, windows, emitted, lastWindow, repeated)
    ensures
      var due := DueAt(windows, done, t);
      var left := Filter(AddPane(windows, WindowOf(t), done), NotBefore(WindowOf(t)));
      var last := if due == [] then lastWindow else Some(Last(due).timestamp);
      |left| == 1 && Scheduled(rows + done, left) && Emitted(rows + done, left, emitted + due, last, repeated)
  {
    var settled, more := SettledOf(rows, windows), Settling(windows, done);
    EmissionLeavesNewest(rows, windows, done, t);
    DueSettlesWindows(rows, windows, done, t);
    SettledStatesStay(rows, windows, done, t);
    MapConcat(settled, more, StateMaker(rows + done, STATE_INTERVAL));
    MapAt(settled, StateMaker(rows + done, STATE_INTERVAL));
    MapAt(more, StateMaker(rows + done, STATE_INTERVAL));
    assert settled + [] == settled;
  }

  lemma {:induction false} RefusedEmissionRepeats(rows: seq<FlowRow>, windows: seq<Pane>, done: seq<FlowRow>, t: int,
                                                  emitted: seq<NetState>, lastWindow: Option<int>, repeated: int, j: nat, last: Option<int>)
    requires Completing(rows, windows, done, t) && Emitted(rows, windows, emitted, lastWindow, repeated)
    requires j <= |DueAt(windows, done, t)| && (j == 0 ==> last == lastWindow)
    ensures
      var added := AddPane(windows, WindowOf(t), done);
      Scheduled(rows + done, added) && Emitted(rows + done, added, emitted + DueAt(windows, done, t)[..j], last, repeated + j)
  {
    CompletionIsScheduled(rows, windows, done, t);
    SettledStatesStay(rows, windows, done, t);
    assert emitted + [] == emitted;
  }

  /** The collector after flows `done` have completed and their due states were offered. */
  ghost predicate Completes(c: Collector, after: Collector, done: seq<FlowRow>, ok: bool, takes: Callback, repeated: int) {
    var grown := |after.emitted| - |c.emitted|;
    && after.builder == c.builder && after.completed == c.completed + done
    && after.flowCount == c.flowCount + |done| && after.stateCount - c.stateCount == grown
    && Scheduled(after.completed, after.windows)
    && (ok ==> |after.windows| == 1)
    && (!ok ==> grown >= 0 && (grown > 0 <==> takes(0)))
    && Emitted(after.completed, after.windows, after.emitted, after.lastWindow, repeated + if ok then 0 else grown)
  }

  lemma {:induction false} CompletionKeepsSchedule(c: Collector, done: seq<FlowRow>, t: int, takes: Callback, repeated: int)
    requires Completing(c.completed, c.windows, done, t)
    requires Emitted(c.completed, c.windows, c.emitted, c.lastWindow, repeated)
    ensures
      var (after, ok) := EmitDue(AcceptRows(c, done), WindowOf(t), takes);
      Completes(c, after, done, ok, takes, repeated)
  {
    if c.windows != [] {
      NewestPaneIsPast(c.completed, c.windows, t);
    }
    AcceptAddsPane(c, done, t);
    var due := DueAt(c.windows, done, t);
    var j := EmissionTakesPrefix(AcceptRows(c, done), due, takes, 0);
    if j == |due| {
      FullEmissionSettles(c.completed, c.windows, done, t, c.emitted, c.lastWindow, repeated);
      AllHanded(AcceptRows(c, done), due);
    } else {
      RefusedEmissionRepeats(c.completed, c.windows, done, t, c.emitted, c.lastWindow, repeated, j,
                             Handing(AcceptRows(c, done), due, j).lastWindow);
    }
  }

  lemma {:induction false} AllHanded(c: Collector, states: seq<NetState>)
    ensures Handing(c, states, |states|) ==
            c.(stateCount := c.stateCount + |states|, emitted := c.emitted + states,
               lastWindow := if states == [] then c.lastWindow else Some(Last(states).timestamp))
  {
    assert states[..|states|] == states;
  }

  lemma {:induction false} CompletionKeepsWatermark(rows: seq<FlowRow>, done: seq<FlowRow>, before: Option<int>, t: int)
    requires Watermarked(rows, before) && (before.Some? ==> before.value <= t) && SameTime(done, t)
    ensures Watermarked(rows + done, Some(t)) && Watermarked(rows, Some(t))
  {
  }

  // ---- One event ----

  /** How one event changed the collector: a call that ended in a refusal repeats what it emitted. */
  function Repeated(c: Collector, after: Collector, result: IngestResult): int {
    if result == StateQueueFull then |after.emitted| - |c.emitted| else 0
  }

  ghost predicate Adds(c: Collector, after: Collector, table: Table, count: nat) {
    after.builder == table && |after.completed| == |c.completed| + count
  }

  /** What an event does: it keeps the collector exact, and repeats states exactly if it takes one and
      then refuses. */
  ghost predicate Steps(policy: Policy, c: Collector, after: Collector, result: IngestResult, takes: Callback,
                        table: Table, count: nat, repeated: int) {
    && Adds(c, after, table, count)
    && Exact(policy, after, repeated + Repeated(c, after, result))
    && Repeated(c, after, result) >= 0
    && (Repeated(c, after, result) > 0 <==> result == StateQueueFull && takes(0))
    && (result != StateQueueFull && |c.windows| <= 1 ==> |after.windows| <= 1)
  }

  lemma {:induction false} CompletingKeepsExact(policy: Policy, c: Collector, table: Table, after: Collector,
                                                done: seq<FlowRow>,
                                                t: int, ok: bool, takes: Callback, repeated: int)
    requires Exact(policy, c, repeated) && Sound(policy, table) && table.lastEvent == Some(t)
    requires Watermarked(c.completed + done, Some(t))
    requires Completes(c.(builder := table), after, done, ok, takes, repeated)
    ensures Steps(policy, c, after, if ok then Ingested else StateQueueFull, takes, table, |done|, repeated)
  {
  }

  lemma {:induction false} CompleteKeepsExact(policy: Policy, c: Collector, table: Table, closing: seq<Closed>, t: int,
                                              takes: Callback, repeated: int)
    requires Exact(policy, c, repeated) && Sound(policy, table)
    requires table.lastEvent == Some(t) && (c.builder.lastEvent.Some? ==> c.builder.lastEvent.value <= t)
    requires closing != []
    ensures
      var (after, ok) := Complete(c, table, closing, t, takes);
      Steps(policy, c, after, if ok then Ingested else StateQueueFull, takes, table, |closing|, repeated)
  {
    var done := RowsOf(RecordsOf(closing), t);
    RecordsCount(closing);
    RowsComplete(RecordsOf(closing), t);
    CompletionKeepsWatermark(c.completed, done, c.builder.lastEvent, t);
    CompletionKeepsSchedule(c.(builder := table), done, t, takes, repeated);
    var (after, ok) := Complete(c, table, closing, t, takes);
    CompletingKeepsExact(policy, c, table, after, done, t, ok, takes, repeated);
  }

  lemma {:induction false} ReactKeepsExact(policy: Policy, c: Collector, table: Table,
                                           answer: Result<seq<Closed>, FeedError>, t: int, takes: Callback, repeated: int)
    requires Exact(policy, c, repeated) && Advances(policy, c.builder, table, answer.Ok?, t)
    ensures
      var (after, result) := React(c, table, answer, t, takes);
      Steps(policy, c, after, result, takes, table, if answer.Ok? then |answer.value| else 0, repeated)
  {
    if answer.Ok? && answer.value != [] {
      CompleteKeepsExact(policy, c, table, answer.value, t, takes, repeated);
    }
  }

  /** What the collector needs to know of one step of its builder. */
  ghost predicate Advances(policy: Policy, before: Table, table: Table, answered: bool, t: int) {
    && Sound(policy, table)
    && (before.lastEvent.Some? ==> table.lastEvent.Some? && before.lastEvent.value <= table.lastEvent.value)
    && (answered ==> table.lastEvent == Some(t))
  }

  lemma {:induction false} FeedAdvances(policy: Policy, table: Table, raw: RawEvent)
    requires Sound(policy, table)
    ensures
      var (after, answer) := Feed(policy, table, raw);
      Advances(policy, table, after, answer.Ok?, if raw.timestamp.Some? then raw.timestamp.value else 0)
  {
    FeedKeepsSound(policy, table, raw);
    FeedMovesForward(policy, table, raw);
  }

  lemma {:induction false} IngestKeepsExact(policy: Policy, c: Collector, raw: RawEvent, takes: Callback, repeated: int)
    requires Exact(policy, c, repeated)
    ensures
      var (table, answer) := Feed(policy, c.builder, raw);
      var (after, result) := Ingest(policy, c, raw, takes);
      Steps(policy, c, after, result, takes, table, if answer.Ok? then |answer.value| else 0, repeated)
  {
    FeedAdvances(policy, c.builder, raw);
    var (table, answer) := Feed(policy, c.builder, raw);
    ReactKeepsExact(policy, c, table, answer, if raw.timestamp.Some? then raw.timestamp.value else 0, takes, repeated);
  }

  // ---- Every run ----

  /** The call of the last event takes the first due state and refuses a later one. */
  predicate Interrupted(policy: Policy, offers: seq<Offer>)
    requires offers != []
  {
    Last(offers).takes(0) && Refuses(Last(offers).takes, |LastDue(policy, offers)|)
  }

  predicate NeverInterrupted(policy: Policy, offers: seq<Offer>) {
    offers == [] || (NeverInterrupted(policy, Front(offers)) && !Interrupted(policy, offers))
  }

  predicate NeverRefused(policy: Policy, offers: seq<Offer>) {
    offers == []
    || (NeverRefused(policy, Front(offers)) && !Refuses(Last(offers).takes, |LastDue(policy, offers)|))
  }

  /** How many states the calls that ended in a refusal had handed over. */
  function RepeatedStates(policy: Policy, offers: seq<Offer>): int {
    if offers == [] then 0
    else
      var before := RunCollector(policy, Front(offers));
      var (after, result) := Ingest(policy, before, Last(offers).raw, Last(offers).takes);
      RepeatedStates(policy, Front(offers)) + Repeated(before, after, result)
  }

  lemma {:induction false} EmissionStopsExactly(c: Collector, states: seq<NetState>, takes: Callback)
    ensures !Emit(c, states, takes, 0).1 <==> Refuses(takes, |states|)
  {
    var _ := EmissionTakesPrefix(c, states, takes, 0);
  }

  /** An event is answered with a full state queue exactly if the callback refuses one of the states
      it makes due. */
  lemma {:induction false} QueueIsFullExactly(policy: Policy, c: Collector, raw: RawEvent, takes: Callback)
    ensures Ingest(policy, c, raw, takes).1 == StateQueueFull <==> Refuses(takes, |DueStates(policy, c, raw)|)
  {
    var (table, answer) := Feed(policy, c.builder, raw);
    var t := if raw.timestamp.Some? then raw.timestamp.value else 0;
    if answer.Ok? && answer.value != [] {
      EmissionStopsExactly(AcceptRows(c.(builder := table), RowsOf(RecordsOf(answer.value), t)),
                           DueStates(policy, c, raw), takes);
    }
  }

  lemma {:induction false} CollectorStaysExact(policy: Policy, offers: seq<Offer>)
    ensures Exact(policy, RunCollector(policy, offers), RepeatedStates(policy, offers))
    ensures RepeatedStates(policy, offers) == 0 <==> NeverInterrupted(policy, offers)
    ensures NeverRefused(policy, offers) ==> |RunCollector(policy, offers).windows| <= 1
  {
    if offers == [] {
      EmptyIsExact(policy);
    } else {
      var c, o := RunCollector(policy, Front(offers)), Last(offers);
      CollectorStaysExact(policy, Front(offers));
      QueueIsFullExactly(policy, c, o.raw, o.takes);
      IngestKeepsExact(policy, c, o.raw, o.takes, RepeatedStates(policy, Front(offers)));
    }
  }

  /** A callback that takes everything refuses nothing. */
  lemma {:induction false} NeverRefusedByAccepting(policy: Policy, offers: seq<Offer>)
    requires forall i, k :: 0 <= i < |offers| ==> offers[i].takes(k)
    ensures NeverRefused(policy, offers) && NeverInterrupted(policy, offers)
  {
    if offers != [] {
      NeverRefusedByAccepting(policy, Front(offers));
      assert forall k :: Last(offers).takes(k);
    }
  }

  lemma {:induction false} EmptyIsExact(policy: Policy)
    ensures Exact(policy, NEW_COLLECTOR, 0)
  {
    EmptyIsScheduled([], []);
  }

  lemma {:induction false} EmptyIsScheduled(none: seq<FlowRow>, windows: seq<Pane>)
    requires none == [] && windows == []
    ensures Scheduled(none, windows) && Emitted(none, windows, [], None, 0)
  {
    EmptyWaits(none);
    assert PendingFlows(windows) == none;
    NoStates(none, SettledOf(none, windows));
  }

  lemma {:induction false} NoStates(rows: seq<FlowRow>, windows: seq<int>)
    requires windows == []
    ensures StatesAt(rows, windows, STATE_INTERVAL) == []
  {
  }

  lemma {:induction false} EmptyWaits(none: seq<FlowRow>)
    requires none == []
    ensures Waits(none, none) && SettledBy(none, none) == []
  {
    assert [] + StateIndex(none, STATE_INTERVAL) == StateIndex(none, STATE_INTERVAL);
    SettledIsFront(none, none, []);
  }

  lemma {:induction false} PendingIsOne(rows: seq<FlowRow>, windows: seq<Pane>)
    requires Scheduled(rows, windows) && |windows| <= 1
    ensures |PendingStates(windows)| <= 1
  {
    if windows != [] {
      var p := windows[0];
      PendingAppend([], p);
      assert [] + [p] == windows && [] + p.flows == p.flows;
      assert PaneHolds(p);
      SuffixIsChronological(rows, p.flows);
      OneWindowIndex(p.flows, p.window);
      MapAt(StateIndex(p.flows, STATE_INTERVAL), StateMaker(p.flows, STATE_INTERVAL));
    }
  }

  lemma {:induction false} ExactlyAggregated(policy: Policy, c: Collector, repeated: int)
    requires Exact(policy, c, repeated)
    ensures |c.emitted + PendingStates(c.windows)| == |StatesOfFlows(c.completed, STATE_INTERVAL)| + repeated
    ensures repeated == 0 ==> c.emitted + PendingStates(c.windows) == StatesOfFlows(c.completed, STATE_INTERVAL)
  {
    var tail := PendingFlows(c.windows);
    SettledAndOpen(c.completed, tail);
    MapAt(SettledBy(c.completed, tail), StateMaker(c.completed, STATE_INTERVAL));
  }

  /** Over every run, whatever the callback answers: what has been emitted, followed by the pending
      states, is exactly the batch aggregation of all completed flows if and only if no call took a
      state and then refused a later one; otherwise it is longer by the states those calls took. */
  lemma {:induction false} EmissionIsBatchAggregation(policy: Policy, offers: seq<Offer>)
    ensures
      var c := RunCollector(policy, offers);
      var all := c.emitted + PendingStates(c.windows);
      && (all == StatesOfFlows(c.completed, STATE_INTERVAL) <==> NeverInterrupted(policy, offers))
      && |all| == |StatesOfFlows(c.completed, STATE_INTERVAL)| + RepeatedStates(policy, offers)
      && c.stateCount == |c.emitted|
      && (NeverRefused(policy, offers) ==> |PendingStates(c.windows)| <= 1 && |c.windows| <= 1)
  {
    CollectorStaysExact(policy, offers);
    var c := RunCollector(policy, offers);
    ExactlyAggregated(policy, c, RepeatedStates(policy, offers));
    if NeverRefused(policy, offers) {
      PendingIsOne(c.completed, c.windows);
    }
  }

  /** Unless a call was interrupted so, emitted states are strictly later each time and exactly ten
      seconds apart within a day. */
  lemma {:induction false} EmissionIsRegular(policy: Policy, offers: seq<Offer>)
    requires NeverInterrupted(policy, offers)
    ensures
      var c := RunCollector(policy, offers);
      && OrderedStates(c.emitted + PendingStates(c.windows), STATE_INTERVAL)
      && OrderedStates(c.emitted, STATE_INTERVAL)
  {
    var c := RunCollector(policy, offers);
    EmissionIsBatchAggregation(policy, offers);
    AggregatedStatesAreOrdered(c.completed, STATE_INTERVAL);
    PrefixIsRegular(c.emitted, PendingStates(c.windows));
  }

  lemma {:induction false} PrefixIsRegular(states: seq<NetState>, more: seq<NetState>)
    requires OrderedStates(states + more, STATE_INTERVAL)
    ensures OrderedStates(states, STATE_INTERVAL)
  {
    var all := states + more;
    assert forall i :: 0 <= i < |states| ==> all[i] == states[i];
  }

  /** Unless a call was interrupted so, every completed flow is counted in exactly one emitted or
      pending state. */
  lemma {:induction false} EveryCompletedFlowIsCounted(policy: Policy, offers: seq<Offer>)
    requires NeverInterrupted(policy, offers)
    ensures
      var c := RunCollector(policy, offers);
      CountedFlows(c.emitted + PendingStates(c.windows)) == |c.completed| == c.flowCount
  {
    CollectorStaysExact(policy, offers);
    EmissionIsBatchAggregation(policy, offers);
    EveryFlowIsCountedOnce(RunCollector(policy, offers).completed, STATE_INTERVAL);
  }

  /** The completed flows are as many as the records of the collector's own builder. */
  lemma {:induction false} CompletedFlowsAreRecords(policy: Policy, offers: seq<Offer>)
    ensures
      var c, events := RunCollector(policy, offers), EventsOf(offers);
      c.builder == Run(policy, events).table && |c.completed| == c.builder.closed == |Run(policy, events).closed|
  {
    BuilderStaysSound(policy, EventsOf(offers));
    if offers != [] {
      assert Front(EventsOf(offers)) == EventsOf(Front(offers));
      CompletedFlowsAreRecords(policy, Front(offers));
      CollectorStaysExact(policy, Front(offers));
      IngestKeepsExact(policy, RunCollector(policy, Front(offers)), Last(offers).raw, Last(offers).takes,
                       RepeatedStates(policy, Front(offers)));
    }
  }

  // ---- The final flush ----

  function SeenBy(last: Option<int>): FlowRow -> bool {
    (row: FlowRow) => last.Some? && WindowOf(row.timestamp) <= last.value
  }

  function NotSeenBy(last: Option<int>): FlowRow -> bool {
    (row: FlowRow) => last.None? || WindowOf(row.timestamp) > last.value
  }

  function WindowNotSeen(last: Option<int>): int -> bool {
    (w: int) => last.None? || w > last.value
  }

  lemma {:induction false} PutRowCounts(windows: seq<Pane>, row: FlowRow, keep: FlowRow -> bool)
    ensures |Filter(PendingFlows(PutRow(windows, row)), keep)| ==
            |Filter(PendingFlows(windows), keep)| + if keep(row) then 1 else 0
  {
    if windows == [] {
      assert PendingFlows([Pane(WindowOf(row.timestamp), [row])]) == [row] by {
        assert [Pane(WindowOf(row.timestamp), [row])][1..] == [];
        assert [row] + [] == [row];
      }
      FilterAppend([], row, keep);
      assert [] + [row] == [row];
    } else {
      var rest := PendingFlows(windows[1..]);
      FilterConcat(windows[0].flows, rest, keep);
      if windows[0].window == WindowOf(row.timestamp) {
        FilterAppend(windows[0].flows, row, keep);
        FilterConcat(windows[0].flows + [row], rest, keep);
        assert PutRow(windows, row)[1..] == windows[1..];
      } else {
        PutRowCounts(windows[1..], row, keep);
        FilterConcat(windows[0].flows, PendingFlows(PutRow(windows[1..], row)), keep);
        assert PutRow(windows, row)[1..] == PutRow(windows[1..], row);
      }
    }
  }

  lemma {:induction false} FilterFirst(rows: seq<FlowRow>, keep: FlowRow -> bool)
    requires rows != []
    ensures |Filter(rows, keep)| == (if keep(rows[0]) then 1 else 0) + |Filter(rows[1..], keep)|
  {
    assert rows == [rows[0]] + rows[1..];
    FilterConcat([rows[0]], rows[1..], keep);
    FilterAppend([], rows[0], keep);
    assert [] + [rows[0]] == [rows[0]];
  }

  lemma {:induction false} AcceptCompletes(c: Collector, rows: seq<FlowRow>)
    ensures
      var after := AcceptRows(c, rows);
      after.emitted == c.emitted && after.lastWindow == c.lastWindow && after.completed == c.completed + rows
    decreases |rows|
  {
    if rows == [] {
      assert c.completed + rows == c.completed;
    } else {
      var next := c.(windows := PutRow(c.windows, rows[0]), flowCount := c.flowCount + 1, completed := c.completed + [rows[0]]);
      AcceptCompletes(next, rows[1..]);
      assert [rows[0]] + rows[1..] == rows;
      ConcatIsAssociative(c.completed, [rows[0]], rows[1..]);
    }
  }

  lemma {:induction false} AcceptCounts(c: Collector, rows: seq<FlowRow>, keep: FlowRow -> bool)
    ensures |Filter(PendingFlows(AcceptRows(c, rows).windows), keep)|
            == |Filter(PendingFlows(c.windows), keep)| + |Filter(rows, keep)|
    decreases |rows|
  {
    if rows == [] {
      assert AcceptRows(c, rows) == c;
    } else {
      var next := c.(windows := PutRow(c.windows, rows[0]), flowCount := c.flowCount + 1, completed := c.completed + [rows[0]]);
      assert AcceptRows(c, rows) == AcceptRows(next, rows[1..]);
      AcceptCounts(next, rows[1..], keep);
      PutRowCounts(c.windows, rows[0], keep);
      FilterFirst(rows, keep);
    }
  }

  lemma {:induction false} UnseenStates(rows: seq<FlowRow>, windows: seq<int>, last: Option<int>)
    ensures Filter(StatesAt(rows, windows, STATE_INTERVAL), Unseen(last))
            == StatesAt(rows, Filter(windows, WindowNotSeen(last)), STATE_INTERVAL)
  {
    forall w: int
      ensures Unseen(last)(StateMaker(rows, STATE_INTERVAL)(w)) == WindowNotSeen(last)(w)
    {
      assert StateMaker(rows, STATE_INTERVAL)(w).timestamp == w;
    }
    FilterMap(windows, StateMaker(rows, STATE_INTERVAL), Unseen(last), WindowNotSeen(last));
  }

  lemma {:induction false} UnseenRow(rows: seq<FlowRow>, row: FlowRow, last: Option<int>)
    requires row in rows
    ensures
      var unseen := Filter(StateIndex(rows, STATE_INTERVAL), WindowNotSeen(last));
      InWindows(unseen, STATE_INTERVAL)(row) == NotSeenBy(last)(row)
  {
    var w := WindowOf(row.timestamp);
    FlowWindowIsIndexed(rows, row, STATE_INTERVAL);
    FilterKeepsExactly(StateIndex(rows, STATE_INTERVAL), WindowNotSeen(last), w);
    assert NotSeenBy(last)(row) == WindowNotSeen(last)(w);
  }

  /** The states a flush emits count exactly the waiting flows of windows not emitted before. */
  lemma {:induction false} FlushedStatesCount(rows: seq<FlowRow>, last: Option<int>)
    ensures CountedFlows(Filter(StatesOfFlows(rows, STATE_INTERVAL), Unseen(last))) == |Filter(rows, NotSeenBy(last))|
  {
    var index := StateIndex(rows, STATE_INTERVAL);
    var unseen := Filter(index, WindowNotSeen(last));
    IndexIsComplete(rows, STATE_INTERVAL);
    FilterKeepsSorted(index, WindowNotSeen(last), Less);
    UnseenStates(rows, index, last);
    WindowsCountRows(rows, unseen, STATE_INTERVAL);
    forall row | row in rows
      ensures InWindows(unseen, STATE_INTERVAL)(row) == NotSeenBy(last)(row)
    {
      UnseenRow(rows, row, last);
    }
    FiltersAgree(rows, InWindows(unseen, STATE_INTERVAL), NotSeenBy(last));
  }

  lemma {:induction false} CountedConcat(xs: seq<NetState>, ys: seq<NetState>)
    ensures CountedFlows(xs + ys) == CountedFlows(xs) + CountedFlows(ys)
  {
    if ys == [] {
      assert xs + ys == xs;
    } else {
      CountedConcat(xs, Front(ys));
      assert Front(xs + ys) == xs + Front(ys);
    }
  }

  lemma {:induction false} FilterPartitions(rows: seq<FlowRow>, last: Option<int>)
    ensures |Filter(rows, SeenBy(last))| + |Filter(rows, NotSeenBy(last))| == |rows|
  {
    if rows != [] {
      FilterPartitions(Front(rows), last);
    }
  }

  /** The flows that wait before a flush are all of windows not emitted yet. */
  lemma {:induction false} WaitingFlowsAreNew(rows: seq<FlowRow>, windows: seq<Pane>)
    requires Scheduled(rows, windows)
    ensures Filter(PendingFlows(windows), NotSeenBy(LastOf(SettledOf(rows, windows)))) == PendingFlows(windows)
  {
    var tail, last := PendingFlows(windows), LastOf(SettledOf(rows, windows));
    if tail != [] {
      SettledIsEarlier(rows, tail);
      SuffixIsChronological(rows, tail);
      forall row | row in tail
        ensures NotSeenBy(last)(row)
      {
        var i :| 0 <= i < |tail| && tail[i] == row;
        FloorIsMonotone(tail[0].timestamp, tail[i].timestamp, STATE_INTERVAL);
      }
      FilterKeepsAll(tail, NotSeenBy(last));
    }
  }

  lemma {:induction false} CountedSoFar(rows: seq<FlowRow>, windows: seq<Pane>)
    requires Scheduled(rows, windows)
    ensures CountedFlows(StatesAt(rows, SettledOf(rows, windows), STATE_INTERVAL)) + |PendingFlows(windows)| == |rows|
  {
    SettledAndOpen(rows, PendingFlows(windows));
    EveryFlowIsCountedOnce(rows, STATE_INTERVAL);
    EveryFlowIsCountedOnce(PendingFlows(windows), STATE_INTERVAL);
    CountedConcat(StatesAt(rows, SettledOf(rows, windows), STATE_INTERVAL), PendingStates(windows));
  }

  function Is(row: FlowRow): FlowRow -> bool {
    (other: FlowRow) => other == row
  }

  lemma {:induction false} AcceptedRowWaits(c: Collector, rows: seq<FlowRow>, row: FlowRow)
    requires row in rows
    ensures row in PendingFlows(AcceptRows(c, rows).windows)
  {
    var waiting := PendingFlows(AcceptRows(c, rows).windows);
    AcceptCounts(c, rows, Is(row));
    FilterKeepsExactly(rows, Is(row), row);
    assert Filter(waiting, Is(row)) != [];
    FilterKeepsExactly(waiting, Is(row), Filter(waiting, Is(row))[0]);
  }

  ghost predicate HasState(states: seq<NetState>, w: int) {
    exists i :: 0 <= i < |states| && states[i].timestamp == w
  }

  lemma {:induction false} StatesHaveWindows(rows: seq<FlowRow>, windows: seq<int>, w: int)
    ensures HasState(StatesAt(rows, windows, STATE_INTERVAL), w) <==> w in windows
  {
    var states := StatesAt(rows, windows, STATE_INTERVAL);
    MapAt(windows, StateMaker(rows, STATE_INTERVAL));
    assert forall i :: 0 <= i < |windows| ==> states[i].timestamp == windows[i];
    if w in windows {
      var i :| 0 <= i < |windows| && windows[i] == w;
      assert states[i].timestamp == w;
    }
  }

  /** The states a flush emits are those of the waiting flows' windows not emitted before. */
  lemma {:induction false} FlushedWindows(rows: seq<FlowRow>, last: Option<int>, row: FlowRow)
    requires row in rows
    ensures HasState(Filter(StatesOfFlows(rows, STATE_INTERVAL), Unseen(last)), WindowOf(row.timestamp)) <==> NotSeenBy(last)(row)
  {
    var index, w := StateIndex(rows, STATE_INTERVAL), WindowOf(row.timestamp);
    UnseenStates(rows, index, last);
    StatesHaveWindows(rows, Filter(index, WindowNotSeen(last)), w);
    FlowWindowIsIndexed(rows, row, STATE_INTERVAL);
    FilterKeepsExactly(index, WindowNotSeen(last), w);
  }

  lemma {:induction false} LateFlowsAreFlushed(c: Collector, late: seq<FlowRow>, row: FlowRow)
    requires row in late
    ensures
      var due := Filter(PendingStates(AcceptRows(c, late).windows), Unseen(c.lastWindow));
      HasState(due, WindowOf(row.timestamp)) <==> !SeenBy(c.lastWindow)(row)
  {
    AcceptedRowWaits(c, late, row);
    FlushedWindows(PendingFlows(AcceptRows(c, late).windows), c.lastWindow, row);
  }

  /** A flush hands over exactly the states not seen before. */
  lemma {:induction false} AcceptedFlush(c: Collector, takes: Callback)
    requires forall i :: takes(i)
    ensures
      var (table, closing) := Flush(c.builder);
      var late := LateRowsOf(RecordsOf(closing));
      var waiting := PendingFlows(AcceptRows(c.(builder := table), late).windows);
      var (after, ok) := FlushAll(c, takes);
      && ok && after.completed == c.completed + late
      && after.emitted == c.emitted + Filter(StatesOfFlows(waiting, STATE_INTERVAL), Unseen(c.lastWindow))
  {
    var (table, closing) := Flush(c.builder);
    var late := LateRowsOf(RecordsOf(closing));
    var accepted := AcceptRows(c.(builder := table), late);
    AcceptCompletes(c.(builder := table), late);
    var due := Filter(PendingStates(accepted.windows), Unseen(c.lastWindow));
    var _ := EmissionTakesPrefix(accepted, due, takes, 0);
    AllHanded(accepted, due);
  }

  /** Of the waiting flows, those that waited before the flush and the late ones not seen are counted. */
  lemma {:induction false} WaitingNotSeen(c: Collector, late: seq<FlowRow>)
    requires Scheduled(c.completed, c.windows) && c.lastWindow == LastOf(SettledOf(c.completed, c.windows))
    ensures |Filter(PendingFlows(AcceptRows(c, late).windows), NotSeenBy(c.lastWindow))|
            == |PendingFlows(c.windows)| + |late| - |Filter(late, SeenBy(c.lastWindow))|
  {
    AcceptCounts(c, late, NotSeenBy(c.lastWindow));
    WaitingFlowsAreNew(c.completed, c.windows);
    FilterPartitions(late, c.lastWindow);
  }

  lemma {:induction false} FlushCounts(policy: Policy, c: Collector, takes: Callback)
    requires Exact(policy, c, 0) && forall i :: takes(i)
    ensures
      var late := LateRowsOf(RecordsOf(Flush(c.builder).1));
      var (after, ok) := FlushAll(c, takes);
      && ok && after.completed == c.completed + late
      && CountedFlows(after.emitted) == |after.completed| - |Filter(late, SeenBy(c.lastWindow))|
  {
    var (table, closing) := Flush(c.builder);
    var late := LateRowsOf(RecordsOf(closing));
    var waiting := PendingFlows(AcceptRows(c.(builder := table), late).windows);
    AcceptedFlush(c, takes);
    WaitingNotSeen(c.(builder := table), late);
    FlushedStatesCount(waiting, c.lastWindow);
    CountedConcat(c.emitted, Filter(StatesOfFlows(waiting, STATE_INTERVAL), Unseen(c.lastWindow)));
    CountedSoFar(c.completed, c.windows);
  }

  /** The states that a flush hands over. */
  function Handed(c: Collector, takes: Callback): seq<NetState> {
    var after := FlushAll(c, takes).0;
    if |c.emitted| <= |after.emitted| then after.emitted[|c.emitted|..] else []
  }

  lemma {:induction false} FlushHandsOverDue(c: Collector, takes: Callback)
    requires forall i :: takes(i)
    ensures
      var (table, closing) := Flush(c.builder);
      var late := AcceptRows(c.(builder := table), LateRowsOf(RecordsOf(closing)));
      Handed(c, takes) == Filter(PendingStates(late.windows), Unseen(c.lastWindow))
  {
    AcceptedFlush(c, takes);
  }

  /** After any run without such an interruption, a flush that the callback accepts loses exactly
      the flows whose last packet lies in a window already emitted: it hands over no state for
      their windows, and one for the window of every other. Each flow not lost has been counted
      in exactly one emitted state. */
  lemma {:induction false} FlushLosesExactlyStaleFlows(policy: Policy, offers: seq<Offer>, takes: Callback)
    requires NeverInterrupted(policy, offers) && forall i :: takes(i)
    ensures
      var c := RunCollector(policy, offers);
      var late := LateRowsOf(RecordsOf(Flush(c.builder).1));
      var (after, ok) := FlushAll(c, takes);
      && ok && after.completed == c.completed + late
      && CountedFlows(after.emitted) == |after.completed| - |Filter(late, SeenBy(c.lastWindow))|
      && (forall row :: row in late ==> (HasState(Handed(c, takes), WindowOf(row.timestamp)) <==> !SeenBy(c.lastWindow)(row)))
  {
    CollectorStaysExact(policy, offers);
    var c := RunCollector(policy, offers);
    FlushCounts(policy, c, takes);
    FlushHandsOverDue(c, takes);
    var (table, closing) := Flush(c.builder);
    var late := LateRowsOf(RecordsOf(closing));
    forall row | row in late
      ensures HasState(Handed(c, takes), WindowOf(row.timestamp)) <==> !SeenBy(c.lastWindow)(row)
    {
      LateFlowsAreFlushed(c.(builder := table), late, row);
    }
  }
}
