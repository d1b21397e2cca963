/** The agent's collector: completed flows are scheduled on the completion watermark and states
    are emitted window by window (src/agent/collector.py). */
module Collectors {
  import opened Prelude
  import opened PacketEvents
  import opened FlowBuilders
  import opened NetworkStates

  /** The completed flows that wait in one window. */
  datatype Pane = Pane(window: int, flows: seq<FlowRow>)

  /** `windows` is a dictionary in the order of its insertions. `completed` is every completed flow
      and `emitted` every state handed over; the program keeps only their numbers. */
  datatype Collector = Collector(builder: Table, windows: seq<Pane>, lastWindow: Option<int>,
                                 stateCount: nat, flowCount: nat, completed: seq<FlowRow>, emitted: seq<NetState>)

  const NEW_COLLECTOR: Collector := Collector(EMPTY_TABLE, [], None, 0, 0, [], [])

  datatype IngestResult = Ingested | EventRefused(error: FeedError) | StateQueueFull

  /** How the state callback answers: whether it takes the i-th state offered by one call. */
  type Callback = nat -> bool

  function WindowOf(t: int): int {
    Floor(t, STATE_INTERVAL)
  }

  /** A record as it enters a window: at its completion time, its first packet's time put aside. */
  function RowOf(r: Record, completion: int): FlowRow {
    FlowRow(completion, DayOf(completion), false, false, r.key.backward.port, r.duration as real,
            r.fwdPackets as real, r.bwdPackets as real, r.fwdBytes as real, r.bwdBytes as real,
            r.meanGap, r.synCount as real, r.ackCount as real, r.rstCount as real, r.meanLength)
  }

  function RowsOf(records: seq<Record>, completion: int): seq<FlowRow> {
    if records == [] then [] else RowsOf(Front(records), completion) + [RowOf(Last(records), completion)]
  }

  /** At the end of the stream each record completes at its own last packet. */
  function LateRowsOf(records: seq<Record>): seq<FlowRow> {
    if records == [] then [] else LateRowsOf(Front(records)) + [RowOf(Last(records), Last(records).end)]
  }

  function PutRow(windows: seq<Pane>, row: FlowRow): seq<Pane> {
    var w := WindowOf(row.timestamp);
    if windows == [] then [Pane(w, [row])]
    else if windows[0].window == w then [Pane(w, windows[0].flows + [row])] + windows[1..]
    else [windows[0]] + PutRow(windows[1..], row)
  }

  function AcceptRows(c: Collector, rows: seq<FlowRow>): Collector
    decreases |rows|
  {
    if rows == [] then c
    else
      AcceptRows(c.(windows := PutRow(c.windows, rows[0]), flowCount := c.flowCount + 1,
                    completed := c.completed + [rows[0]]), rows[1..])
  }

  function PendingFlows(windows: seq<Pane>): seq<FlowRow> {
    if windows == [] then [] else windows[0].flows + PendingFlows(windows[1..])
  }

  function PendingStates(windows: seq<Pane>): seq<NetState> {
    StatesOfFlows(PendingFlows(windows), STATE_INTERVAL)
  }

  /** Hands the states over one by one; a refusal stops it. */
  function Emit(c: Collector, states: seq<NetState>, takes: Callback, i: nat): (Collector, bool)
    decreases |states|
  {
    if states == [] then (c, true)
    else if !takes(i) then (c, false)
    else
      Emit(c.(stateCount := c.stateCount + 1, lastWindow := Some(states[0].timestamp), emitted := c.emitted + [states[0]]),
           states[1..], takes, i + 1)
  }

  function StartsBefore(w: int): NetState -> bool {
    (s: NetState) => s.timestamp < w
  }

  function NotBefore(w: int): Pane -> bool {
    (p: Pane) => p.window >= w
  }

  /** Emits every pending state before the current window, then drops their flows; after a refusal
      the flows stay. */
  function EmitDue(c: Collector, current: int, takes: Callback): (Collector, bool) {
    var (after, ok) := Emit(c, Filter(PendingStates(c.windows), StartsBefore(current)), takes, 0);
    if ok then (after.(windows := Filter(after.windows, NotBefore(current))), true) else (after, false)
  }

  /** What the flows closed by one event do to the collector. */
  function Complete(c: Collector, table: Table, closing: seq<Closed>, t: int, takes: Callback): (Collector, bool) {
    EmitDue(AcceptRows(c.(builder := table), RowsOf(RecordsOf(closing), t)), WindowOf(t), takes)
  }

  /** What the builder's answer to an event at `t` does to the collector. */
  function React(c: Collector, table: Table, answer: Result<seq<Closed>, FeedError>, t: int, takes: Callback)
    : (Collector, IngestResult)
  {
    match answer
    case Err(e) => (c.(builder := table), EventRefused(e))
    case Ok(closing) =>
      if closing == [] then (c.(builder := table), Ingested)
      else
        var (after, ok) := Complete(c, table, closing, t, takes);
        (after, if ok then Ingested else StateQueueFull)
  }

  function Ingest(policy: Policy, c: Collector, raw: RawEvent, takes: Callback): (Collector, IngestResult) {
    var (table, answer) := Feed(policy, c.builder, raw);
    React(c, table, answer, if raw.timestamp.Some? then raw.timestamp.value else 0, takes)
  }

  /** The states that the event makes due, before any is offered. */
  function DueStates(policy: Policy, c: Collector, raw: RawEvent): seq<NetState> {
    var (table, answer) := Feed(policy, c.builder, raw);
    var t := if raw.timestamp.Some? then raw.timestamp.value else 0;
    if answer.Err? || answer.value == [] then []
    else
      Filter(PendingStates(AcceptRows(c.(builder := table), RowsOf(RecordsOf(answer.value), t)).windows),
             StartsBefore(WindowOf(t)))
  }

  /** The callback refuses one of the first `n` states it is offered. */
  predicate Refuses(takes: Callback, n: nat) {
    exists k :: 0 <= k < n && !takes(k)
  }

  /** Emits what is left, except states at or before the last one emitted. */
  function FlushAll(c: Collector, takes: Callback): (Collector, bool) {
    var (table, closing) := Flush(c.builder);
    var late := AcceptRows(c.(builder := table), LateRowsOf(RecordsOf(closing)));
    var due := Filter(PendingStates(late.windows), Unseen(late.lastWindow));
    var (after, ok) := Emit(late, due, takes, 0);
    if ok then (after.(windows := []), true) else (after, false)
  }

  function Unseen(last: Option<int>): NetState -> bool {
    (s: NetState) => last.None? || s.timestamp > last.value
  }

  /** An event, and how the state callback answers while the event is handled. */
  datatype Offer = Offer(raw: RawEvent, takes: Callback)

  function RunCollector(policy: Policy, offers: seq<Offer>): Collector {
    if offers == [] then NEW_COLLECTOR
    else Ingest(policy, RunCollector(policy, Front(offers)), Last(offers).raw, Last(offers).takes).0
  }

  /** The states that the last event of a run made due. */
  function LastDue(policy: Policy, offers: seq<Offer>): seq<NetState>
    requires offers != []
  {
    DueStates(policy, RunCollector(policy, Front(offers)), Last(offers).raw)
  }

  function EventsOf(offers: seq<Offer>): seq<RawEvent> {
    if offers == [] then [] else EventsOf(Front(offers)) + [Last(offers).raw]
  }

  // ---- The collector object ----

  /** The pending states, or none without flows. */
  method BuildPending(windows: seq<Pane>) returns (states: seq<NetState>)
    ensures states == PendingStates(windows)
  {
    var flows: seq<FlowRow> := [];
    assert windows[0..] == windows;
    for i := 0 to |windows|
      invariant flows + PendingFlows(windows[i..]) == PendingFlows(windows)
    {
      assert windows[i..][1..] == windows[i + 1..];
      flows := flows + windows[i].flows;
    }
    assert flows + [] == flows;
    var index := CompleteStateIndex(flows, STATE_INTERVAL);
    states := BuildStates(flows, index, STATE_INTERVAL);
  }

  class AgentCollector {
    const policy: Policy
    const builder: FlowBuilder
    var windows: seq<Pane>
    var lastWindow: Option<int>
    var stateCount: nat
    var flowCount: nat
    ghost var completed: seq<FlowRow>
    ghost var emitted: seq<NetState>

    ghost predicate Valid()
      reads this, builder
    {
      builder.policy == policy && builder.Valid()
    }

    ghost function Model(): Collector
      reads this, builder, builder.flows
    {
      Collector(builder.Model(), windows, lastWindow, stateCount, flowCount, completed, emitted)
    }

    constructor (policy: Policy)
      requires Positive(policy)
      ensures Valid() && Model() == NEW_COLLECTOR && this.policy == policy
    {
      this.policy := policy;
      builder := new FlowBuilder(policy);
      windows, lastWindow := [], None;
      stateCount, flowCount := 0, 0;
      completed, emitted := [], [];
    }

    method EmitState(state: NetState)
      modifies this`stateCount, this`lastWindow, this`emitted
      ensures Model() == old(Model()).(stateCount := old(stateCount) + 1, lastWindow := Some(state.timestamp),
                                       emitted := old(emitted) + [state])
    {
      stateCount := stateCount + 1;
      lastWindow := Some(state.timestamp);
      emitted := emitted + [state];
    }

    /** Offers the states to the callback; `ok` is false once it refuses one. */
    method EmitAll(states: seq<NetState>, takes: Callback) returns (ok: bool)
      modifies this`stateCount, this`lastWindow, this`emitted
      ensures (Model(), ok) == Emit(old(Model()), states, takes, 0)
    {
      ok := true;
      var i := 0;
      assert states[0..] == states;
      while i < |states|
        invariant 0 <= i <= |states|
        invariant Emit(Model(), states[i..], takes, i) == Emit(old(Model()), states, takes, 0)
      {
        assert states[i..][1..] == states[i + 1..];
        if !takes(i) {
          return false;
        }
        EmitState(states[i]);
        i := i + 1;
      }
    }

    method AcceptRow(row: FlowRow)
      modifies this`windows, this`flowCount, this`completed
      ensures Model() == old(Model()).(windows := PutRow(old(windows), row), flowCount := old(flowCount) + 1,
                                       completed := old(completed) + [row])
    {
      windows := PutRow(windows, row);
      flowCount := flowCount + 1;
      completed := completed + [row];
    }

    method AcceptFlows(rows: seq<FlowRow>)
      modifies this`windows, this`flowCount, this`completed
      ensures Model() == AcceptRows(old(Model()), rows)
    {
      var i := 0;
      assert rows[0..] == rows;
      while i < |rows|
        invariant 0 <= i <= |rows|
        invariant AcceptRows(Model(), rows[i..]) == AcceptRows(old(Model()), rows)
      {
        assert rows[i..][1..] == rows[i + 1..];
        AcceptRow(rows[i]);
        i := i + 1;
      }
    }

    method EmitDueStates(current: int, takes: Callback) returns (ok: bool)
      modifies this`windows, this`stateCount, this`lastWindow, this`emitted
      ensures (Model(), ok) == EmitDue(old(Model()), current, takes)
    {
      var states := BuildPending(windows);
      ok := EmitAll(Filter(states, StartsBefore(current)), takes);
      if ok {
        windows := Filter(windows, NotBefore(current));
      }
    }

    method IngestEvent(raw: RawEvent, takes: Callback) returns (result: IngestResult)
      requires Valid()
      modifies this, builder, builder.flows
      ensures Valid()
      ensures (Model(), result) == Ingest(policy, old(Model()), raw, takes)
    {
      ghost var closing := Feed(policy, builder.Model(), raw).1;
      var answer := builder.FeedEvent(raw);
      if answer.Err? {
        return EventRefused(answer.error);
      }
      result := Ingested;
      RecordsCount(closing.value);
      if answer.value != [] {
        AcceptFlows(RowsOf(answer.value, raw.timestamp.value));
        var ok := EmitDueStates(WindowOf(raw.timestamp.value), takes);
        if !ok {
          result := StateQueueFull;
        }
      }
    }

    method FlushCollector(takes: Callback) returns (ok: bool)
      requires Valid()
      modifies this, builder
      ensures Valid()
      ensures (Model(), ok) == FlushAll(old(Model()), takes)
    {
      var records := builder.FlushFlows();
      AcceptFlows(LateRowsOf(records));
      var states := BuildPending(windows);
      ok := EmitAll(Filter(states, Unseen(lastWindow)), takes);
      if ok {
        windows := [];
      }
    }
  }
}
