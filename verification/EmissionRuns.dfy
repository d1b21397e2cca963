/** Runs of the collector that show where emission and the final flush fall short. */
module EmissionRuns {
  import opened Prelude
  import opened PacketEvents
  import opened FlowBuilders
  import opened FlowSegments
  import opened NetworkStates
  import opened Collectors
  import opened Emissions

  /** A packet at `t` from the given source port. */
  function PacketAt(t: int, port: real, flags: FlagValue): RawEvent {
    RawEvent(Some(t), Some("10.0.0.1"), Some("10.0.0.2"), Some(port), Some(80.0), Some("TCP"), Some(60.0), flags)
  }

  const FIN: FlagValue := FlagItems(["FIN"])

  lemma {:induction false} FinEnds()
    ensures "FIN" in FlagTokens(FIN)
  {
    assert IsToken("FIN");
    JoinedTokensAreWords(["FIN"]);
    CleaningCleans(Joined(["FIN"]));
    assert "FIN" in ["FIN"];
  }

  /** A valid packet at `t` that ends its flow. */
  predicate EndsAt(raw: RawEvent, t: int) {
    raw.timestamp == Some(t) && Normalize(raw).Ok? && Ending(Normalize(raw).value)
  }

  lemma {:induction false} NotBlank(s: string)
    requires s != [] && !IsSpace(s[0])
    ensures !Blank(Some(s))
  {
  }

  lemma {:induction false} PacketIsValid(t: int, port: real, flags: FlagValue)
    requires ValidPort(Some(port))
    ensures
      var raw := PacketAt(t, port, flags);
      && raw.timestamp == Some(t) && Normalize(raw).Ok? && Normalize(raw).value.flags == FlagTokens(flags)
      && Normalize(raw).value.source.port == port.Floor && Normalize(raw).value.destination.port == 80
  {
    NotBlank("10.0.0.1");
    NotBlank("10.0.0.2");
    NotBlank("TCP");
  }

  lemma {:induction false} PacketEndsAt(t: int, port: real)
    requires ValidPort(Some(port))
    ensures EndsAt(PacketAt(t, port, FIN), t)
  {
    FinEnds();
    PacketIsValid(t, port, FIN);
  }

  /** No tracked flow times out at `t`. */
  ghost predicate AllLive(policy: Policy, flows: seq<Flow>, t: int) {
    forall f :: f in flows ==> IsLive(policy, t)(f)
  }

  lemma {:induction false} LiveStay(policy: Policy, table: Table, t: int)
    requires AllLive(policy, table.flows, t)
    ensures CloseDue(policy, table, t) == (table, [])
  {
    FilterKeepsAll(table.flows, IsLive(policy, t));
    FilterKeepsNone(table.flows, IsDue(policy, t));
    assert Timed(policy, [], t) == [];
  }

  /** The packet's flow is not in the table, no flow times out, and there is room. */
  ghost predicate ComesAlone(policy: Policy, table: Table, raw: RawEvent, t: int) {
    && EndsAt(raw, t) && (table.lastEvent.Some? ==> table.lastEvent.value <= t)
    && AllLive(policy, table.flows, t)
    && IndexOf(table.flows, KeyOf(Normalize(raw).value)) == |table.flows| < policy.maxFlows
  }

  lemma {:induction false} LonePacketSettles(policy: Policy, table: Table, p: Packet)
    requires AllTracked(table.flows, Some(p.timestamp)) && Ending(p)
    requires IndexOf(table.flows, KeyOf(p)) == |table.flows| < policy.maxFlows
    ensures
      var (after, answer) := Take(policy, table, [], p);
      after.flows == table.flows && after.lastEvent == table.lastEvent && answer.Ok? && |answer.value| == 1
  {
    TakeOutcome(policy, table, [], p);
    assert Removed(table.flows + [NewFlow(KeyOf(p), p.timestamp)], |table.flows|) == table.flows;
  }

  /** A valid packet that is not in the past, and finds no flow due, is taken by the table as it is. */
  lemma {:induction false} FeedTakes(policy: Policy, table: Table, raw: RawEvent, p: Packet)
    requires Normalize(raw) == Ok(p) && AllLive(policy, table.flows, p.timestamp)
    requires table.lastEvent.Some? ==> table.lastEvent.value <= p.timestamp
    ensures Feed(policy, table, raw) == Take(policy, table.(lastEvent := Some(p.timestamp)), [], p)
  {
    LiveStay(policy, table.(lastEvent := Some(p.timestamp)), p.timestamp);
  }

  lemma {:induction false} SoundIsTracked(policy: Policy, table: Table, t: int)
    requires Sound(policy, table) && (table.lastEvent.Some? ==> table.lastEvent.value <= t)
    ensures AllTracked(table.flows, Some(t))
  {
    forall i | 0 <= i < |table.flows|
      ensures Tracked(table.flows[i], Some(t))
    {
      assert Tracked(table.flows[i], table.lastEvent);
    }
  }

  /** A packet that ends a flow of its own leaves the table as it was and completes one flow. */
  lemma {:induction false} LonePacketCompletes(policy: Policy, table: Table, raw: RawEvent, t: int)
    requires Sound(policy, table) && ComesAlone(policy, table, raw, t)
    ensures
      var (after, answer) := Feed(policy, table, raw);
      after.flows == table.flows && after.lastEvent == Some(t) && answer.Ok? && |answer.value| == 1
  {
    LoneEventCompletes(policy, table, raw, Normalize(raw).value);
  }

  lemma {:induction false} LoneEventCompletes(policy: Policy, table: Table, raw: RawEvent, p: Packet)
    requires Sound(policy, table) && Normalize(raw) == Ok(p) && Ending(p) && AllLive(policy, table.flows, p.timestamp)
    requires table.lastEvent.Some? ==> table.lastEvent.value <= p.timestamp
    requires IndexOf(table.flows, KeyOf(p)) == |table.flows| < policy.maxFlows
    ensures
      var (after, answer) := Feed(policy, table, raw);
      after.flows == table.flows && after.lastEvent == Some(p.timestamp) && answer.Ok? && |answer.value| == 1
  {
    FeedTakes(policy, table, raw, p);
    SoundIsTracked(policy, table, p.timestamp);
    LonePacketSettles(policy, table.(lastEvent := Some(p.timestamp)), p);
  }

  lemma {:induction false} EmptyTableIsFree(policy: Policy, table: Table, raw: RawEvent, t: int)
    requires table.flows == [] && policy.maxFlows >= 1 && EndsAt(raw, t)
    requires table.lastEvent.Some? ==> table.lastEvent.value <= t
    ensures ComesAlone(policy, table, raw, t)
  {
  }

  /** The collector's side of such a packet: one flow completes, and the due states are offered. */
  lemma {:induction false} LonePacketIngested(policy: Policy, c: Collector, raw: RawEvent, t: int, takes: Callback,
                                              repeated: int)
    returns (done: seq<FlowRow>)
    requires Exact(policy, c, repeated) && ComesAlone(policy, c.builder, raw, t)
    ensures |done| == 1 && Completing(c.completed, c.windows, done, t)
    ensures
      var table := Feed(policy, c.builder, raw).0;
      var (after, ok) := EmitDue(AcceptRows(c.(builder := table), done), WindowOf(t), takes);
      && table.flows == c.builder.flows && table.lastEvent == Some(t)
      && Ingest(policy, c, raw, takes) == (after, if ok then Ingested else StateQueueFull)
  {
    LonePacketCompletes(policy, c.builder, raw, t);
    var (table, answer) := Feed(policy, c.builder, raw);
    done := RowsOf(RecordsOf(answer.value), t);
    RecordsCount(answer.value);
    RowsComplete(RecordsOf(answer.value), t);
    CompletionKeepsWatermark(c.completed, done, c.builder.lastEvent, t);
  }

  lemma {:induction false} EmitDueIs(c: Collector, current: int, takes: Callback)
    ensures
      var due := Filter(PendingStates(c.windows), StartsBefore(current));
      var (after, ok) := Emit(c, due, takes, 0);
      EmitDue(c, current, takes) == (if ok then after.(windows := Filter(after.windows, NotBefore(current))) else after, ok)
  {
  }

  /** Accepting every due state of a completion leaves its window's pane. */
  lemma {:induction false} AcceptingDue(c: Collector, done: seq<FlowRow>, t: int, takes: Callback)
    requires Completing(c.completed, c.windows, done, t) && forall i :: takes(i)
    ensures
      var (after, ok) := EmitDue(AcceptRows(c, done), WindowOf(t), takes);
      && ok && after.emitted == c.emitted + DueAt(c.windows, done, t)
      && after.completed == c.completed + done && after.builder == c.builder
      && after.windows == [Last(AddPane(c.windows, WindowOf(t), done))]
      && (DueAt(c.windows, done, t) != [] ==> after.lastWindow == Some(Last(DueAt(c.windows, done, t)).timestamp))
  {
    if c.windows != [] {
      NewestPaneIsPast(c.completed, c.windows, t);
    }
    AcceptAddsPane(c, done, t);
    NewestPaneIsLeft(c.windows, done, t);
    var due := DueAt(c.windows, done, t);
    var accepted := AcceptRows(c, done);
    EmitDueIs(accepted, WindowOf(t), takes);
    var _ := EmissionTakesPrefix(accepted, due, takes, 0);
    AllHanded(accepted, due);
  }

  /** Refusing the second due state of a completion leaves every pane. */
  lemma {:induction false} RefusingSecond(c: Collector, done: seq<FlowRow>, t: int, takes: Callback)
    requires Completing(c.completed, c.windows, done, t) && takes(0) && !takes(1) && |DueAt(c.windows, done, t)| >= 2
    ensures
      var (after, ok) := EmitDue(AcceptRows(c, done), WindowOf(t), takes);
      && !ok && after.emitted == c.emitted + [DueAt(c.windows, done, t)[0]]
      && after.completed == c.completed + done && after.builder == c.builder
      && after.windows == AddPane(c.windows, WindowOf(t), done)
  {
    if c.windows != [] {
      NewestPaneIsPast(c.completed, c.windows, t);
    }
    AcceptAddsPane(c, done, t);
    var due := DueAt(c.windows, done, t);
    var accepted := AcceptRows(c, done);
    EmitDueIs(accepted, WindowOf(t), takes);
    var j := EmissionTakesPrefix(accepted, due, takes, 0);
    assert j == 1 && due[..1] == [due[0]];
  }

  // ---- A state emitted twice ----

  const TEN: int := STATE_INTERVAL
  const TWENTY: int := 2 * STATE_INTERVAL

  lemma {:induction false} Times()
    ensures WindowOf(0) == 0 && WindowOf(TWENTY) == TWENTY && WindowOf(TWENTY + 1) == TWENTY
    ensures DayOf(0) == 0 && DayOf(TWENTY) == 0
  {
  }

  lemma {:induction false} ExtendToTwenty()
    ensures Extend([0], TWENTY, TEN) == [0, TEN, TWENTY]
    ensures Extend([0, TEN, TWENTY], TWENTY, TEN) == [0, TEN, TWENTY]
  {
    Times();
    var none := Range(TWENTY + TEN, TWENTY, TEN);
    assert Range(TWENTY, TWENTY, TEN) == [TWENTY] + none;
    assert Range(TEN, TWENTY, TEN) == [TEN] + [TWENTY];
    assert [0] + ([TEN] + [TWENTY]) == [0, TEN, TWENTY];
    assert [0, TEN, TWENTY] + none == [0, TEN, TWENTY];
  }

  lemma {:induction false} FirstIndex(first: seq<FlowRow>)
    requires first != [] && SameTime(first, 0)
    ensures StateIndex(first, STATE_INTERVAL) == [0] && NoneAfter(first, TWENTY)
  {
    Times();
    OneWindowIndex(first, 0);
  }

  /** Flows that complete at 0 s and at 20 s. */
  lemma {:induction false} IndexToTwenty(first: seq<FlowRow>, second: seq<FlowRow>)
    requires first != [] && second != [] && SameTime(first, 0) && SameTime(second, TWENTY)
    ensures StateIndex(first + second, STATE_INTERVAL) == [0, TEN, TWENTY]
  {
    FirstIndex(first);
    Times();
    CompletionsExtendIndex(first, second, TWENTY);
    ExtendToTwenty();
  }

  lemma {:induction false} IndexStaysAtTwenty(rows: seq<FlowRow>, third: seq<FlowRow>)
    requires third != [] && SameTime(third, TWENTY + 1) && NoneAfter(rows, TWENTY + 1)
    requires StateIndex(rows, STATE_INTERVAL) == [0, TEN, TWENTY]
    ensures StateIndex(rows + third, STATE_INTERVAL) == [0, TEN, TWENTY]
  {
    Times();
    CompletionsExtendIndex(rows, third, TWENTY + 1);
    ExtendToTwenty();
  }

  lemma {:induction false} RunCollectorAppend(policy: Policy, offers: seq<Offer>, o: Offer)
    ensures RunCollector(policy, offers + [o]) == Ingest(policy, RunCollector(policy, offers), o.raw, o.takes).0
    ensures LastDue(policy, offers + [o]) == DueStates(policy, RunCollector(policy, offers), o.raw)
  {
    assert Front(offers + [o]) == offers;
  }

  /** One flow has completed at 0 s and waits; `live` flows are tracked. */
  ghost predicate FirstWaits(c: Collector, first: seq<FlowRow>, live: seq<Flow>) {
    && first != [] && SameTime(first, 0) && c.completed == first
    && PendingFlows(c.windows) == first && c.emitted == []
    && c.builder.flows == live && c.builder.lastEvent == Some(0)
  }

  /** No flow has completed yet. */
  ghost predicate NothingCompleted(c: Collector) {
    c.windows == [] && c.completed == [] && c.emitted == []
  }

  /** Completing at 0 s in an empty collector makes nothing due. */
  lemma {:induction false} FirstIsNotDue(none: seq<Pane>, first: seq<FlowRow>)
    requires none == [] && Completing([], none, first, 0)
    ensures DueAt(none, first, 0) == [] && PendingFlows([Last(AddPane(none, 0, first))]) == first
  {
    FirstIndex(first);
    assert PendingFlows(none) + first == first;
    DueSettlesWindows([], none, first, 0);
    assert [] + first == first && Settling(none, first) == [];
    AddedPaneWaits(none, 0, first);
    assert AddPane(none, 0, first) == [Last(AddPane(none, 0, first))];
  }

  lemma {:induction false} FirstCompletes(policy: Policy, c: Collector, raw: RawEvent,
                                          takes: Callback) returns (first: seq<FlowRow>)
    requires Exact(policy, c, 0) && NothingCompleted(c) && ComesAlone(policy, c.builder, raw, 0) && forall i :: takes(i)
    ensures FirstWaits(Ingest(policy, c, raw, takes).0, first, c.builder.flows) && |first| == 1
  {
    first := LonePacketIngested(policy, c, raw, 0, takes, 0);
    FirstIsNotDue(c.windows, first);
    Times();
    AcceptingDue(c.(builder := Feed(policy, c.builder, raw).0), first, 0, takes);
  }

  /** The states of the first two windows. */
  function FirstTwo(rows: seq<FlowRow>): seq<NetState> {
    StatesAt(rows, [0, TEN], STATE_INTERVAL)
  }

  lemma {:induction false} FirstTwoAre(rows: seq<FlowRow>)
    ensures |FirstTwo(rows)| == 2 && FirstTwo(rows)[0].timestamp == 0 && FirstTwo(rows)[1].timestamp == TEN
  {
    MapAt([0, TEN], StateMaker(rows, STATE_INTERVAL));
  }

  /** A second flow has completed at 20 s, and the second of the due states `due` was refused. */
  ghost predicate SecondRefused(c: Collector, rows: seq<FlowRow>, due: seq<NetState>) {
    && |due| == 2 && c.emitted == [due[0]] && due == FirstTwo(rows)
    && c.completed == rows && PendingFlows(c.windows) == rows
    && StateIndex(rows, STATE_INTERVAL) == [0, TEN, TWENTY]
    && c.builder.flows == [] && c.builder.lastEvent == Some(TWENTY)
  }

  lemma {:induction false} SecondIsDue(c: Collector, first: seq<FlowRow>, second: seq<FlowRow>, live: seq<Flow>)
    requires FirstWaits(c, first, live) && Completing(c.completed, c.windows, second, TWENTY)
    ensures DueAt(c.windows, second, TWENTY) == FirstTwo(first + second)
    ensures StateIndex(first + second, STATE_INTERVAL) == [0, TEN, TWENTY]
  {
    IndexToTwenty(first, second);
    assert Front([0, TEN, TWENTY]) == [0, TEN];
    DueSettlesWindows(c.completed, c.windows, second, TWENTY);
  }

  /** Offering `due` refused its second state. */
  ghost predicate StoppedAtSecond(c: Collector, after: Collector, ok: bool, done: seq<FlowRow>, due: seq<NetState>) {
    && !ok && |due| >= 2 && after.emitted == c.emitted + [due[0]]
    && after.completed == c.completed + done && after.builder == c.builder
    && PendingFlows(after.windows) == PendingFlows(c.windows) + done
  }

  lemma {:induction false} RefusingSecondStops(c: Collector, done: seq<FlowRow>, t: int, takes: Callback)
    requires Completing(c.completed, c.windows, done, t) && takes(0) && !takes(1) && |DueAt(c.windows, done, t)| >= 2
    ensures
      var (after, ok) := EmitDue(AcceptRows(c, done), WindowOf(t), takes);
      StoppedAtSecond(c, after, ok, done, DueAt(c.windows, done, t))
  {
    RefusingSecond(c, done, t, takes);
    AddedPaneWaits(c.windows, WindowOf(t), done);
  }

  lemma {:induction false} SecondIsStopped(c: Collector, first: seq<FlowRow>, second: seq<FlowRow>, table: Table,
                                           after: Collector, ok: bool)
    requires FirstWaits(c, first, []) && Completing(c.completed, c.windows, second, TWENTY)
    requires table.flows == [] && table.lastEvent == Some(TWENTY)
    requires StoppedAtSecond(c.(builder := table), after, ok, second, DueAt(c.windows, second, TWENTY))
    ensures SecondRefused(after, first + second, DueAt(c.windows, second, TWENTY))
  {
    SecondIsDue(c, first, second, []);
    FirstTwoAre(first + second);
  }

  lemma {:induction false} SecondIsRefused(policy: Policy, c: Collector, first: seq<FlowRow>, raw: RawEvent,
                                           takes: Callback, repeated: int)
    returns (second: seq<FlowRow>)
    requires policy.maxFlows >= 1 && Exact(policy, c, repeated) && FirstWaits(c, first, [])
    requires EndsAt(raw, TWENTY) && takes(0) && !takes(1)
    ensures Ingest(policy, c, raw, takes).1 == StateQueueFull
    ensures SecondRefused(Ingest(policy, c, raw, takes).0, first + second, FirstTwo(first + second))
  {
    EmptyTableIsFree(policy, c.builder, raw, TWENTY);
    second := LonePacketIngested(policy, c, raw, TWENTY, takes, repeated);
    SecondIsDue(c, first, second, []);
    FirstTwoAre(first + second);
    var table := Feed(policy, c.builder, raw).0;
    RefusingSecondStops(c.(builder := table), second, TWENTY, takes);
    var (after, ok) := EmitDue(AcceptRows(c.(builder := table), second), WindowOf(TWENTY), takes);
    SecondIsStopped(c, first, second, table, after, ok);
  }

  lemma {:induction false} DueAgain(c: Collector, rows: seq<FlowRow>, third: seq<FlowRow>, due: seq<NetState>)
    requires SecondRefused(c, rows, due) && Completing(c.completed, c.windows, third, TWENTY + 1)
    ensures DueAt(c.windows, third, TWENTY + 1) == FirstTwo(rows + third)
  {
    IndexStaysAtTwenty(rows, third);
    assert Front([0, TEN, TWENTY]) == [0, TEN];
    DueSettlesWindows(c.completed, c.windows, third, TWENTY + 1);
  }

  lemma {:induction false} ThirdIsDue(c: Collector, rows: seq<FlowRow>, third: seq<FlowRow>, due: seq<NetState>)
    requires SecondRefused(c, rows, due) && Completing(c.completed, c.windows, third, TWENTY + 1)
    ensures DueAt(c.windows, third, TWENTY + 1) == due
  {
    DueAgain(c, rows, third, due);
    Times();
    EarlierStatesStay(rows, third, [0, TEN], TWENTY + 1);
  }

  lemma {:induction false} ThirdIsAccepted(policy: Policy, c: Collector, rows: seq<FlowRow>, due: seq<NetState>,
                                           raw: RawEvent,
                                           takes: Callback, repeated: int)
    requires policy.maxFlows >= 1 && Exact(policy, c, repeated) && SecondRefused(c, rows, due)
    requires EndsAt(raw, TWENTY + 1) && forall i :: takes(i)
    ensures Ingest(policy, c, raw, takes).0.emitted == [due[0]] + due
  {
    EmptyTableIsFree(policy, c.builder, raw, TWENTY + 1);
    var third := LonePacketIngested(policy, c, raw, TWENTY + 1, takes, repeated);
    ThirdIsDue(c, rows, third, due);
    AcceptingDue(c.(builder := Feed(policy, c.builder, raw).0), third, TWENTY + 1, takes);
  }

  function TakesFirst(): Callback {
    (i: nat) => i == 0
  }

  function TakesAll(): Callback {
    (i: nat) => true
  }

  function SecondOffered(): seq<Offer> {
    [] + [Offer(PacketAt(0, 1.0, FIN), TakesAll())] + [Offer(PacketAt(TWENTY, 1.0, FIN), TakesFirst())]
  }

  /** Three flows that complete at 0 s, at 20 s and just after; the callback refuses the second
      state it is offered at 20 s, and takes all others. */
  function RefusingRun(): seq<Offer> {
    SecondOffered() + [Offer(PacketAt(TWENTY + 1, 1.0, FIN), TakesAll())]
  }

  lemma {:induction false} SecondOfferIsRefused(policy: Policy) returns (rows: seq<FlowRow>)
    requires policy.maxFlows >= 1
    ensures SecondRefused(RunCollector(policy, SecondOffered()), rows, FirstTwo(rows))
    ensures Interrupted(policy, SecondOffered())
  {
    var a := Offer(PacketAt(0, 1.0, FIN), TakesAll());
    var b := Offer(PacketAt(TWENTY, 1.0, FIN), TakesFirst());
    PacketEndsAt(0, 1.0);
    PacketEndsAt(TWENTY, 1.0);
    EmptyIsExact(policy);
    EmptyTableIsFree(policy, EMPTY_TABLE, a.raw, 0);
    var first := FirstCompletes(policy, NEW_COLLECTOR, a.raw, a.takes);
    RunCollectorAppend(policy, [], a);
    RunCollectorAppend(policy, [] + [a], b);
    CollectorStaysExact(policy, [] + [a]);
    var second := SecondIsRefused(policy, RunCollector(policy, [] + [a]), first, b.raw, b.takes, RepeatedStates(policy, [] + [a]));
    QueueIsFullExactly(policy, RunCollector(policy, [] + [a]), b.raw, b.takes);
    rows := first + second;
  }

  /** In this run one state is emitted twice: the callback gets the state of the first window, the
      same state again, and then its successor. */
  lemma {:induction false} StateIsEmittedTwice(policy: Policy)
    requires policy.maxFlows >= 1
    ensures
      var c := RunCollector(policy, RefusingRun());
      && |c.emitted| == 3 && c.emitted[0] == c.emitted[1] && c.emitted[0].timestamp == 0 && c.emitted[2].timestamp == TEN
      && !NeverInterrupted(policy, RefusingRun())
  {
    var rows := SecondOfferIsRefused(policy);
    var o := Offer(PacketAt(TWENTY + 1, 1.0, FIN), TakesAll());
    PacketEndsAt(TWENTY + 1, 1.0);
    CollectorStaysExact(policy, SecondOffered());
    RunCollectorAppend(policy, SecondOffered(), o);
    ThirdIsAccepted(policy, RunCollector(policy, SecondOffered()), rows, FirstTwo(rows), o.raw, o.takes,
                    RepeatedStates(policy, SecondOffered()));
    FirstTwoAre(rows);
    assert Front(RefusingRun()) == SecondOffered();
  }

  // ---- A flow lost by the flush ----

  /** A packet that opens a flow of its own and ends nothing. */
  lemma {:induction false} PacketOpens(t: int, port: real)
    requires ValidPort(Some(port))
    ensures
      var raw := PacketAt(t, port, NoFlags);
      raw.timestamp == Some(t) && Normalize(raw).Ok? && !Ending(Normalize(raw).value)
  {
    PacketIsValid(t, port, NoFlags);
  }

  lemma {:induction false} OtherPortIsOtherKey(t: int, port: real, u: int, other: real, flags: FlagValue)
    requires ValidPort(Some(port)) && ValidPort(Some(other)) && port != other && port != 80.0
    ensures Normalize(PacketAt(t, port, NoFlags)).Ok? && Normalize(PacketAt(u, other, flags)).Ok?
    ensures KeyOf(Normalize(PacketAt(t, port, NoFlags)).value) != KeyOf(Normalize(PacketAt(u, other, flags)).value)
  {
    PacketIsValid(t, port, NoFlags);
    PacketIsValid(u, other, flags);
    KeysJoinDirections(Normalize(PacketAt(t, port, NoFlags)).value, Normalize(PacketAt(u, other, flags)).value);
  }

  /** The flow a first packet opens. */
  lemma {:induction false} FirstPacketIsTracked(policy: Policy, p: Packet, raw: RawEvent) returns (f: Flow)
    requires policy.maxFlows >= 1 && Normalize(raw) == Ok(p) && !Ending(p)
    ensures f.key == KeyOf(p) && f.first == f.last == p.timestamp
    ensures
      var (after, answer) := Feed(policy, EMPTY_TABLE, raw);
      after.flows == [f] && after.lastEvent == Some(p.timestamp) && answer == Ok([])
  {
    FeedTakes(policy, EMPTY_TABLE, raw, p);
    TakeOutcome(policy, EMPTY_TABLE.(lastEvent := Some(p.timestamp)), [], p);
    f := Grown([], p);
  }

  ghost predicate YoungAt(policy: Policy, f: Flow, t: int) {
    f.last == f.first == 0 && t < policy.idleSeconds * SECOND && t < policy.activeSeconds * SECOND
  }

  lemma {:induction false} OtherFlowLeavesRoom(policy: Policy, table: Table, f: Flow, raw: RawEvent, t: int)
    requires table.flows == [f] && YoungAt(policy, f, t) && policy.maxFlows >= 2 && EndsAt(raw, t)
    requires KeyOf(Normalize(raw).value) != f.key && table.lastEvent == Some(0) && t >= 0
    ensures ComesAlone(policy, table, raw, t)
  {
    assert IndexOf(table.flows[1..], KeyOf(Normalize(raw).value)) == 0;
    assert !IdleDue(policy, f, t) && !ActiveDue(policy, f, t);
    assert !IsDue(policy, t)(f);
    assert IsLive(policy, t)(f);
    assert forall g :: g in table.flows ==> g == f;
  }

  /** After the run both completed flows' first windows are emitted, and the open flow is tracked. */
  ghost predicate OneIsStale(c: Collector, f: Flow) {
    && c.builder.flows == [f] && f.last == 0
    && |c.completed| == 2 && c.lastWindow == Some(TEN)
  }

  predicate OpenedBy(f: Flow, raw: RawEvent) {
    f.first == f.last == 0 && Normalize(raw).Ok? && f.key == KeyOf(Normalize(raw).value)
  }

  const OPENING: RawEvent := PacketAt(0, 2.0, NoFlags)

  lemma {:induction false} OpenFlowIsTracked(policy: Policy, o: Offer) returns (f: Flow)
    requires policy.maxFlows >= 1 && o.raw == OPENING
    ensures
      var c := Ingest(policy, NEW_COLLECTOR, o.raw, o.takes).0;
      && NothingCompleted(c) && c.builder.flows == [f] && c.builder.lastEvent == Some(0)
      && OpenedBy(f, o.raw)
  {
    PacketOpens(0, 2.0);
    f := FirstPacketIsTracked(policy, Normalize(o.raw).value, o.raw);
  }

  lemma {:induction false} SecondIsAccepted(policy: Policy, c: Collector, first: seq<FlowRow>, f: Flow,
                                            raw: RawEvent, takes: Callback)
    requires Exact(policy, c, 0) && |first| == 1 && FirstWaits(c, first, [f]) && ComesAlone(policy, c.builder, raw, TWENTY)
    requires f.last == 0 && forall i :: takes(i)
    ensures OneIsStale(Ingest(policy, c, raw, takes).0, f)
  {
    var second := LonePacketIngested(policy, c, raw, TWENTY, takes, 0);
    SecondIsDue(c, first, second, [f]);
    FirstTwoAre(first + second);
    AcceptingDue(c.(builder := Feed(policy, c.builder, raw).0), second, TWENTY, takes);
  }

  ghost predicate LongTimeouts(policy: Policy) {
    TWENTY < policy.idleSeconds * SECOND && TWENTY < policy.activeSeconds * SECOND
  }

  lemma {:induction false} OtherFlowsComeAlone(policy: Policy, table: Table, f: Flow, t: int)
    requires table.flows == [f] && table.lastEvent == Some(0) && OpenedBy(f, OPENING)
    requires policy.maxFlows >= 2 && LongTimeouts(policy) && 0 <= t <= TWENTY
    ensures ComesAlone(policy, table, PacketAt(t, 1.0, FIN), t)
  {
    PacketEndsAt(t, 1.0);
    OtherPortIsOtherKey(0, 2.0, t, 1.0, FIN);
    OtherFlowLeavesRoom(policy, table, f, PacketAt(t, 1.0, FIN), t);
  }

  // The run is followed offer by offer, on what each leaves to the next.

  ghost predicate TakesEverything(offers: seq<Offer>) {
    forall i, k :: 0 <= i < |offers| ==> offers[i].takes(k)
  }

  lemma {:induction false} AcceptingStaysExact(policy: Policy, offers: seq<Offer>)
    requires TakesEverything(offers)
    ensures Exact(policy, RunCollector(policy, offers), 0)
  {
    NeverRefusedByAccepting(policy, offers);
    CollectorStaysExact(policy, offers);
  }

  ghost predicate OpenIn(c: Collector, f: Flow) {
    NothingCompleted(c) && c.builder.flows == [f] && c.builder.lastEvent == Some(0) && OpenedBy(f, OPENING)
  }

  ghost predicate WaitsIn(c: Collector, f: Flow, first: seq<FlowRow>) {
    FirstWaits(c, first, [f]) && |first| == 1 && OpenedBy(f, OPENING)
  }

  lemma {:induction false} FirstFlowOpens(policy: Policy, o: Offer) returns (f: Flow)
    requires policy.maxFlows >= 1 && o.raw == OPENING
    requires forall i :: o.takes(i)
    ensures OpenIn(RunCollector(policy, [] + [o]), f) && TakesEverything([] + [o])
  {
    RunCollectorAppend(policy, [], o);
    f := OpenFlowIsTracked(policy, o);
  }

  lemma {:induction false} NextFlowWaits(policy: Policy, offers: seq<Offer>, f: Flow,
                                         takes: Callback) returns (first: seq<FlowRow>)
    requires policy.maxFlows >= 2 && LongTimeouts(policy) && TakesEverything(offers) && forall i :: takes(i)
    requires OpenIn(RunCollector(policy, offers), f)
    ensures
      var more := offers + [Offer(PacketAt(0, 1.0, FIN), takes)];
      WaitsIn(RunCollector(policy, more), f, first) && TakesEverything(more)
  {
    var c, raw := RunCollector(policy, offers), PacketAt(0, 1.0, FIN);
    AcceptingStaysExact(policy, offers);
    OtherFlowsComeAlone(policy, c.builder, f, 0);
    first := FirstCompletes(policy, c, raw, takes);
    RunCollectorAppend(policy, offers, Offer(raw, takes));
  }

  lemma {:induction false} LastFlowIsEmitted(policy: Policy, offers: seq<Offer>, f: Flow, first: seq<FlowRow>,
                                             takes: Callback)
    requires policy.maxFlows >= 2 && LongTimeouts(policy) && TakesEverything(offers) && forall i :: takes(i)
    requires WaitsIn(RunCollector(policy, offers), f, first)
    ensures OneIsStale(RunCollector(policy, offers + [Offer(PacketAt(TWENTY, 1.0, FIN), takes)]), f)
  {
    var c, raw := RunCollector(policy, offers), PacketAt(TWENTY, 1.0, FIN);
    AcceptingStaysExact(policy, offers);
    OtherFlowsComeAlone(policy, c.builder, f, TWENTY);
    SecondIsAccepted(policy, c, first, f, raw, takes);
    RunCollectorAppend(policy, offers, Offer(raw, takes));
  }

  function OpenRun(): seq<Offer> {
    [] + [Offer(OPENING, TakesAll())]
  }

  function WaitingRun(): seq<Offer> {
    OpenRun() + [Offer(PacketAt(0, 1.0, FIN), TakesAll())]
  }

  /** One flow stays open from 0 s on; another completes at 0 s, and a third at 20 s. */
  function StaleRun(): seq<Offer> {
    WaitingRun() + [Offer(PacketAt(TWENTY, 1.0, FIN), TakesAll())]
  }

  lemma {:induction false} StaleRunIsStale(policy: Policy) returns (f: Flow)
    requires policy.maxFlows >= 2 && LongTimeouts(policy)
    ensures OneIsStale(RunCollector(policy, StaleRun()), f)
  {
    f := FirstFlowOpens(policy, Offer(OPENING, TakesAll()));
    var first := NextFlowWaits(policy, OpenRun(), f, TakesAll());
    LastFlowIsEmitted(policy, WaitingRun(), f, first, TakesAll());
  }

  lemma {:induction false} StaleFlowIsLate(f: Flow, table: Table)
    requires table.flows == [f] && f.last == 0
    ensures
      var late := LateRowsOf(RecordsOf(Flush(table).1));
      |late| == 1 && |Filter(late, SeenBy(Some(TEN)))| == 1
  {
    var closing := Flushing(table.flows);
    assert Front(table.flows) == [] && Flushing(Front(table.flows)) == [];
    assert closing == [Closed(f, Reason.Flushed)];
    assert Front(closing) == [] && RecordsOf(closing) == [] + [RecordOf(closing[0])];
    var records := RecordsOf(closing);
    assert Front(records) == [] && LateRowsOf(records) == [] + [RowOf(records[0], 0)];
    Times();
    FilterAppend([], RowOf(records[0], 0), SeenBy(Some(TEN)));
  }

  /** A flush that loses the one flow still open. */
  ghost predicate LosesOne(c: Collector, takes: Callback) {
    var (after, ok) := FlushAll(c, takes);
    ok && |after.completed| == 3 && CountedFlows(after.emitted) == 2
  }

  lemma {:induction false} StaleFlowIsLost(policy: Policy, offers: seq<Offer>, f: Flow, takes: Callback)
    requires TakesEverything(offers) && OneIsStale(RunCollector(policy, offers), f) && forall i :: takes(i)
    ensures LosesOne(RunCollector(policy, offers), takes)
  {
    NeverRefusedByAccepting(policy, offers);
    StaleFlowIsLate(f, RunCollector(policy, offers).builder);
    FlushLosesExactlyStaleFlows(policy, offers, takes);
  }

  /** In this run every callback takes every state, and still the flush loses a flow: three flows
      completed, two are counted in emitted states. */
  lemma {:induction false} FlushLosesFlow(policy: Policy)
    requires policy.maxFlows >= 2 && LongTimeouts(policy)
    ensures LosesOne(RunCollector(policy, StaleRun()), TakesAll())
  {
    var f := StaleRunIsStale(policy);
    StaleFlowIsLost(policy, StaleRun(), f, TakesAll());
  }
}
