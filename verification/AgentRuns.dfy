/** The capture thread and the delivery loop of one agent together: the collector's state callback is
    the agent's bounded deque, and everything else may happen between two states of one call
    (src/agent/client.py, src/agent/collector.py). */
module AgentRuns {
  import opened Prelude
  import PacketEvents
  import FlowBuilders
  import opened NetworkStates
  import opened Collectors
  import opened Emissions
  import opened Telemetry
  import opened SensorAgents
  import opened CentralRuns
  import opened Delivery
  import opened DeliveryStates
  import SpilledStates

  /** A packet reaches the collector, with what the delivery protocol does before each state that is
      handed over; or the delivery protocol acts on its own. */
  datatype Moment =
    | Capture(raw: PacketEvents.RawEvent, between: nat -> seq<Action>, now: real)
    | Loop(action: Action)

  /** The protocol's actions so far; the events of the running collector, with the answers it got;
      and the states that the collectors of earlier agent processes handed over. */
  datatype Joint = Joint(trace: seq<Action>, offers: seq<Offer>, past: seq<StatePoint>)

  /** What the agent runs with; `point` writes a state for delivery. */
  datatype Setup = Setup(world: World, policy: FlowBuilders.Policy, point: NetState -> StatePoint)

  /** States come from the collector only, and a crash takes the collector with it. */
  function IsLoop(): Action -> bool {
    (a: Action) => !a.Collect? && !a.Crash?
  }

  /** Hands the states to the deque one by one, until it refuses one: the trace then, and how many it took. */
  function HandOver(w: World, trace: seq<Action>, points: seq<StatePoint>, between: nat -> seq<Action>, now: real, i: nat)
    : (r: (seq<Action>, nat))
    ensures r.1 <= |points|
    decreases |points|
  {
    if points == [] then (trace, 0)
    else
      var before := trace + Filter(between(i), IsLoop());
      var next := before + [Collect(points[0], now)];
      if !OnState(w.cfg, Run(w, before).agent, points[0], now).1 then (next, 0)
      else
        var (rest, taken) := HandOver(w, next, points[1..], between, now, i + 1);
        (rest, taken + 1)
  }

  /** The callback takes the first `n` states of a call and refuses the next. */
  function TakesUpTo(n: nat): Callback {
    (i: nat) => i < n
  }

  function CollectorOf(setup: Setup, j: Joint): Collector {
    RunCollector(setup.policy, j.offers)
  }

  function SystemOf(setup: Setup, j: Joint): System {
    Run(setup.world, j.trace)
  }

  function DueAfter(setup: Setup, j: Joint, raw: PacketEvents.RawEvent): seq<NetState> {
    DueStates(setup.policy, CollectorOf(setup, j), raw)
  }

  function Step(setup: Setup, j: Joint, m: Moment): Joint {
    match m
    case Loop(action) =>
      if action.Collect? then j
      else if action.Crash? then Joint(j.trace + [action], [], j.past + Map(CollectorOf(setup, j).emitted, setup.point))
      else j.(trace := j.trace + [action])
    case Capture(raw, between, now) =>
      var (trace, taken) := HandOver(setup.world, j.trace, Map(DueAfter(setup, j, raw), setup.point), between, now, 0);
      Joint(trace, j.offers + [Offer(raw, TakesUpTo(taken))], j.past)
  }

  function After(setup: Setup, moments: seq<Moment>): Joint {
    if moments == [] then Joint([], [], []) else Step(setup, After(setup, Front(moments)), Last(moments))
  }

  // ---- What is collected is what was emitted ----

  lemma {:induction false} LoopCollectsNothing(w: World, s: System, action: Action)
    requires !action.Collect?
    ensures Collected(Apply(w, s, action).taken) == Collected(s.taken)
  {
    if TouchesStates(s, action) && !action.BeginSubmit? && !action.Crash? {
      SpilledStates.ReachingQueueConcludes(w, s, action);
      ConcludingCollectsNothing(w, s, s.wait.b, QueueBatch(w.cfg, s.agent, s.wait.b), action.after);
    } else if !TouchesStates(s, action) {
      OtherActionsTouchNoState(w, s, action);
    }
  }

  lemma {:induction false} ConcludingCollectsNothing(w: World, s: System, b: Batch, result: (Agent, SubmitOutcome),
                                                     after: real)
    ensures Collected(Conclude(w, s, b, result, after).taken) == Collected(s.taken)
  {
    SpilledStates.SpillingKeepsHistory(s.taken, Excess(w.cfg, b, result.0.pending));
  }

  lemma {:induction false} LoopsCollectNothing(w: World, trace: seq<Action>, actions: seq<Action>)
    requires forall i :: 0 <= i < |actions| ==> !actions[i].Collect?
    ensures Collected(Run(w, trace + actions).taken) == Collected(Run(w, trace).taken)
  {
    if actions == [] {
      assert trace + [] == trace;
    } else {
      LoopsCollectNothing(w, trace, Front(actions));
      ConcatEndsWith(trace, actions);
      SpilledStates.RunAppend(w, trace + Front(actions), Last(actions));
      LoopCollectsNothing(w, Run(w, trace + Front(actions)), Last(actions));
    }
  }

  lemma {:induction false} FilteredLoopsCollectNothing(w: World, trace: seq<Action>, actions: seq<Action>)
    ensures Collected(Run(w, trace + Filter(actions, IsLoop())).taken) == Collected(Run(w, trace).taken)
  {
    var loops := Filter(actions, IsLoop());
    forall i | 0 <= i < |loops|
      ensures !loops[i].Collect?
    {
      FilterKeepsExactly(actions, IsLoop(), loops[i]);
    }
    LoopsCollectNothing(w, trace, loops);
  }

  lemma {:induction false} CollectCollects(w: World, s: System, state: StatePoint, now: real)
    ensures Collected(DoCollect(w, s, state, now).taken)
            == Collected(s.taken) + if OnState(w.cfg, s.agent, state, now).1 then [state] else []
  {
    TakingOne(s.taken, Taken(state, false));
  }

  /** The states the deque took are collected, in their order. */
  lemma {:induction false} HandOverCollects(w: World, trace: seq<Action>, points: seq<StatePoint>,
                                            between: nat -> seq<Action>,
                                            now: real, i: nat)
    ensures
      var (next, taken) := HandOver(w, trace, points, between, now, i);
      Collected(Run(w, next).taken) == Collected(Run(w, trace).taken) + points[..taken]
    decreases |points|
  {
    if points != [] {
      var before := trace + Filter(between(i), IsLoop());
      var collect := Collect(points[0], now);
      FilteredLoopsCollectNothing(w, trace, between(i));
      SpilledStates.RunAppend(w, before, collect);
      CollectCollects(w, Run(w, before), points[0], now);
      if OnState(w.cfg, Run(w, before).agent, points[0], now).1 {
        var taken := HandOver(w, before + [collect], points[1..], between, now, i + 1).1;
        HandOverCollects(w, before + [collect], points[1..], between, now, i + 1);
        FirstAndMore(Collected(Run(w, trace).taken), points, taken);
      }
    }
  }

  lemma {:induction false} FirstAndMore(before: seq<StatePoint>, points: seq<StatePoint>, taken: nat)
    requires points != [] && taken < |points|
    ensures before + [points[0]] + points[1..][..taken] == before + points[..taken + 1]
  {
  }

  /** With such a callback the collector hands over exactly that many of the due states. */
  lemma {:induction false} EmissionTakesUpTo(c: Collector, states: seq<NetState>, taken: nat)
    requires taken <= |states|
    ensures Emit(c, states, TakesUpTo(taken), 0).0.emitted == c.emitted + states[..taken]
  {
    var _ := EmissionTakesPrefix(c, states, TakesUpTo(taken), 0);
    assert forall k: nat :: k < taken ==> TakesUpTo(taken)(k);
    assert !TakesUpTo(taken)(taken);
  }

  lemma {:induction false} IngestEmits(policy: FlowBuilders.Policy, c: Collector, raw: PacketEvents.RawEvent, taken: nat)
    requires taken <= |DueStates(policy, c, raw)|
    ensures Ingest(policy, c, raw, TakesUpTo(taken)).0.emitted == c.emitted + DueStates(policy, c, raw)[..taken]
  {
    var (table, answer) := FlowBuilders.Feed(policy, c.builder, raw);
    var t := if raw.timestamp.Some? then raw.timestamp.value else 0;
    if answer.Ok? && answer.value != [] {
      var rows := RowsOf(FlowBuilders.RecordsOf(answer.value), t);
      AcceptCompletes(c.(builder := table), rows);
      EmissionTakesUpTo(AcceptRows(c.(builder := table), rows), DueStates(policy, c, raw), taken);
    } else {
      assert c.emitted + [] == c.emitted;
    }
  }

  lemma {:induction false} MapPrefix<T, U>(xs: seq<T>, f: T -> U, k: nat)
    requires k <= |xs|
    ensures k <= |Map(xs, f)| && Map(xs, f)[..k] == Map(xs[..k], f)
  {
    MapAt(xs, f);
    MapAt(xs[..k], f);
  }

  /** Every state the agent has collected was handed over by a collector, in that order, and every
      state handed over was collected. */
  ghost predicate Matches(setup: Setup, j: Joint) {
    Collected(SystemOf(setup, j).taken) == j.past + Map(CollectorOf(setup, j).emitted, setup.point)
  }

  lemma {:induction false} CaptureKeepsMatch(setup: Setup, j: Joint, raw: PacketEvents.RawEvent,
                                             between: nat -> seq<Action>, now: real)
    requires Matches(setup, j)
    ensures Matches(setup, Step(setup, j, Capture(raw, between, now)))
  {
    var due := DueAfter(setup, j, raw);
    MapAt(due, setup.point);
    var (trace, taken) := HandOver(setup.world, j.trace, Map(due, setup.point), between, now, 0);
    HandOverCollects(setup.world, j.trace, Map(due, setup.point), between, now, 0);
    MapPrefix(due, setup.point, taken);
    CollectorAppends(setup, j, raw, taken);
    ConcatIsAssociative(j.past, Map(CollectorOf(setup, j).emitted, setup.point), Map(due[..taken], setup.point));
  }

  lemma {:induction false} CollectorAppends(setup: Setup, j: Joint, raw: PacketEvents.RawEvent, taken: nat)
    requires taken <= |DueAfter(setup, j, raw)|
    ensures Map(RunCollector(setup.policy, j.offers + [Offer(raw, TakesUpTo(taken))]).emitted, setup.point)
            == Map(CollectorOf(setup, j).emitted, setup.point) + Map(DueAfter(setup, j, raw)[..taken], setup.point)
  {
    var c := CollectorOf(setup, j);
    assert Front(j.offers + [Offer(raw, TakesUpTo(taken))]) == j.offers;
    IngestEmits(setup.policy, c, raw, taken);
    MapConcat(c.emitted, DueAfter(setup, j, raw)[..taken], setup.point);
  }

  lemma {:induction false} LoopKeepsMatch(setup: Setup, j: Joint, action: Action)
    requires Matches(setup, j)
    ensures Matches(setup, Step(setup, j, Loop(action)))
  {
    if !action.Collect? {
      SpilledStates.RunAppend(setup.world, j.trace, action);
      LoopCollectsNothing(setup.world, SystemOf(setup, j), action);
      var handed := j.past + Map(CollectorOf(setup, j).emitted, setup.point);
      assert handed + [] == handed;
    }
  }

  /** Over every joint run the collected states are, in order, exactly those that the collectors
      handed over: what is handed over twice is collected twice, and nothing else is. */
  lemma {:induction false} CollectedAreEmitted(setup: Setup, moments: seq<Moment>)
    ensures Matches(setup, After(setup, moments))
  {
    if moments == [] {
      assert Collected([]) == [] && [] + Map([], setup.point) == [];
    } else {
      CollectedAreEmitted(setup, Front(moments));
      match Last(moments) {
        case Capture(raw, between, now) => CaptureKeepsMatch(setup, After(setup, Front(moments)), raw, between, now);
        case Loop(action) => LoopKeepsMatch(setup, After(setup, Front(moments)), action);
      }
    }
  }

  // ---- Exactly once ----

  /** The collected states, followed by those that wait in the collector, are those of the earlier
      collectors and the aggregation of all flows completed in this one. */
  ghost predicate CollectsAggregation(setup: Setup, j: Joint) {
    Collected(SystemOf(setup, j).taken) + Map(PendingStates(CollectorOf(setup, j).windows), setup.point)
    == j.past + Map(StatesOfFlows(CollectorOf(setup, j).completed, STATE_INTERVAL), setup.point)
  }

  lemma {:induction false} PartsOfAggregation(past: seq<StatePoint>, emitted: seq<NetState>, pending: seq<NetState>,
                                              all: seq<NetState>, point: NetState -> StatePoint)
    ensures past + Map(emitted, point) + Map(pending, point) == past + Map(emitted + pending, point)
    ensures emitted + pending == all ==> past + Map(emitted, point) + Map(pending, point) == past + Map(all, point)
    ensures |emitted| + |pending| != |all| ==> past + Map(emitted, point) + Map(pending, point) != past + Map(all, point)
  {
    MapConcat(emitted, pending, point);
    ConcatIsAssociative(past, Map(emitted, point), Map(pending, point));
    MapAt(emitted, point);
    MapAt(pending, point);
    MapAt(all, point);
    assert |past + Map(emitted, point) + Map(pending, point)| == |past| + |emitted| + |pending|;
    assert |past + Map(all, point)| == |past| + |all|;
  }

  /** Over every joint run, every aggregated state is collected exactly once, but for those that wait,
      if and only if no call took a state and then met a full deque. */
  lemma {:induction false} CollectedExactlyOnce(setup: Setup, moments: seq<Moment>)
    ensures
      var j := After(setup, moments);
      CollectsAggregation(setup, j) <==> NeverInterrupted(setup.policy, j.offers)
  {
    var j := After(setup, moments);
    var c := CollectorOf(setup, j);
    CollectedAreEmitted(setup, moments);
    EmissionIsBatchAggregation(setup.policy, j.offers);
    CollectorStaysExact(setup.policy, j.offers);
    PartsOfAggregation(j.past, c.emitted, PendingStates(c.windows), StatesOfFlows(c.completed, STATE_INTERVAL), setup.point);
  }

  // ---- When a call is interrupted ----

  function Nothing(): nat -> seq<Action> {
    (i: nat) => []
  }

  lemma {:induction false} NothingBetween(trace: seq<Action>, i: nat)
    ensures trace + Filter(Nothing()(i), IsLoop()) == trace
  {
  }

  lemma {:induction false} FirstHandedOver(w: World, trace: seq<Action>, points: seq<StatePoint>, now: real, i: nat)
    requires points != []
    ensures
      var next := trace + [Collect(points[0], now)];
      HandOver(w, trace, points, Nothing(), now, i).1 ==
        if |Run(w, trace).agent.pending| >= PendingLimit(w.cfg) then 0
        else HandOver(w, next, points[1..], Nothing(), now, i + 1).1 + 1
  {
    NothingBetween(trace, i);
  }

  lemma {:induction false} CollectTakesRoom(w: World, trace: seq<Action>, state: StatePoint, now: real)
    requires |Run(w, trace).agent.pending| < PendingLimit(w.cfg)
    ensures |Run(w, trace + [Collect(state, now)]).agent.pending| == |Run(w, trace).agent.pending| + 1
  {
    SpilledStates.RunAppend(w, trace, Collect(state, now));
  }

  /** Without anything in between, the deque takes as many states as it has room for. */
  lemma {:induction false} HandOverFillsRoom(w: World, trace: seq<Action>, points: seq<StatePoint>, now: real,
                                             i: nat, room: nat)
    requires |Run(w, trace).agent.pending| + room == PendingLimit(w.cfg)
    ensures HandOver(w, trace, points, Nothing(), now, i).1 == Min(|points|, room)
    decreases |points|
  {
    if points != [] {
      FirstHandedOver(w, trace, points, now, i);
      if room > 0 {
        CollectTakesRoom(w, trace, points[0], now);
        HandOverFillsRoom(w, trace + [Collect(points[0], now)], points[1..], now, i + 1, room - 1);
      }
    }
  }

  lemma {:induction false} RefusesBeyond(taken: nat, n: nat)
    requires taken <= n
    ensures TakesUpTo(taken)(0) && Refuses(TakesUpTo(taken), n) <==> 0 < taken < n
  {
    assert taken < n ==> !TakesUpTo(taken)(taken);
  }

  /** How much room the agent's deque has. */
  function RoomOf(setup: Setup, j: Joint): int {
    PendingLimit(setup.world.cfg) - |SystemOf(setup, j).agent.pending|
  }

  lemma {:induction false} RoomIsNatural(setup: Setup, j: Joint)
    requires Ready(setup.world)
    ensures RoomOf(setup, j) >= 0
  {
    RunConserves(setup.world, j.trace);
  }

  lemma {:induction false} CaptureOffers(setup: Setup, j: Joint, raw: PacketEvents.RawEvent,
                                         between: nat -> seq<Action>, now: real)
    ensures
      var points := Map(DueAfter(setup, j, raw), setup.point);
      var taken := HandOver(setup.world, j.trace, points, between, now, 0).1;
      Step(setup, j, Capture(raw, between, now)).offers == j.offers + [Offer(raw, TakesUpTo(taken))]
  {
  }

  lemma {:induction false} OfferIsInterrupted(policy: FlowBuilders.Policy, offers: seq<Offer>,
                                              raw: PacketEvents.RawEvent, taken: nat)
    requires taken <= |DueStates(policy, RunCollector(policy, offers), raw)|
    ensures Interrupted(policy, offers + [Offer(raw, TakesUpTo(taken))])
            <==> 0 < taken < |DueStates(policy, RunCollector(policy, offers), raw)|
  {
    assert Front(offers + [Offer(raw, TakesUpTo(taken))]) == offers;
    RefusesBeyond(taken, |DueStates(policy, RunCollector(policy, offers), raw)|);
  }

  lemma {:induction false} CaptureInterruptedExactly(setup: Setup, j: Joint, raw: PacketEvents.RawEvent, now: real)
    requires RoomOf(setup, j) >= 0
    ensures Interrupted(setup.policy, Step(setup, j, Capture(raw, Nothing(), now)).offers)
            <==> 0 < RoomOf(setup, j) < |DueAfter(setup, j, raw)|
  {
    var points := Map(DueAfter(setup, j, raw), setup.point);
    MapAt(DueAfter(setup, j, raw), setup.point);
    CaptureOffers(setup, j, raw, Nothing(), now);
    HandOverFillsRoom(setup.world, j.trace, points, now, 0, RoomOf(setup, j));
    OfferIsInterrupted(setup.policy, j.offers, raw, HandOver(setup.world, j.trace, points, Nothing(), now, 0).1);
  }

  /** A call is interrupted, if nothing happens in between, exactly when the deque has room for the
      first of the due states but not for all of them. */
  lemma {:induction false} InterruptedExactlyByRoom(setup: Setup, moments: seq<Moment>, raw: PacketEvents.RawEvent,
                                                    now: real)
    requires Ready(setup.world)
    ensures
      var j := After(setup, moments);
      Interrupted(setup.policy, Step(setup, j, Capture(raw, Nothing(), now)).offers)
      <==> 0 < RoomOf(setup, j) < |DueAfter(setup, j, raw)|
  {
    RoomIsNatural(setup, After(setup, moments));
    CaptureInterruptedExactly(setup, After(setup, moments), raw, now);
  }

  // ---- From packets to commits ----

  ghost predicate NoneOversize(w: World, s: System) {
    forall i :: 0 <= i < |s.built| ==> s.built[i].encodedBytes <= w.cfg.limits.maxBytes
  }

  lemma {:induction false} CommittedAreCollected(w: World, trace: seq<Action>)
    requires Ready(w) && NoneOversize(w, Run(w, trace))
    ensures Subsequence(StatesOf(Run(w, trace).trail.ever), Collected(Run(w, trace).taken))
  {
    StatesAreCommittedAtMostOnce(w, trace);
  }

  /** In every joint run without an interrupted call and without a batch over the disk's byte limit,
      central commits states of the aggregation only, each at most once and in order, together with
      those of earlier collectors. */
  lemma {:induction false} CommittedAreAggregated(setup: Setup, moments: seq<Moment>)
    requires Ready(setup.world) && NeverInterrupted(setup.policy, After(setup, moments).offers)
    requires NoneOversize(setup.world, SystemOf(setup, After(setup, moments)))
    ensures
      var j := After(setup, moments);
      Subsequence(StatesOf(SystemOf(setup, j).trail.ever),
                  j.past + Map(StatesOfFlows(CollectorOf(setup, j).completed, STATE_INTERVAL), setup.point))
  {
    var j := After(setup, moments);
    CommittedAreCollected(setup.world, j.trace);
    CollectedExactlyOnce(setup, moments);
    SubsequenceOfLonger(StatesOf(SystemOf(setup, j).trail.ever), Collected(SystemOf(setup, j).taken),
                        Map(PendingStates(CollectorOf(setup, j).windows), setup.point));
  }
}
