/** Batches that central refuses for good: exactly which they are, and that no run commits them. */
module RefusedBatches {
  import opened Prelude
  import opened Telemetry
  import StateBuffers
  import opened SensorAgents
  import opened SensorRegistries
  import opened Endpoint
  import opened CentralRuns
  import opened Delivery
  import opened DeliverySafety
  import opened DeliveryFates
  import opened DeliveryStates
  import opened SpilledStates

  // ---- Only acceptable batches are committed ----

  ghost predicate AllAcceptable(batches: seq<Batch>, sourceLimit: nat) {
    forall i :: 0 <= i < |batches| ==> Acceptable(batches[i], sourceLimit)
  }

  lemma {:induction false} StepCommitsAcceptable(cfg: Settings, t: Trail, e: Event, id: string)
    requires AllAcceptable(t.ever, cfg.maxSourcesPerWindow)
    ensures AllAcceptable(Advance(cfg, t, e, id).ever, cfg.maxSourcesPerWindow)
  {
    if Commits(cfg, t.central, e, id) {
      AcceptedIsAcceptable(cfg, t.central, id, e.batch, e.nowCheck, e.nowCommit);
    }
  }

  lemma {:induction false} ActionCommitsAcceptable(w: World, s: System, action: Action)
    requires AllAcceptable(s.trail.ever, w.settings.maxSourcesPerWindow)
    ensures AllAcceptable(Apply(w, s, action).trail.ever, w.settings.maxSourcesPerWindow)
  {
    match action {
      case HandleLive(nowCheck, nowCommit) =>
        if Requesting(s.wait) {
          StepCommitsAcceptable(w.settings, s.trail, Deliver(w.cfg.sensorId, s.wait.b, nowCheck, nowCommit), w.cfg.sensorId);
        }
      case HandleStale(copy, nowCheck, nowCommit) =>
        StepCommitsAcceptable(w.settings, s.trail, Deliver(w.cfg.sensorId, copy, nowCheck, nowCommit), w.cfg.sensorId);
      case OtherTraffic(e) => StepCommitsAcceptable(w.settings, s.trail, e, w.cfg.sensorId);
      case _ => AgentActsThroughRequests(w, s, action);
    }
  }

  lemma {:induction false} CommitsAreAcceptable(w: World, actions: seq<Action>)
    ensures AllAcceptable(Run(w, actions).trail.ever, w.settings.maxSourcesPerWindow)
  {
    if actions != [] {
      CommitsAreAcceptable(w, Front(actions));
      ActionCommitsAcceptable(w, Run(w, Front(actions)), Last(actions));
    }
  }

  /** In every run a batch that is not acceptable is never committed and never counts as delivered,
      however often it is sent. */
  lemma {:induction false} UnacceptableIsNeverDelivered(w: World, actions: seq<Action>, n: nat)
    requires Ready(w) && 1 <= n <= |Run(w, actions).built|
    requires !Acceptable(Run(w, actions).built[n - 1], w.settings.maxSourcesPerWindow)
    ensures
      var s := Run(w, actions);
      s.built[n - 1] !in s.trail.ever && n in s.fate && s.fate[n] != Delivered
  {
    var s := Run(w, actions);
    CommitsAreAcceptable(w, actions);
    EveryNumberHasOneFate(w, actions);
    assert n in s.fate;
    assert s.fate[n] == Delivered <==> n in Having(s.fate, Delivered);
  }

  // ---- What the agent builds ----

  /** The limits that the batcher keeps. */
  ghost predicate Fitting(built: seq<Batch>) {
    forall i :: 0 <= i < |built| ==>
      1 <= |built[i].states| <= MAX_BATCH_STATES && |built[i].sourceIntervals| <= MAX_SOURCE_ROWS
  }

  lemma {:induction false} ActionBuildsFitting(w: World, s: System, action: Action)
    requires Validated(w.cfg) && Fitting(s.built)
    ensures Fitting(Apply(w, s, action).built)
  {
    if action.BeginSubmit? {
      BeginSubmitBuildsFitting(w, s, action.stamp);
    } else {
      OthersBuildNothing(w, s, action);
    }
  }

  lemma {:induction false} BeginSubmitBuildsFitting(w: World, s: System, stamp: Stamp)
    requires Validated(w.cfg) && Fitting(s.built)
    ensures Fitting(DoBeginSubmit(w, s, stamp).built)
  {
  }

  lemma {:induction false} OthersBuildNothing(w: World, s: System, action: Action)
    requires !action.BeginSubmit?
    ensures Apply(w, s, action).built == s.built
  {
  }

  lemma {:induction false} BuiltBatchesFit(w: World, actions: seq<Action>)
    requires Ready(w)
    ensures Fitting(Run(w, actions).built)
  {
    if actions != [] {
      BuiltBatchesFit(w, Front(actions));
      ActionBuildsFitting(w, Run(w, Front(actions)), Last(actions));
    }
  }

  predicate FullFeatures(states: seq<StatePoint>) {
    forall i :: 0 <= i < |states| ==> |states[i].features| == StateBuffers.FEATURE_COUNT
  }

  /** The batch of a live request is a built one, addressed as its sensor. */
  lemma {:induction false} LiveBatchFits(w: World, actions: seq<Action>)
    requires Ready(w) && Requesting(Run(w, actions).wait)
    ensures
      var s := Run(w, actions);
      && w.cfg.sensorId in s.trail.central.registry.sensors
      && s.wait.b.sensorId == w.cfg.sensorId && IsBuilt(s.built, s.wait.b)
      && (SchemaValid(s.wait.b) <==> FullFeatures(s.wait.b.states))
  {
    var s := Run(w, actions);
    RunIsSafe(w, actions);
    BuiltBatchesFit(w, actions);
    LiveRequestIsNewest(w, s, s.wait.b);
    assert IsBuilt(s.built, s.wait.b);
  }

  // ---- Refused for good ----

  lemma {:induction false} ValidationRefusesExactly(sensors: map<string, Sensor>, id: string, b: Batch)
    requires id in sensors && b.sensorId == id && (SchemaValid(b) <==> FullFeatures(b.states))
    ensures
      var refusal := Validate(sensors, id, b);
      && (refusal.Some? <==> !FullFeatures(b.states) || !Coherent(b.states))
      && (refusal.Some? ==> StatusCode(refusal.value) == 422)
  {
  }

  lemma {:induction false} LiveRequestIsRefused(w: World, actions: seq<Action>)
    requires Ready(w) && Requesting(Run(w, actions).wait)
    ensures
      var s := Run(w, actions);
      var refusal := Validate(s.trail.central.registry.sensors, w.cfg.sensorId, s.wait.b);
      && (refusal.Some? <==> !FullFeatures(s.wait.b.states) || !Coherent(s.wait.b.states))
      && (refusal.Some? ==> StatusCode(refusal.value) == 422)
  {
    var s := Run(w, actions);
    LiveBatchFits(w, actions);
    ValidationRefusesExactly(s.trail.central.registry.sensors, w.cfg.sensorId, s.wait.b);
  }

  /** In every run, whatever central keeps and whatever its clocks say, it refuses the live request
      in validation exactly if a state lacks a feature or the states leave their day or have a
      gap; it then keeps nothing of the request, and the answer is a 422, which the agent never
      retries. */
  lemma {:induction false} RefusedForGoodExactly(w: World, actions: seq<Action>, nowCheck: int, nowCommit: int)
    requires Ready(w) && Requesting(Run(w, actions).wait)
    ensures
      var s := Run(w, actions);
      var (after, reply) := Handle(w.settings, s.trail.central, w.cfg.sensorId, s.wait.b, nowCheck, nowCommit);
      var refusal := Validate(s.trail.central.registry.sensors, w.cfg.sensorId, s.wait.b);
      && (refusal.Some? <==> !FullFeatures(s.wait.b.states) || !Coherent(s.wait.b.states))
      && (refusal.Some? ==>
            && after == s.trail.central && reply == refusal.value && StatusCode(reply) == 422
            && !Transient(Failed(Some(StatusCode(reply)))))
  {
    LiveRequestIsRefused(w, actions);
  }

  /** The batch of `s` is gone in `next`: its number is refused and on record as rejected, its file
      has left the queue, its states are not pending again, and nothing has been committed. */
  ghost predicate GoneForGood(s: System, next: System)
    requires Requesting(s.wait)
  {
    var n := s.wait.b.sequence;
    && next.wait.Idle? && n in next.fate && next.fate[n] == Fate.Refused && n in next.agent.disk.rejected
    && next.agent.pending == s.agent.pending && next.trail.ever == s.trail.ever && next.taken == s.taken
    && next.agent.disk.files ==
       if s.wait.Flushing? && s.agent.disk.files != [] then s.agent.disk.files[1..] else s.agent.disk.files
  }

  lemma {:induction false} HeardRefusal(w: World, s: System, nowCheck: int, nowCommit: int, later: real,
                                        jitter: real, after: real)
    requires Core(w, s) && Requesting(s.wait) && s.wait.reply.None?
    requires Validate(s.trail.central.registry.sensors, w.cfg.sensorId, s.wait.b).Some?
    ensures GoneForGood(s, DoResume(w, DoHandleLive(w, s, nowCheck, nowCommit), Failed(Some(422)), later, jitter, after))
  {
    if s.wait.Flushing? {
      PopHead(s.agent.disk.files);
    }
  }

  /** Once a live request has been so refused and the agent has heard it, nothing of the batch is
      left on either side but the record of its rejection. */
  lemma {:induction false} HeardRefusalIsFinal(w: World, actions: seq<Action>, nowCheck: int, nowCommit: int,
                                               later: real, jitter: real, after: real)
    requires Ready(w) && Requesting(Run(w, actions).wait) && Run(w, actions).wait.reply.None?
    requires !FullFeatures(Run(w, actions).wait.b.states) || !Coherent(Run(w, actions).wait.b.states)
    ensures
      var answered := actions + [HandleLive(nowCheck, nowCommit)] + [Resume(Failed(Some(422)), later, jitter, after)];
      GoneForGood(Run(w, actions), Run(w, answered))
  {
    LiveRequestIsRefused(w, actions);
    RunIsSafe(w, actions);
    HeardRefusal(w, Run(w, actions), nowCheck, nowCommit, later, jitter, after);
    RunAnswers(w, actions, nowCheck, nowCommit, Failed(Some(422)), later, jitter, after);
  }

  lemma {:induction false} RunAnswers(w: World, actions: seq<Action>, nowCheck: int, nowCommit: int, r: Response,
                                      later: real, jitter: real, after: real)
    ensures Run(w, actions + [HandleLive(nowCheck, nowCommit)] + [Resume(r, later, jitter, after)])
            == DoResume(w, DoHandleLive(w, Run(w, actions), nowCheck, nowCommit), r, later, jitter, after)
  {
    RunAppend(w, actions, HandleLive(nowCheck, nowCommit));
    RunAppend(w, actions + [HandleLive(nowCheck, nowCommit)], Resume(r, later, jitter, after));
  }

  /** Answered by a service that has just restarted, the live request of any run is acknowledged
      if and only if its batch is acceptable. */
  lemma {:induction false} AcknowledgedExactlyIfAcceptable(w: World, actions: seq<Action>, nowCheck: int, nowCommit: int)
    requires Ready(w) && Requesting(Run(w, actions).wait)
    requires w.settings.rateLimit >= 1 && w.settings.maxSensors >= 1
    ensures
      var s := Run(w, actions + [OtherTraffic(Restart)]);
      s.wait == Run(w, actions).wait
      && (Acknowledges(Handle(w.settings, s.trail.central, w.cfg.sensorId, s.wait.b, nowCheck, nowCommit).1)
          <==> Acceptable(s.wait.b, w.settings.maxSourcesPerWindow))
  {
    var more := actions + [OtherTraffic(Restart)];
    RunAppend(w, actions, OtherTraffic(Restart));
    RunIsSafe(w, more);
    LiveBatchFits(w, more);
    CommitsAreAcceptable(w, more);
    RestartedAnswer(w, Run(w, more), nowCheck, nowCommit);
  }

  lemma {:induction false} RestartedAnswer(w: World, s: System, nowCheck: int, nowCommit: int)
    requires Ready(w) && Core(w, s) && CentralSide(w, s) && Requesting(s.wait)
    requires w.settings.rateLimit >= 1 && w.settings.maxSensors >= 1
    requires s.trail.central.runtimes == map[] && s.trail.central.registry.requestTimes == map[]
    requires s.wait.b.sensorId == w.cfg.sensorId && AllAcceptable(s.trail.ever, w.settings.maxSourcesPerWindow)
    ensures Acknowledges(Handle(w.settings, s.trail.central, w.cfg.sensorId, s.wait.b, nowCheck, nowCommit).1)
            <==> Acceptable(s.wait.b, w.settings.maxSourcesPerWindow)
  {
    LiveRequestIsNewOrLast(w, s);
    var c, id, b := s.trail.central, w.cfg.sensorId, s.wait.b;
    if Handle(w.settings, c, id, b, nowCheck, nowCommit).1 == AcceptedReply {
      AcceptedIsAcceptable(w.settings, c, id, b, nowCheck, nowCommit);
    } else if Judge(c.registry.sensors[id], b) == Fresh && Acceptable(b, w.settings.maxSourcesPerWindow) {
      NewServiceAccepts(w.settings, c, id, b, nowCheck, nowCommit);
    }
  }

  // ---- Midnight ----

  /** States as the collector emits them: on the day of their time, later each time, and ten
      seconds apart within a day. */
  ghost predicate Spaced(states: seq<StatePoint>) {
    && (forall i :: 0 <= i < |states| ==> states[i].captureDay == states[i].timestamp / DAY)
    && (forall i, j :: 0 <= i < j < |states| ==> states[i].timestamp < states[j].timestamp)
    && (forall i, j :: 0 <= i && j == i + 1 < |states| && states[i].captureDay == states[j].captureDay ==>
          states[j].timestamp - states[i].timestamp == STATE_INTERVAL)
  }

  lemma {:induction false} DaysDoNotFall(states: seq<StatePoint>, i: nat, j: nat)
    requires Spaced(states) && i <= j < |states|
    ensures states[i].captureDay <= states[j].captureDay
  {
    if i < j {
      assert states[i].timestamp < states[j].timestamp;
    }
  }

  lemma {:induction false} LinkedStatesShareDay(states: seq<StatePoint>)
    requires states != [] && Coherent(states)
    ensures states[0].captureDay == Last(states).captureDay
  {
    if |states| > 1 {
      var shorter := Front(states);
      assert forall i :: 0 <= i < |shorter| - 1 ==> StateBuffers.Linked(states[i], states[i + 1]);
      LinkedStatesShareDay(shorter);
      assert StateBuffers.Linked(states[|states| - 2], states[|states| - 2 + 1]);
    }
  }

  /** Such states are coherent exactly if no midnight lies among them. */
  lemma {:induction false} SpacedIsCoherentExactly(states: seq<StatePoint>)
    requires Spaced(states) && states != []
    ensures Coherent(states) <==> states[0].captureDay == Last(states).captureDay
  {
    if states[0].captureDay == Last(states).captureDay {
      forall i | 0 <= i < |states| - 1
        ensures StateBuffers.Linked(states[i], states[i + 1])
      {
        DaysDoNotFall(states, 0, i);
        DaysDoNotFall(states, i, i + 1);
        DaysDoNotFall(states, i + 1, |states| - 1);
      }
    } else if Coherent(states) {
      LinkedStatesShareDay(states);
    }
  }

  ghost predicate SliceAt(all: seq<StatePoint>, k: nat, part: seq<StatePoint>) {
    k + |part| <= |all| && all[k..k + |part|] == part
  }

  lemma {:induction false} SliceIsSpaced(all: seq<StatePoint>, k: nat, part: seq<StatePoint>)
    requires Spaced(all) && SliceAt(all, k, part)
    ensures Spaced(part)
  {
    assert forall i :: 0 <= i < |part| ==> part[i] == all[k + i];
  }

  lemma {:induction false} ChunkIsSlice(log: seq<Chunk>, more: seq<StatePoint>, x: Chunk) returns (k: nat)
    requires x in log
    ensures SliceAt(StatesIn(log) + more, k, x.states)
  {
    var front := StatesIn(Front(log));
    assert StatesIn(log) + more == front + (Last(log).states + more);
    if x == Last(log) {
      k := |front|;
      assert (front + (x.states + more))[k..k + |x.states|] == x.states;
    } else {
      k := ChunkIsSlice(Front(log), Last(log).states + more, x);
    }
  }

  /** The states of a live request lie next to each other among the kept ones. */
  lemma {:induction false} LiveBatchIsSlice(w: World, actions: seq<Action>) returns (k: nat)
    requires Ready(w) && Requesting(Run(w, actions).wait)
    ensures SliceAt(Kept(Run(w, actions).taken), k, Run(w, actions).wait.b.states)
  {
    var s := Run(w, actions);
    RunIsSafe(w, actions);
    EveryNumberHasOneFate(w, actions);
    RunConserves(w, actions);
    LiveIsInLog(w, s);
    k := ChunkIsSlice(s.log, s.agent.pending, Chunk.Shipped(s.wait.b.sequence, s.wait.b.states));
  }

  lemma {:induction false} LiveIsInLog(w: World, s: System)
    requires Core(w, s) && Fated(s) && Shipments(w, s) && Requesting(s.wait)
    ensures InLog(s.log, s.wait.b)
  {
    LiveRequestIsNewest(w, s, s.wait.b);
    if s.wait.Direct? {
      InFlightHasFate(s.fate, s.wait.b.sequence);
    } else {
      QueuedFileHasFate(s.fate, s.agent.disk.files, 0);
    }
    BatchIsInLog(s.log, s.built, s.fate, s.wait.b);
  }

  /** In every run whose kept states are spaced as the collector spaces them, a live request is
      refused for good exactly if a state lacks a feature or a midnight lies between the first and
      the last state of its batch. */
  lemma {:induction false} MidnightDecides(w: World, actions: seq<Action>)
    requires Ready(w) && Requesting(Run(w, actions).wait) && Spaced(Kept(Run(w, actions).taken))
    ensures
      var s := Run(w, actions);
      var states := s.wait.b.states;
      && states != []
      && (Validate(s.trail.central.registry.sensors, w.cfg.sensorId, s.wait.b).Some?
          <==> !FullFeatures(states) || states[0].captureDay != Last(states).captureDay)
  {
    var s := Run(w, actions);
    LiveBatchFits(w, actions);
    BuiltBatchesFit(w, actions);
    LiveRequestIsRefused(w, actions);
    var k := LiveBatchIsSlice(w, actions);
    SliceIsSpaced(Kept(s.taken), k, s.wait.b.states);
    SpacedIsCoherentExactly(s.wait.b.states);
  }

  // ---- A run that loses a batch at midnight ----

  /** Collect the states, send them as one batch, and hear the refusal. */
  function RefusedRun(states: seq<StatePoint>, stamp: Stamp): seq<Action> {
    RequestRun(states, stamp) + [HandleLive(0, 0)] + [Resume(Failed(Some(422)), 0.0, 0.0, 0.0)]
  }

  function RequestRun(states: seq<StatePoint>, stamp: Stamp): seq<Action> {
    Collects(states) + [BeginSubmit(stamp)] + [Dispatch(0.0)]
  }

  /** All `states` are on their way in the first batch. */
  ghost predicate OnTheirWay(s: System, states: seq<StatePoint>) {
    && s.wait.Direct? && s.wait.reply.None? && s.wait.b.states == states && s.wait.b.sequence == 1
    && s.agent.pending == [] && s.agent.disk.files == [] && s.taken == Took(states) && s.trail.ever == []
  }

  lemma {:induction false} CollectedAreSent(w: World, s: System, states: seq<StatePoint>, stamp: Stamp)
    requires Validated(w.cfg) && 1 <= |states| <= w.cfg.batchSize && SpilledStates.Accepted(Initial(w), s, states)
    requires s.agent.nextSequence == 1 && s.trail.ever == []
    ensures OnTheirWay(DoDispatch(w, DoBeginSubmit(w, s, stamp), 0.0), states)
  {
    assert [] + Took(states) == Took(states) && [] + states == states;
    assert states[..|states|] == states && states[|states|..] == [];
  }

  lemma {:induction false} CollectingSendsNothing(w: World, states: seq<StatePoint>)
    ensures
      var s := Run(w, Collects(states));
      s.agent.nextSequence == 1 && s.trail.ever == []
  {
    if states != [] {
      CollectingSendsNothing(w, Front(states));
      RunAppend(w, Collects(Front(states)), Collect(Last(states), 0.0));
    }
  }

  lemma {:induction false} RequestRunSends(w: World, states: seq<StatePoint>, stamp: Stamp)
    requires Ready(w) && 1 <= |states| <= w.cfg.batchSize
    ensures OnTheirWay(Run(w, RequestRun(states, stamp)), states)
  {
    var fill := Collects(states);
    assert [] + fill == fill;
    RunCollects(w, [], states);
    CollectingSendsNothing(w, states);
    CollectedAreSent(w, Run(w, fill), states, stamp);
    RunAppend(w, fill, BeginSubmit(stamp));
    RunAppend(w, fill + [BeginSubmit(stamp)], Dispatch(0.0));
  }

  /** All states were accepted and none spilled, and none is pending, queued or committed. */
  ghost predicate NowhereLeft(s: System, states: seq<StatePoint>) {
    && Collected(s.taken) == states && Lost(s.taken) == []
    && s.agent.pending == [] && s.agent.disk.files == [] && s.trail.ever == []
    && 1 in s.fate && s.fate[1] == Fate.Refused
  }

  lemma {:induction false} GoneIsNowhereLeft(s: System, next: System, states: seq<StatePoint>)
    requires OnTheirWay(s, states) && GoneForGood(s, next)
    ensures NowhereLeft(next, states)
  {
    TookIsNotLost(states);
    TookIsCollected([], states);
    assert [] + Took(states) == Took(states) && [] + states == states;
  }

  /** For all states with a midnight or a gap among them, up to a batch full, there is such a run:
      every state was accepted and none spilled, and none is pending, queued or committed. */
  lemma {:induction false} IncoherentStatesAreLost(w: World, states: seq<StatePoint>, stamp: Stamp)
    requires Ready(w) && 1 <= |states| <= w.cfg.batchSize && !Coherent(states)
    ensures NowhereLeft(Run(w, RefusedRun(states, stamp)), states)
  {
    RequestRunSends(w, states, stamp);
    HeardRefusalIsFinal(w, RequestRun(states, stamp), 0, 0, 0.0, 0.0, 0.0);
    GoneIsNowhereLeft(Run(w, RequestRun(states, stamp)), Run(w, RefusedRun(states, stamp)), states);
  }
}
