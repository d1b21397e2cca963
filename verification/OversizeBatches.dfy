/** Why state-level at-most-once needs the byte limit: the runs in which it fails. */
module OversizeBatches {
  import opened Prelude
  import opened Telemetry
  import StateBuffers
  import opened SensorAgents
  import opened Endpoint
  import opened CentralRuns
  import opened Delivery

  lemma {:induction false} OneStateIsAcceptable(b: Batch, sourceLimit: nat)
    requires b.sequence >= 1 && |b.states| == 1 && b.sourceIntervals == [] && StateBuffers.WellFormed(b.states[0])
    ensures Acceptable(b, sourceLimit)
  {
  }

  /** One state pending, nothing queued, and the service freshly restarted. */
  ghost predicate OneStatePending(w: World, s: System, state: StatePoint) {
    var c := s.trail.central;
    && s.wait.Idle? && s.agent.disk.files == [] && s.agent.pending == [state]
    && c.runtimes == map[] && c.registry.requestTimes == map[] && w.cfg.sensorId in c.registry.sensors
    && c.registry.sensors[w.cfg.sensorId].lastSequence < s.agent.nextSequence
  }

  function SendLive(w: World, s: System, stamp: Stamp): System {
    DoHandleLive(w, DoDispatch(w, DoBeginSubmit(w, s, stamp), 0.0), 0, 0)
  }

  lemma {:induction false} OneStateIsCommitted(w: World, s: System, state: StatePoint, stamp: Stamp)
    requires Validated(w.cfg) && w.settings.rateLimit >= 1 && w.settings.maxSensors >= 1
    requires OneStatePending(w, s, state) && stamp.sourceIntervals == []
    requires StateBuffers.WellFormed(state)
    ensures
      var next := SendLive(w, s, stamp);
      var b := Envelope(w.cfg.sensorId, s.agent.nextSequence, [state], stamp);
      && next.wait == Direct(b, Some(AcceptedReply))
      && next.trail.ever == s.trail.ever + [b]
      && next.agent == s.agent.(pending := [], nextSequence := s.agent.nextSequence + 1)
      && w.cfg.sensorId in next.trail.central.registry.sensors
      && next.trail.central.registry.sensors[w.cfg.sensorId].lastSequence == b.sequence
      && next.taken == s.taken
  {
    var b := Envelope(w.cfg.sensorId, s.agent.nextSequence, [state], stamp);
    assert Riding(stamp) == stamp;
    assert s.agent.pending[..1] == [state] && s.agent.pending[1..] == [];
    var begun := DoDispatch(w, DoBeginSubmit(w, s, stamp), 0.0);
    assert begun.wait == Direct(b, None);
    OneStateIsAcceptable(b, w.settings.maxSourcesPerWindow);
    NewServiceAccepts(w.settings, s.trail.central, w.cfg.sensorId, b, 0, 0);
    RequestCommitsOrLeavesAlone(w.settings, s.trail.central, w.cfg.sensorId, b, 0, 0);
  }

  function LoseReply(w: World, s: System): System {
    DoOtherTraffic(w, DoResume(w, s, Failed(None), 0.0, 0.0, 0.0), Restart)
  }

  lemma {:induction false} OversizeStateIsPendingAgain(w: World, s: System, state: StatePoint)
    requires Validated(w.cfg)
    requires s.wait.Direct? && s.wait.b.states == [state] && s.wait.b.encodedBytes > w.cfg.limits.maxBytes
    requires s.agent.disk.files == [] && s.agent.pending == []
    requires w.cfg.sensorId in s.trail.central.registry.sensors
    requires s.trail.central.registry.sensors[w.cfg.sensorId].lastSequence == s.wait.b.sequence
    requires 1 <= s.wait.b.sequence < s.agent.nextSequence
    ensures
      var next := LoseReply(w, s);
      && OneStatePending(w, next, state)
      && next.trail.ever == s.trail.ever && next.taken == s.taken
  {
    var next := DoResume(w, s, Failed(None), 0.0, 0.0, 0.0);
    assert next.agent.pending == [state] by {
      PutBackIsExactlyInverse([state], [], PendingLimit(w.cfg));
      assert [state] + [] == [state];
    }
  }

  /** Collect a state, have its oversize batch committed, lose the reply, restart the service,
      and send again. */
  function SendTwice(state: StatePoint, stamp: Stamp): seq<Action> {
    [Collect(state, 0.0)]
    + [BeginSubmit(stamp), Dispatch(0.0), HandleLive(0, 0)]
    + [Resume(Failed(None), 0.0, 0.0, 0.0), OtherTraffic(Restart)]
    + [BeginSubmit(stamp), Dispatch(0.0), HandleLive(0, 0)]
  }

  lemma {:induction false} RunAppendTwo(w: World, a: seq<Action>, x: Action, y: Action)
    ensures Run(w, a + [x, y]) == Apply(w, Run(w, a + [x]), y)
  {
    assert a + [x] + [y] == a + [x, y];
  }

  lemma {:induction false} RunSends(w: World, a: seq<Action>, stamp: Stamp)
    ensures Run(w, a + [BeginSubmit(stamp), Dispatch(0.0), HandleLive(0, 0)]) == SendLive(w, Run(w, a), stamp)
  {
    RunAppendTwo(w, a, BeginSubmit(stamp), Dispatch(0.0));
    var begun := a + [BeginSubmit(stamp), Dispatch(0.0)];
    assert begun + [HandleLive(0, 0)] == a + [BeginSubmit(stamp), Dispatch(0.0), HandleLive(0, 0)];
  }

  lemma {:induction false} RunLosesReply(w: World, a: seq<Action>)
    ensures Run(w, a + [Resume(Failed(None), 0.0, 0.0, 0.0), OtherTraffic(Restart)]) == LoseReply(w, Run(w, a))
  {
    RunAppendTwo(w, a, Resume(Failed(None), 0.0, 0.0, 0.0), OtherTraffic(Restart));
  }

  function SentTwice(w: World, state: StatePoint, stamp: Stamp): System {
    SendLive(w, LoseReply(w, SendLive(w, DoCollect(w, Initial(w), state, 0.0), stamp)), stamp)
  }

  lemma {:induction false} RunSendsTwice(w: World, state: StatePoint, stamp: Stamp)
    ensures Run(w, SendTwice(state, stamp)) == SentTwice(w, state, stamp)
  {
    var collect := [Collect(state, 0.0)];
    var once := collect + [BeginSubmit(stamp), Dispatch(0.0), HandleLive(0, 0)];
    RunSends(w, collect, stamp);
    RunLosesReply(w, once);
    RunSends(w, once + [Resume(Failed(None), 0.0, 0.0, 0.0), OtherTraffic(Restart)], stamp);
  }

  lemma {:induction false} OneStateIsCollected(w: World, state: StatePoint)
    requires Ready(w) && w.start.registry.requestTimes == map[]
    ensures
      var s := DoCollect(w, Initial(w), state, 0.0);
      && OneStatePending(w, s, state) && s.trail.ever == []
      && s.agent.nextSequence == 1 && Collected(s.taken) == [state]
  {
    assert Front([Taken(state, false)]) == [];
  }

  /** The state has been committed once and is pending again. */
  lemma {:induction false} SentOnceIsPendingAgain(w: World, state: StatePoint, stamp: Stamp)
    requires Ready(w) && w.start.registry.requestTimes == map[]
    requires w.settings.rateLimit >= 1 && w.settings.maxSensors >= 1
    requires StateBuffers.WellFormed(state)
    requires stamp.sourceIntervals == [] && stamp.encodedBytes > w.cfg.limits.maxBytes
    ensures
      var s := LoseReply(w, SendLive(w, DoCollect(w, Initial(w), state, 0.0), stamp));
      && OneStatePending(w, s, state) && Collected(s.taken) == [state]
      && |s.trail.ever| == 1 && s.trail.ever[0].states == [state]
  {
    OneStateIsCollected(w, state);
    var collected := DoCollect(w, Initial(w), state, 0.0);
    OneStateIsCommitted(w, collected, state, stamp);
    OversizeStateIsPendingAgain(w, SendLive(w, collected, stamp), state);
  }

  lemma {:induction false} SentTwiceCommitsTwice(w: World, state: StatePoint, stamp: Stamp)
    requires Ready(w) && w.start.registry.requestTimes == map[]
    requires w.settings.rateLimit >= 1 && w.settings.maxSensors >= 1
    requires StateBuffers.WellFormed(state)
    requires stamp.sourceIntervals == [] && stamp.encodedBytes > w.cfg.limits.maxBytes
    ensures
      var s := SentTwice(w, state, stamp);
      && Collected(s.taken) == [state]
      && |s.trail.ever| == 2 && s.trail.ever[0].states == [state] && s.trail.ever[1].states == [state]
  {
    SentOnceIsPendingAgain(w, state, stamp);
    OneStateIsCommitted(w, LoseReply(w, SendLive(w, DoCollect(w, Initial(w), state, 0.0), stamp)), state, stamp);
  }

  /** For every batch over the byte limit there is such a run: one state collected, and the same
      state committed twice under two numbers. */
  lemma {:induction false} OversizeStateIsCommittedTwice(w: World, state: StatePoint, stamp: Stamp)
    requires Ready(w) && w.start.registry.requestTimes == map[]
    requires w.settings.rateLimit >= 1 && w.settings.maxSensors >= 1
    requires StateBuffers.WellFormed(state)
    requires stamp.sourceIntervals == [] && stamp.encodedBytes > w.cfg.limits.maxBytes
    ensures
      var s := Run(w, SendTwice(state, stamp));
      && Collected(s.taken) == [state]
      && StatesOf(s.trail.ever) == [state, state]
      && !Subsequence(StatesOf(s.trail.ever), Collected(s.taken))
  {
    RunSendsTwice(w, state, stamp);
    SentTwiceCommitsTwice(w, state, stamp);
    TwoBatchesOfOneState(SentTwice(w, state, stamp).trail.ever, state);
    LongerIsNoSubsequence([state, state], [state]);
  }

  lemma {:induction false} TwoBatchesOfOneState(ever: seq<Batch>, state: StatePoint)
    requires |ever| == 2 && ever[0].states == [state] && ever[1].states == [state]
    ensures StatesOf(ever) == [state, state]
  {
    var first := Front(ever);
    assert Front(first) == [] && Last(first) == ever[0];
    assert StatesOf(first) == [] + [state];
  }

  lemma {:induction false} LongerIsNoSubsequence<T>(xs: seq<T>, ys: seq<T>)
    requires |xs| > |ys|
    ensures !Subsequence(xs, ys)
  {
    if ys != [] {
      LongerIsNoSubsequence(xs, Front(ys));
      LongerIsNoSubsequence(Front(xs), Front(ys));
    }
  }
}
