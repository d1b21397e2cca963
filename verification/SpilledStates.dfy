/** When a put-back loses states: exactly which actions spill, and a run that does. */
module SpilledStates {
  import opened Prelude
  import opened Telemetry
  import opened DiskBuffer
  import opened SensorAgents
  import opened Delivery
  import opened DeliverySafety
  import opened DeliveryStates

  /** The newest batch cannot be queued: it is over the byte limit, or nothing may be evicted and
      there is no room. */
  predicate NoRoom(limits: Limits, files: seq<Entry>, b: Batch) {
    b.encodedBytes > limits.maxBytes || (limits.policy.RejectNew? && !HasSpace(limits, files, b.encodedBytes))
  }

  lemma {:induction false} QueueIsFullExactly(cfg: Config, a: Agent, older: seq<Batch>, b: Batch)
    requires Validated(cfg) && GoodFiles(older, a.disk.files) && b.sequence == |older| + 1
    ensures QueueBatch(cfg, a, b).1 == BufferFull <==> NoRoom(cfg.limits, a.disk.files, b)
  {
    GrownFiles(older, a.disk.files, b);
    if b.encodedBytes <= cfg.limits.maxBytes {
      if cfg.limits.policy.DropOldest? {
        DropOldestAlwaysStores(cfg.limits, a.disk, b);
      } else {
        RejectNewStoresExactlyWithSpace(cfg.limits, a.disk, b);
      }
    }
  }

  /** The action ends a drain round at a full buffer: a batch that has no room is dispatched
      behind other files, or its direct request fails in a way that may be retried. */
  predicate PutsBack(w: World, s: System, action: Action) {
    && Unsettled(s.wait) && NoRoom(w.cfg.limits, s.agent.disk.files, s.wait.b)
    && match action
       case Dispatch(_) => s.wait.Holding? && s.agent.disk.files != []
       case Resume(r, _, _, _) => s.wait.Direct? && Transient(r) && MayReport(s.wait.reply, r)
       case _ => false
  }

  predicate ReachesQueue(s: System, action: Action) {
    TouchesStates(s, action) && !action.Collect? && !action.BeginSubmit? && !action.Crash?
  }

  lemma {:induction false} LostStayLost(w: World, s: System, action: Action)
    requires !ReachesQueue(s, action)
    ensures !PutsBack(w, s, action)
    ensures Lost(Apply(w, s, action).taken) == Lost(s.taken)
  {
    if TouchesStates(s, action) {
      if action.Collect? {
        TakingOne(s.taken, Taken(action.state, false));
      }
    } else {
      OtherActionsTouchNoState(w, s, action);
    }
  }

  /** How many states the end of a drain round at the queue loses. */
  lemma {:induction false} ConcludingLoses(w: World, s: System, after: real)
    requires Validated(w.cfg) && Core(w, s) && StatesKept(w, s) && Unsettled(s.wait)
    ensures
      var next := Conclude(w, s, s.wait.b, QueueBatch(w.cfg, s.agent, s.wait.b), after);
      if NoRoom(w.cfg.limits, s.agent.disk.files, s.wait.b)
      then && |Lost(next.taken)| == |Lost(s.taken)| + Excess(w.cfg, s.wait.b, s.agent.pending)
           && next.agent.pending == PutBack(s.wait.b.states, s.agent.pending, PendingLimit(w.cfg))
           && Collected(next.taken) == Collected(s.taken)
      else next.taken == s.taken
  {
    UnsettledIsNewest(w, s);
    QueueIsFullExactly(w.cfg, s.agent, Front(s.built), s.wait.b);
    ConcludingQueue(w, s, s.wait.b, Front(s.built), after);
    if NoRoom(w.cfg.limits, s.agent.disk.files, s.wait.b) {
      PuttingBackLoses(s.taken, s.log, s.agent.pending, s.wait.b, w.cfg);
    }
  }

  lemma {:induction false} ReachingQueueConcludes(w: World, s: System, action: Action)
    requires ReachesQueue(s, action)
    ensures Unsettled(s.wait)
    ensures Apply(w, s, action) == Conclude(w, s, s.wait.b, QueueBatch(w.cfg, s.agent, s.wait.b), action.after)
    ensures PutsBack(w, s, action) <==> NoRoom(w.cfg.limits, s.agent.disk.files, s.wait.b)
  {
  }

  lemma {:induction false} ActionLosesExactly(w: World, s: System, action: Action)
    requires Validated(w.cfg) && Core(w, s) && StatesKept(w, s)
    ensures
      var next := Apply(w, s, action);
      if PutsBack(w, s, action)
      then && |Lost(next.taken)| == |Lost(s.taken)| + Excess(w.cfg, s.wait.b, s.agent.pending)
           && next.agent.pending == PutBack(s.wait.b.states, s.agent.pending, PendingLimit(w.cfg))
      else Lost(next.taken) == Lost(s.taken)
  {
    if ReachesQueue(s, action) {
      ReachingQueueConcludes(w, s, action);
      ConcludingLoses(w, s, action.after);
    } else {
      LostStayLost(w, s, action);
    }
  }

  /** After any run, an action loses states if and only if it ends a drain round at a full buffer
      while the batch and the pending states together exceed the bounded deque; it then loses
      exactly the excess, the newest pending states. */
  lemma {:induction false} StatesSpillExactly(w: World, actions: seq<Action>, action: Action)
    requires Ready(w)
    ensures
      var s, next := Run(w, actions), Run(w, actions + [action]);
      && (|Lost(next.taken)| != |Lost(s.taken)| <==>
            PutsBack(w, s, action) && |s.wait.b.states| + |s.agent.pending| > PendingLimit(w.cfg))
      && |Lost(next.taken)| == |Lost(s.taken)| + (if PutsBack(w, s, action) then Excess(w.cfg, s.wait.b, s.agent.pending) else 0)
      && (PutsBack(w, s, action) ==>
            next.agent.pending == PutBack(s.wait.b.states, s.agent.pending, PendingLimit(w.cfg)))
  {
    RunIsSafe(w, actions);
    RunConserves(w, actions);
    RunAppend(w, actions, action);
    ActionLosesExactly(w, Run(w, actions), action);
  }

  lemma {:induction false} RunAppend(w: World, actions: seq<Action>, action: Action)
    ensures Run(w, actions + [action]) == Apply(w, Run(w, actions), action)
  {
    assert Front(actions + [action]) == actions;
  }

  // ---- A run that spills ----

  function Collects(states: seq<StatePoint>): seq<Action> {
    if states == [] then [] else Collects(Front(states)) + [Collect(Last(states), 0.0)]
  }

  function Took(states: seq<StatePoint>): seq<Taken> {
    if states == [] then [] else Took(Front(states)) + [Taken(Last(states), false)]
  }

  /** Nothing happened but that `states` were accepted. */
  ghost predicate Accepted(s: System, next: System, states: seq<StatePoint>) {
    && next.agent.pending == s.agent.pending + states
    && next.agent.disk == s.agent.disk
    && next.taken == s.taken + Took(states)
    && next.wait == s.wait && next.log == s.log
  }

  lemma {:induction false} AcceptingOneMore(s: System, before: System, next: System, states: seq<StatePoint>)
    requires states != [] && Accepted(s, before, Front(states)) && Accepted(before, next, [Last(states)])
    ensures Accepted(s, next, states)
  {
    FrontAndLast(states);
    assert Took([Last(states)]) == [Taken(Last(states), false)] by {
      assert Front([Last(states)]) == [];
    }
    assert s.agent.pending + Front(states) + [Last(states)] == s.agent.pending + states;
    assert s.taken + Took(Front(states)) + [Taken(Last(states), false)] == s.taken + Took(states);
  }

  lemma {:induction false} RunCollects(w: World, actions: seq<Action>, states: seq<StatePoint>)
    requires |Run(w, actions).agent.pending| + |states| <= PendingLimit(w.cfg)
    ensures Accepted(Run(w, actions), Run(w, actions + Collects(states)), states)
  {
    if states == [] {
      assert actions + [] == actions;
    } else {
      var shorter := actions + Collects(Front(states));
      RunCollects(w, actions, Front(states));
      var action := Collect(Last(states), 0.0);
      RunAppend(w, shorter, action);
      assert shorter + [action] == actions + Collects(states);
      assert Front([Last(states)]) == [];
      assert Took([Last(states)]) == [Taken(Last(states), false)];
      AcceptingOneMore(Run(w, actions), Run(w, shorter), Apply(w, Run(w, shorter), action), states);
    }
  }

  lemma {:induction false} TookEndsWith(taken: seq<Taken>, states: seq<StatePoint>)
    requires states != []
    ensures taken + Took(states) == taken + Took(Front(states)) + [Taken(Last(states), false)]
  {
  }

  lemma {:induction false} TookIsCollected(taken: seq<Taken>, states: seq<StatePoint>)
    ensures Collected(taken + Took(states)) == Collected(taken) + states
  {
    if states == [] {
      assert taken + Took(states) == taken;
    } else {
      TookIsCollected(taken, Front(states));
      TookEndsWith(taken, states);
      TakingOne(taken + Took(Front(states)), Taken(Last(states), false));
      EndsWith(Collected(taken), states);
    }
  }

  lemma {:induction false} EndsWith(before: seq<StatePoint>, states: seq<StatePoint>)
    requires states != []
    ensures before + Front(states) + [Last(states)] == before + states
  {
  }

  lemma {:induction false} TookIsNotLost(states: seq<StatePoint>)
    ensures Lost(Took(states)) == []
  {
    if states != [] {
      TookIsNotLost(Front(states));
      TakingOne(Took(Front(states)), Taken(Last(states), false));
    }
  }

  lemma {:induction false} NewestAreLost(taken: seq<Taken>, states: seq<StatePoint>)
    ensures Lost(SpillLast(taken + Took(states), |states|)) == Lost(taken) + states
  {
    if states == [] {
      assert taken + Took(states) == taken;
    } else {
      var shorter := taken + Took(Front(states));
      var x := Taken(Last(states), false);
      NewestAreLost(taken, Front(states));
      TookEndsWith(taken, states);
      SpillingEnd(shorter, x, |states|);
      TakingOne(SpillLast(shorter, |states| - 1), x.(spilled := true));
      EndsWith(Lost(taken), states);
    }
  }

  lemma {:induction false} SpillingEnd(taken: seq<Taken>, x: Taken, m: int)
    requires m > 0 && !x.spilled
    ensures SpillLast(taken + [x], m) == SpillLast(taken, m - 1) + [x.(spilled := true)]
  {
    assert Front(taken + [x]) == taken;
  }

  lemma {:induction false} OversizeIsSent(w: World, s: System, stamp: Stamp)
    requires Validated(w.cfg) && s.wait.Idle? && s.agent.disk.files == [] && s.log == []
    requires |s.agent.pending| >= w.cfg.batchSize
    ensures
      var next := DoDispatch(w, DoBeginSubmit(w, s, stamp), 0.0);
      && Sending(w, next, s.agent.pending, stamp.encodedBytes)
      && next.agent.pending == s.agent.pending[w.cfg.batchSize..] && next.taken == s.taken
  {
  }

  lemma {:induction false} OversizeIsPutBack(w: World, s: System)
    requires s.wait.Direct? && s.wait.b.encodedBytes > w.cfg.limits.maxBytes
    requires s.agent.disk.files == [] && s.wait.b.sequence >= 1
    ensures
      var next := DoResume(w, s, Failed(None), 0.0, 0.0, 0.0);
      && next.agent.pending == PutBack(s.wait.b.states, s.agent.pending, PendingLimit(w.cfg))
      && next.taken == SpillLast(s.taken, Excess(w.cfg, s.wait.b, s.agent.pending))
      && next.log == (if s.log == [] then [] else Front(s.log))
  {
  }

  lemma {:induction false} PrefixComesBack(first: seq<StatePoint>, second: seq<StatePoint>, k: nat)
    requires k <= |first|
    ensures first[..k] + (first[k..] + second) == first + second
    ensures (first + second)[..|first|] == first
  {
  }

  /** Fill the deque, start to send an oversize batch, fill the deque again, lose the request. */
  function SpillingRun(first: seq<StatePoint>, second: seq<StatePoint>, stamp: Stamp): seq<Action> {
    SendingRun(first, stamp) + Collects(second) + [Resume(Failed(None), 0.0, 0.0, 0.0)]
  }

  function SendingRun(first: seq<StatePoint>, stamp: Stamp): seq<Action> {
    Collects(first) + [BeginSubmit(stamp)] + [Dispatch(0.0)]
  }

  /** The deque has been filled and the oldest states are on their way. */
  ghost predicate Sending(w: World, s: System, first: seq<StatePoint>, bytes: nat) {
    && s.wait.Direct? && s.wait.b.encodedBytes == bytes
    && |first| >= w.cfg.batchSize && s.wait.b.states == first[..w.cfg.batchSize]
    && s.agent.disk.files == [] && |s.log| == 1
  }

  lemma {:induction false} FillingRun(w: World, first: seq<StatePoint>)
    requires |first| == PendingLimit(w.cfg)
    ensures Accepted(Initial(w), Run(w, Collects(first)), first)
  {
    assert [] + Collects(first) == Collects(first);
    RunCollects(w, [], first);
  }

  lemma {:induction false} FilledSends(w: World, s: System, first: seq<StatePoint>, stamp: Stamp)
    requires Validated(w.cfg) && |first| == PendingLimit(w.cfg) && Accepted(Initial(w), s, first)
    ensures
      var next := DoDispatch(w, DoBeginSubmit(w, s, stamp), 0.0);
      && Sending(w, next, first, stamp.encodedBytes)
      && next.agent.pending == first[w.cfg.batchSize..] && next.taken == Took(first)
  {
    assert [] + Took(first) == Took(first) && [] + first == first;
    OversizeIsSent(w, s, stamp);
  }

  lemma {:induction false} SendingRunSends(w: World, first: seq<StatePoint>, stamp: Stamp)
    requires Validated(w.cfg) && |first| == PendingLimit(w.cfg)
    ensures
      var s := Run(w, SendingRun(first, stamp));
      && Sending(w, s, first, stamp.encodedBytes)
      && s.agent.pending == first[w.cfg.batchSize..] && s.taken == Took(first)
  {
    var fill := Collects(first);
    FillingRun(w, first);
    FilledSends(w, Run(w, fill), first, stamp);
    RunAppend(w, fill, BeginSubmit(stamp));
    RunAppend(w, fill + [BeginSubmit(stamp)], Dispatch(0.0));
  }

  /** And filled again during the request. */
  ghost predicate SendingFull(w: World, s: System, first: seq<StatePoint>, second: seq<StatePoint>, bytes: nat) {
    && Sending(w, s, first, bytes) && s.wait.b.sequence >= 1
    && s.agent.pending == first[w.cfg.batchSize..] + second
    && s.taken == Took(first) + Took(second)
  }

  lemma {:induction false} SendingRunFillsAgain(w: World, first: seq<StatePoint>, second: seq<StatePoint>, stamp: Stamp)
    requires Ready(w) && |first| == PendingLimit(w.cfg) && |second| == w.cfg.batchSize
    ensures SendingFull(w, Run(w, SendingRun(first, stamp) + Collects(second)), first, second, stamp.encodedBytes)
  {
    var sent := SendingRun(first, stamp);
    SendingRunSends(w, first, stamp);
    RunCollects(w, sent, second);
    RunIsSafe(w, sent + Collects(second));
    UnsettledIsNewest(w, Run(w, sent + Collects(second)));
  }

  lemma {:induction false} ResumeLosesSecond(w: World, s: System, first: seq<StatePoint>, second: seq<StatePoint>,
                                             bytes: nat)
    requires SendingFull(w, s, first, second, bytes) && bytes > w.cfg.limits.maxBytes
    requires |first| == PendingLimit(w.cfg) && |second| == w.cfg.batchSize
    ensures
      var next := DoResume(w, s, Failed(None), 0.0, 0.0, 0.0);
      && Collected(next.taken) == first + second && Lost(next.taken) == second
      && next.agent.pending == first && next.log == []
  {
    PrefixComesBack(first, second, w.cfg.batchSize);
    OversizeIsPutBack(w, s);
    MeanwhileIsLost(first, second);
  }

  /** For every batch size and every oversize envelope there is such a run: the agent has accepted
      the states collected during the request, and they are neither pending nor shipped. */
  lemma {:induction false} StatesCollectedMeanwhileAreLost(w: World, first: seq<StatePoint>, second: seq<StatePoint>,
                                                           stamp: Stamp)
    requires Ready(w) && stamp.encodedBytes > w.cfg.limits.maxBytes
    requires |first| == PendingLimit(w.cfg) && |second| == w.cfg.batchSize
    ensures
      var s := Run(w, SpillingRun(first, second, stamp));
      && Collected(s.taken) == first + second && Lost(s.taken) == second
      && s.agent.pending == first && s.log == []
  {
    var full := SendingRun(first, stamp) + Collects(second);
    SendingRunFillsAgain(w, first, second, stamp);
    RunAppend(w, full, Resume(Failed(None), 0.0, 0.0, 0.0));
    ResumeLosesSecond(w, Run(w, full), first, second, stamp.encodedBytes);
  }

  lemma {:induction false} MeanwhileIsLost(first: seq<StatePoint>, second: seq<StatePoint>)
    ensures
      var spilled := SpillLast(Took(first) + Took(second), |second|);
      Lost(spilled) == second && Collected(spilled) == first + second
  {
    TookIsNotLost(first);
    NewestAreLost(Took(first), second);
    TookIsCollected([], first);
    assert [] + Took(first) == Took(first) && [] + first == first;
    TookIsCollected(Took(first), second);
    SpillingKeepsHistory(Took(first) + Took(second), |second|);
  }

  lemma {:induction false} SpillingKeepsHistory(taken: seq<Taken>, m: int)
    ensures Collected(SpillLast(taken, m)) == Collected(taken)
  {
    if taken != [] && m > 0 {
      var x := Last(taken);
      var rest := SpillLast(Front(taken), if x.spilled then m else m - 1);
      SpillingKeepsHistory(Front(taken), if x.spilled then m else m - 1);
      TakingOne(rest, x.(spilled := true));
    }
  }
}
