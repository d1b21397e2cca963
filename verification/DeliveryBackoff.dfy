/** The retry schedule over every run of the delivery protocol. */
module DeliveryBackoff {
  import opened Prelude
  import opened Telemetry
  import opened SensorAgents
  import opened Delivery

  /** The action reports the end of a flushed request to the agent. */
  predicate EndsFlush(s: System, action: Action) {
    action.Resume? && s.wait.Flushing? && MayReport(s.wait.reply, action.response)
  }

  predicate SameSchedule(a: Agent, next: Agent) {
    next.retryDelay == a.retryDelay && next.nextRetryAt == a.nextRetryAt
  }

  lemma {:induction false} ConcludingKeepsSchedule(w: World, s: System, b: Batch, result: (Agent, SubmitOutcome),
                                                   after: real)
    ensures SameSchedule(result.0, Conclude(w, s, b, result, after).agent)
    ensures Conclude(w, s, b, result, after).flushed == s.flushed
  {
  }

  /** Only an answered flush, or a crash, touches the schedule. */
  lemma {:induction false} OthersKeepSchedule(w: World, s: System, action: Action)
    requires !EndsFlush(s, action) && !action.Crash?
    ensures SameSchedule(s.agent, Apply(w, s, action).agent)
    ensures Apply(w, s, action).flushed == s.flushed
  {
    match action {
      case Dispatch(after) =>
        if s.wait.Holding? {
          ConcludingKeepsSchedule(w, s, s.wait.b, QueueBatch(w.cfg, s.agent, s.wait.b), after);
        }
      case Resume(r, _, _, after) =>
        if s.wait.Direct? {
          ConcludingKeepsSchedule(w, s, s.wait.b, AfterDirect(w.cfg, s.agent, s.wait.b, r), after);
        }
      case _ =>
    }
  }

  lemma {:induction false} FlushedResponseCounts(w: World, s: System, action: Action)
    requires EndsFlush(s, action)
    ensures
      var next := Apply(w, s, action);
      && next.flushed == s.flushed + [action.response]
      && next.agent.retryDelay == NextDelay(w.cfg, s.agent.retryDelay, action.response)
      && next.agent.nextRetryAt ==
         if action.response == Acknowledged then 0.0
         else if Transient(action.response)
         then action.later + RealMin(s.agent.retryDelay, w.cfg.retryMax) + action.jitter
         else s.agent.nextRetryAt
  {
  }

  predicate DelayMatches(w: World, s: System) {
    s.agent.retryDelay == Backoff(w.cfg, Consecutive(s.flushed))
  }

  lemma {:induction false} ActionKeepsBackoff(w: World, s: System, action: Action)
    requires Validated(w.cfg) && DelayMatches(w, s)
    ensures DelayMatches(w, Apply(w, s, action))
  {
    if EndsFlush(s, action) {
      FlushedResponseCounts(w, s, action);
      NextDelayIsBackoff(w.cfg, s.flushed, action.response);
    } else if !action.Crash? {
      OthersKeepSchedule(w, s, action);
    }
  }

  /** In every run, the delay is min(base * 2^k, max) for the k transient failures of flushed
      requests since the last delivered one, counted from the start of the agent process. */
  lemma {:induction false} DelayFollowsResponses(w: World, actions: seq<Action>)
    requires Ready(w)
    ensures Run(w, actions).agent.retryDelay == Backoff(w.cfg, Consecutive(Run(w, actions).flushed))
  {
    if actions != [] {
      DelayFollowsResponses(w, Front(actions));
      ActionKeepsBackoff(w, Run(w, Front(actions)), Last(actions));
    }
  }

  /** After every run, a flushed request that fails in a way that may be retried schedules the next
      try exactly that delay and the jitter ahead; a delivered one and a restart clear the
      schedule, and nothing else moves it. */
  lemma {:induction false} NextTryIsScheduledExactly(w: World, actions: seq<Action>, action: Action)
    requires Ready(w)
    ensures
      var s, next := Run(w, actions), Run(w, actions + [action]);
      next.agent.nextRetryAt ==
        if action.Crash? || (EndsFlush(s, action) && action.response == Acknowledged) then 0.0
        else if EndsFlush(s, action) && Transient(action.response)
        then action.later + Backoff(w.cfg, Consecutive(s.flushed)) + action.jitter
        else s.agent.nextRetryAt
  {
    var s := Run(w, actions);
    assert Front(actions + [action]) == actions;
    DelayFollowsResponses(w, actions);
    if EndsFlush(s, action) {
      FlushedResponseCounts(w, s, action);
    } else if !action.Crash? {
      OthersKeepSchedule(w, s, action);
    }
  }
}
