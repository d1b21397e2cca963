/** The delivery protocol as a whole: one agent with its disk, a network that loses requests and
    acknowledgments and delivers stale copies late, the central service with all its other
    traffic, and crashes and restarts of either side, in any order. */
module Delivery {
  import opened Prelude
  import opened Telemetry
  import opened DiskBuffer
  import opened SensorAgents
  import opened Endpoint
  import opened CentralRuns

  datatype World = World(cfg: Config, settings: Settings, start: Central)

  /** What the agent's loop is in the middle of: a batch it has numbered but neither queued nor
      sent, or a request, with the reply central has produced for it, if any. */
  datatype Waiting =
    | Idle
    | Holding(b: Batch)
    | Direct(b: Batch, reply: Option<Reply>)
    | Flushing(b: Batch, reply: Option<Reply>)

  /** The newest batch is not settled yet: if the agent crashes now, it is lost. */
  predicate Unsettled(wait: Waiting) {
    wait.Holding? || wait.Direct?
  }

  predicate Requesting(wait: Waiting) {
    wait.Direct? || wait.Flushing?
  }

  /** What has become of a sequence number. */
  datatype Fate = InFlight | Delivered | Queued | Evicted | Refused | Quarantined | Abandoned | LostAtCrash

  /** What left the pending states, in order: the states of each batch built and not abandoned,
      and those still pending when the agent crashed. */
  datatype Chunk = Shipped(sequence: nat, states: seq<StatePoint>) | Dropped(states: seq<StatePoint>)

  /** A state the agent accepted, and whether a put-back has pushed it off the bounded deque. */
  datatype Taken = Taken(state: StatePoint, spilled: bool)

  /** The running parts, and the history that the theorems speak of: every batch built (the one
      numbered n at index n - 1), every request sent, the fate of every number, every state
      accepted, the responses to flushed requests since the agent started, and the evictions and
      quarantines counted by earlier agent processes. */
  datatype System = System(
    agent: Agent, wait: Waiting, trail: Trail,
    built: seq<Batch>, sent: set<Batch>, fate: map<nat, Fate>, log: seq<Chunk>, taken: seq<Taken>,
    flushed: seq<Response>, pastEvicted: nat, pastQuarantined: nat)

  datatype Action =
    | Collect(state: StatePoint, now: real)
    | BeginSubmit(stamp: Stamp)
    | Dispatch(after: real)
    | BeginFlush
    | HandleLive(nowCheck: int, nowCommit: int)
    | HandleStale(copy: Batch, nowCheck: int, nowCommit: int)
    | OtherTraffic(event: Event)
    | Resume(response: Response, later: real, jitter: real, after: real)
    | Crash
    | CorruptFile(index: nat, bytes: nat)

  function Initial(w: World): System {
    System(Started(w.cfg, EMPTY_DISK, 1), Idle, Trail(w.start, [], []), [], {}, map[], [], [], [], 0, 0)
  }

  /** A validated agent whose sensor is registered and has delivered nothing yet. */
  ghost predicate Ready(w: World) {
    && Validated(w.cfg)
    && w.start.runtimes == map[]
    && w.cfg.sensorId in w.start.registry.sensors
    && w.start.registry.sensors[w.cfg.sensorId].lastSequence == 0
    && w.start.registry.sensors[w.cfg.sensorId].lastBatch == None
  }

  function Names(files: seq<Entry>): set<nat> {
    set i | 0 <= i < |files| :: files[i].sequence
  }

  function Mark(fate: map<nat, Fate>, names: set<nat>, f: Fate): map<nat, Fate> {
    map n | n in fate :: if n in names then f else fate[n]
  }

  /** Every state accepted, in order. */
  function Collected(taken: seq<Taken>): seq<StatePoint> {
    if taken == [] then [] else Collected(Front(taken)) + [Last(taken).state]
  }

  /** Those that were not spilled. */
  function Kept(taken: seq<Taken>): seq<StatePoint> {
    if taken == [] then []
    else Kept(Front(taken)) + if Last(taken).spilled then [] else [Last(taken).state]
  }

  /** Those that were. */
  function Lost(taken: seq<Taken>): seq<StatePoint> {
    if taken == [] then []
    else Lost(Front(taken)) + if Last(taken).spilled then [Last(taken).state] else []
  }

  /** The last `m` states not spilled yet are spilled. */
  function SpillLast(taken: seq<Taken>, m: int): seq<Taken> {
    if taken == [] || m <= 0 then taken
    else if Last(taken).spilled then SpillLast(Front(taken), m) + [Last(taken)]
    else SpillLast(Front(taken), m - 1) + [Last(taken).(spilled := true)]
  }

  /** How many states do not fit when `b` is put back. */
  function Excess(cfg: Config, b: Batch, pending: seq<StatePoint>): nat {
    Max(0, |b.states| + |pending| - PendingLimit(cfg))
  }

  // ---- Actions; one that is not possible in a state does nothing ----

  /** The capture thread delivers a state, whatever the agent's loop is in the middle of. */
  function DoCollect(w: World, s: System, state: StatePoint, now: real): System {
    var (agent, accepted) := OnState(w.cfg, s.agent, state, now);
    s.(agent := agent, taken := if accepted then s.taken + [Taken(state, false)] else s.taken)
  }

  /** A drain round starts: the oldest pending states leave and become the next numbered batch. */
  function DoBeginSubmit(w: World, s: System, stamp: Stamp): System {
    if !s.wait.Idle? || s.agent.pending == [] then s
    else
      var count := Min(w.cfg.batchSize, |s.agent.pending|);
      var states, rest := s.agent.pending[..count], s.agent.pending[count..];
      var (numbered, b) := Build(w.cfg, s.agent.(pending := rest), states, Riding(stamp));
      s.(agent := numbered, wait := Holding(b), built := s.built + [b], fate := s.fate[b.sequence := InFlight],
         log := s.log + [Shipped(b.sequence, states)])
  }

  /** The batch is queued behind the files on disk, or sent if there are none. */
  function DoDispatch(w: World, s: System, after: real): System {
    if !s.wait.Holding? then s
    else if s.agent.disk.files == [] then s.(wait := Direct(s.wait.b, None), sent := s.sent + {s.wait.b})
    else Conclude(w, s, s.wait.b, QueueBatch(w.cfg, s.agent, s.wait.b), after)
  }

  /** A drain round ends, the batch delivered, refused, queued or given up. Giving up puts its
      states back, which spills those that no longer fit. */
  function Conclude(w: World, s: System, b: Batch, result: (Agent, SubmitOutcome), after: real): System {
    var (agent, outcome) := result;
    var settled := agent.(pendingSince := if agent.pending == [] then None else Some(after));
    if outcome == BufferFull then
      s.(agent := agent.(pending := PutBack(b.states, agent.pending, PendingLimit(w.cfg))), wait := Idle,
         fate := s.fate[b.sequence := Abandoned],
         log := if s.log == [] then [] else Front(s.log),
         taken := SpillLast(s.taken, Excess(w.cfg, b, agent.pending)))
    else if outcome == Buffered then
      var k := Max(0, |s.agent.disk.files| + 1 - |agent.disk.files|);
      var gone := if k <= |s.agent.disk.files| then Names(s.agent.disk.files[..k]) else {};
      s.(agent := settled, wait := Idle, fate := Mark(s.fate, gone, Evicted)[b.sequence := Queued])
    else
      s.(agent := settled, wait := Idle, fate := s.fate[b.sequence := if outcome == Sent then Delivered else Refused])
  }

  function DoBeginFlush(w: World, s: System): System {
    if !s.wait.Idle? then s
    else
      var (seen, head) := Peek(s.agent.disk);
      var k := Max(0, |s.agent.disk.files| - |seen.files|);
      var gone := if k <= |s.agent.disk.files| then Names(s.agent.disk.files[..k]) else {};
      var s1 := s.(agent := s.agent.(disk := seen), fate := Mark(s.fate, gone, Quarantined));
      if head.None? then s1 else s1.(wait := Flushing(head.value, None), sent := s.sent + {head.value})
  }

  function DoHandleLive(w: World, s: System, nowCheck: int, nowCommit: int): System {
    if !Requesting(s.wait) || s.wait.reply.Some? then s
    else
      var e := Deliver(w.cfg.sensorId, s.wait.b, nowCheck, nowCommit);
      var reply := Handle(w.settings, s.trail.central, w.cfg.sensorId, s.wait.b, nowCheck, nowCommit).1;
      s.(trail := Advance(w.settings, s.trail, e, w.cfg.sensorId), wait := s.wait.(reply := Some(reply)))
  }

  function DoHandleStale(w: World, s: System, copy: Batch, nowCheck: int, nowCommit: int): System {
    if copy !in s.sent then s
    else s.(trail := Advance(w.settings, s.trail, Deliver(w.cfg.sensorId, copy, nowCheck, nowCommit), w.cfg.sensorId))
  }

  /** Heartbeats, requests of other sensors, restarts of the service. */
  function DoOtherTraffic(w: World, s: System, e: Event): System {
    if e.Deliver? && e.id == w.cfg.sensorId then s
    else s.(trail := Advance(w.settings, s.trail, e, w.cfg.sensorId))
  }

  /** An acknowledgment needs central's; a conflict comes only from central; any other failure,
      a timeout among them, may be reported at any time. */
  predicate MayReport(reply: Option<Reply>, r: Response) {
    match r
    case Acknowledged => reply.Some? && Acknowledges(reply.value)
    case Failed(status) => status == Some(StatusCode(ConflictReply)) ==> reply == Some(ConflictReply)
  }

  function DoResume(w: World, s: System, r: Response, later: real, jitter: real, after: real): System {
    if !Requesting(s.wait) || !MayReport(s.wait.reply, r) then s
    else if s.wait.Direct? then Conclude(w, s, s.wait.b, AfterDirect(w.cfg, s.agent, s.wait.b, r), after)
    else
      var b := s.wait.b;
      s.(agent := AfterFlushed(w.cfg, s.agent, b, r, later, jitter), wait := Idle,
         fate := if r == Acknowledged then s.fate[b.sequence := Delivered]
                 else if Transient(r) then s.fate
                 else s.fate[b.sequence := Refused],
         flushed := s.flushed + [r])
  }

  /** Files and the persisted number survive; pending states and an unsettled batch do not. */
  function DoCrash(w: World, s: System): System {
    s.(agent := Started(w.cfg, s.agent.disk, s.agent.nextSequence), wait := Idle,
       fate := if Unsettled(s.wait) then s.fate[s.wait.b.sequence := LostAtCrash] else s.fate,
       log := s.log + [Dropped(s.agent.pending)],
       flushed := [],
       pastEvicted := s.pastEvicted + s.agent.disk.droppedBatches,
       pastQuarantined := s.pastQuarantined + s.agent.disk.corruptBatches)
  }

  function DoCorruptFile(s: System, i: nat, bytes: nat): System {
    var files := s.agent.disk.files;
    if i >= |files| then s
    else s.(agent := s.agent.(disk := s.agent.disk.(files := files[i := Entry(files[i].sequence, bytes, None)])))
  }

  function Apply(w: World, s: System, action: Action): System {
    match action
    case Collect(state, now) => DoCollect(w, s, state, now)
    case BeginSubmit(stamp) => DoBeginSubmit(w, s, stamp)
    case Dispatch(after) => DoDispatch(w, s, after)
    case BeginFlush => DoBeginFlush(w, s)
    case HandleLive(nowCheck, nowCommit) => DoHandleLive(w, s, nowCheck, nowCommit)
    case HandleStale(copy, nowCheck, nowCommit) => DoHandleStale(w, s, copy, nowCheck, nowCommit)
    case OtherTraffic(e) => DoOtherTraffic(w, s, e)
    case Resume(r, later, jitter, after) => DoResume(w, s, r, later, jitter, after)
    case Crash => DoCrash(w, s)
    case CorruptFile(i, bytes) => DoCorruptFile(s, i, bytes)
  }

  function Run(w: World, actions: seq<Action>): System {
    if actions == [] then Initial(w) else Apply(w, Run(w, Front(actions)), Last(actions))
  }

  // ---- The parts add up to the agent's own steps ----

  /** With nothing collected in between, a BeginSubmit, a Dispatch and, if it sends, the Resume
      with its response are a drain round of the agent. */
  lemma {:induction false} PartsMakeARound(w: World, s: System, round: Round)
    requires Validated(w.cfg) && s.wait.Idle? && s.agent.pending != []
    ensures
      var sent := DoDispatch(w, DoBeginSubmit(w, s, round.stamp), round.after);
      var ended := if sent.wait.Idle? then sent
                   else Conclude(w, sent, sent.wait.b, AfterDirect(w.cfg, sent.agent, sent.wait.b, round.response), round.after);
      ended.agent == DrainRound(w.cfg, s.agent, round).0
  {
  }

  /** A state collected in the middle of a put-back, after the states from `j` on are back, ends
      where one collected just before the whole put-back does, or, if the deque is full by then,
      is refused as just after it. */
  lemma {:induction false} CollectingDuringPutBack(cfg: Config, states: seq<StatePoint>, pending: seq<StatePoint>,
                                                   j: nat, state: StatePoint)
    requires j <= |states| && |pending| <= PendingLimit(cfg)
    ensures
      var limit := PendingLimit(cfg);
      var partly := PutBack(states[j..], pending, limit);
      if |partly| < limit
      then |pending| < limit
           && PutBack(states[..j], partly + [state], limit) == PutBack(states, pending + [state], limit)
      else |PutBack(states, pending, limit)| == limit
           && PutBack(states[..j], partly, limit) == PutBack(states, pending, limit)
  {
    var first, rest := states[..j], states[j..];
    assert first + rest == states;
    assert first + (rest + pending) == states + pending;
    assert first + (rest + pending + [state]) == states + (pending + [state]);
    assert rest + (pending + [state]) == rest + pending + [state];
  }

  /** One answered request of a flush is a BeginFlush and the Resume with its response. */
  lemma {:induction false} HalvesMakeAFlush(w: World, s: System, net: nat -> Response, i: nat, later: real, jitter: real)
    requires s.wait.Idle? && Named(s.agent.disk.files)
    ensures
      var begun := DoBeginFlush(w, s);
      var (after, delivered) := FlushLoop(w.cfg, s.agent, net, i, later, jitter);
      if begun.wait.Idle? then after == begun.agent
      else
        var next := AfterFlushed(w.cfg, begun.agent, begun.wait.b, net(i), later, jitter);
        if Transient(net(i)) then after == next
        else Named(next.disk.files) && after == FlushLoop(w.cfg, next, net, i + 1, later, jitter).0
  {
    AnsweredHeadLeaves(s.agent.disk);
    var (seen, head) := Peek(s.agent.disk);
    assert head.Some? ==> Named(Without(seen.files, head.value.sequence));
  }
}
