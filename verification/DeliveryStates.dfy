/** Conservation of states over every run of the delivery protocol: what was collected and not
    spilled is, in order, what was shipped or lost at a crash and what is still pending. */
module DeliveryStates {
  import opened Prelude
  import opened Telemetry
  import opened DiskBuffer
  import opened SensorAgents
  import opened CentralRuns
  import opened Delivery
  import opened DeliverySafety
  import opened DeliveryFates

  function StatesIn(log: seq<Chunk>): seq<StatePoint> {
    if log == [] then [] else StatesIn(Front(log)) + Last(log).states
  }

  // ---- Spilling ----

  lemma {:induction false} TakingOne(taken: seq<Taken>, x: Taken)
    ensures Collected(taken + [x]) == Collected(taken) + [x.state]
    ensures Kept(taken + [x]) == Kept(taken) + if x.spilled then [] else [x.state]
    ensures Lost(taken + [x]) == Lost(taken) + if x.spilled then [x.state] else []
  {
    assert Front(taken + [x]) == taken;
  }

  lemma {:induction false} ShorterEnd<T>(xs: seq<T>, x: T, m: int)
    requires 1 <= m <= |xs| + 1
    ensures (xs + [x])[..|xs| + 1 - m] == xs[..|xs| - (m - 1)]
  {
  }

  lemma {:induction false} SpillingOne(taken: seq<Taken>, m: int)
    requires taken != [] && m > 0
    ensures
      var x := Last(taken);
      && Kept(taken) == (if x.spilled then Kept(Front(taken)) else Kept(Front(taken)) + [x.state])
      && SpillLast(taken, m) == if x.spilled then SpillLast(Front(taken), m) + [x]
                                else SpillLast(Front(taken), m - 1) + [x.(spilled := true)]
  {
  }

  /** Spilling takes the newest states that are still kept. */
  lemma {:induction false} SpillingTakesNewest(taken: seq<Taken>, m: int)
    requires 0 <= m <= |Kept(taken)|
    ensures Kept(SpillLast(taken, m)) == Kept(taken)[..|Kept(taken)| - m]
    ensures Collected(SpillLast(taken, m)) == Collected(taken)
  {
    if m > 0 {
      var x := Last(taken);
      SpillingOne(taken, m);
      if x.spilled {
        SpillingTakesNewest(Front(taken), m);
        TakingOne(SpillLast(Front(taken), m), x);
      } else {
        SpillingTakesNewest(Front(taken), m - 1);
        TakingOne(SpillLast(Front(taken), m - 1), x.(spilled := true));
        ShorterEnd(Kept(Front(taken)), x.state, m);
      }
    }
  }

  /** Every accepted state is either kept or lost. */
  lemma {:induction false} KeptOrLost(taken: seq<Taken>)
    ensures |Collected(taken)| == |Kept(taken)| + |Lost(taken)|
  {
    if taken != [] {
      KeptOrLost(Front(taken));
    }
  }

  lemma {:induction false} KeptInOrder(taken: seq<Taken>)
    ensures Subsequence(Kept(taken), Collected(taken))
  {
    if taken != [] {
      var front := Front(taken);
      KeptInOrder(front);
      if Last(taken).spilled {
        SubsequenceOfLonger(Kept(front), Collected(front), [Last(taken).state]);
        assert Kept(front) + [] == Kept(front);
      } else {
        SubsequenceWithTail(Kept(front), Collected(front), [Last(taken).state]);
      }
    }
  }

  lemma {:induction false} NothingLost(taken: seq<Taken>)
    requires Lost(taken) == []
    ensures Kept(taken) == Collected(taken)
  {
    if taken != [] {
      NothingLost(Front(taken));
    }
  }

  lemma {:induction false} KeptAndLost(taken: seq<Taken>, kept: seq<StatePoint>)
    requires Kept(taken) == kept
    ensures Subsequence(kept, Collected(taken))
    ensures |Collected(taken)| == |kept| + |Lost(taken)|
    ensures Lost(taken) == [] ==> kept == Collected(taken)
  {
    KeptOrLost(taken);
    KeptInOrder(taken);
    if Lost(taken) == [] {
      NothingLost(taken);
    }
  }

  // ---- Every collected state is accounted for ----

  ghost predicate UnsettledIsLast(log: seq<Chunk>, wait: Waiting) {
    Unsettled(wait) ==> log != [] && Last(log) == Chunk.Shipped(wait.b.sequence, wait.b.states)
  }

  /** The chunks followed by the pending states are the collected states that were not spilled,
      and an unsettled batch is the last chunk. */
  ghost predicate Balanced(taken: seq<Taken>, log: seq<Chunk>, pending: seq<StatePoint>, wait: Waiting, limit: nat) {
    && Kept(taken) == StatesIn(log) + pending
    && |pending| <= limit
    && UnsettledIsLast(log, wait)
  }

  ghost predicate StatesKept(w: World, s: System) {
    Balanced(s.taken, s.log, s.agent.pending, s.wait, PendingLimit(w.cfg))
  }

  lemma {:induction false} ShippingBalances(taken: seq<Taken>, log: seq<Chunk>, pending: seq<StatePoint>,
                                            b: Batch, rest: seq<StatePoint>, limit: nat)
    requires Balanced(taken, log, pending, Idle, limit)
    requires b.states + rest == pending
    ensures Balanced(taken, log + [Chunk.Shipped(b.sequence, b.states)], rest, Holding(b), limit)
  {
    assert StatesIn(log) + (b.states + rest) == StatesIn(log) + b.states + rest;
  }

  lemma {:induction false} BeginSubmitKeepsStates(w: World, s: System, stamp: Stamp)
    requires StatesKept(w, s)
    ensures StatesKept(w, DoBeginSubmit(w, s, stamp))
  {
    if s.wait.Idle? && s.agent.pending != [] {
      var next := DoBeginSubmit(w, s, stamp);
      ShippingBalances(s.taken, s.log, s.agent.pending, next.wait.b, next.agent.pending, PendingLimit(w.cfg));
    }
  }

  lemma {:induction false} PutBackIsPrefix(older: seq<StatePoint>, b: Batch, pending: seq<StatePoint>, cfg: Config)
    ensures
      var (all, back) := (b.states + pending, PutBack(b.states, pending, PendingLimit(cfg)));
      var m := Excess(cfg, b, pending);
      && m <= |all| && |back| == |all| - m <= PendingLimit(cfg)
      && (older + all)[..|older + all| - m] == older + back
  {
  }

  lemma {:induction false} UnsettledStates(log: seq<Chunk>, b: Batch, pending: seq<StatePoint>)
    requires log != [] && Last(log) == Chunk.Shipped(b.sequence, b.states)
    ensures StatesIn(log) + pending == StatesIn(Front(log)) + (b.states + pending)
  {
  }

  /** Taking back the last chunk and putting it back spills exactly what does not fit. */
  lemma {:induction false} PuttingBackBalances(taken: seq<Taken>, log: seq<Chunk>, pending: seq<StatePoint>,
                                               b: Batch, cfg: Config)
    requires Balanced(taken, log, pending, Holding(b), PendingLimit(cfg))
    ensures Balanced(SpillLast(taken, Excess(cfg, b, pending)), Front(log),
                     PutBack(b.states, pending, PendingLimit(cfg)), Idle, PendingLimit(cfg))
  {
    UnsettledStates(log, b, pending);
    PutBackIsPrefix(StatesIn(Front(log)), b, pending, cfg);
    SpillingTakesNewest(taken, Excess(cfg, b, pending));
  }

  /** A put-back loses as many states as do not fit, and none of the history. */
  lemma {:induction false} PuttingBackLoses(taken: seq<Taken>, log: seq<Chunk>, pending: seq<StatePoint>, b: Batch,
                                            cfg: Config)
    requires Balanced(taken, log, pending, Holding(b), PendingLimit(cfg))
    ensures
      var spilled := SpillLast(taken, Excess(cfg, b, pending));
      |Lost(spilled)| == |Lost(taken)| + Excess(cfg, b, pending) && Collected(spilled) == Collected(taken)
  {
    UnsettledStates(log, b, pending);
    PutBackIsPrefix(StatesIn(Front(log)), b, pending, cfg);
    SpillingTakesNewest(taken, Excess(cfg, b, pending));
    KeptOrLost(taken);
    KeptOrLost(SpillLast(taken, Excess(cfg, b, pending)));
  }

  lemma {:induction false} GivingUpKeepsStates(w: World, s: System, next: System)
    requires StatesKept(w, s) && Unsettled(s.wait) && GivenUp(w, s, next, s.wait.b)
    ensures StatesKept(w, next)
  {
    PuttingBackBalances(s.taken, s.log, s.agent.pending, s.wait.b, w.cfg);
  }

  lemma {:induction false} QueueingKeepsStates(w: World, s: System, next: System, k: nat)
    requires StatesKept(w, s) && Unsettled(s.wait) && QueuedBehind(s, next, s.wait.b, k)
    ensures StatesKept(w, next)
  {
  }

  lemma {:induction false} ConcludedKeepsStates(w: World, s: System, next: System, full: bool)
    requires StatesKept(w, s) && Unsettled(s.wait) && Concluded(w, s, next, s.wait.b, full)
    ensures StatesKept(w, next)
  {
    if full {
      GivingUpKeepsStates(w, s, next);
    } else {
      QueueingKeepsStates(w, s, next, |s.agent.disk.files| + 1 - |next.agent.disk.files|);
    }
  }

  lemma {:induction false} ConcludingQueueKeepsStates(w: World, s: System, after: real)
    requires Validated(w.cfg) && Core(w, s) && StatesKept(w, s) && Unsettled(s.wait)
    ensures StatesKept(w, Conclude(w, s, s.wait.b, QueueBatch(w.cfg, s.agent, s.wait.b), after))
  {
    UnsettledIsNewest(w, s);
    ConcludingQueue(w, s, s.wait.b, Front(s.built), after);
    var result := QueueBatch(w.cfg, s.agent, s.wait.b);
    ConcludedKeepsStates(w, s, Conclude(w, s, s.wait.b, result, after), result.1 == BufferFull);
  }

  /** No state and no chunk comes or goes, and a batch still unsettled is the same one. */
  ghost predicate StatesUntouched(s: System, next: System) {
    && next.taken == s.taken && next.log == s.log && next.agent.pending == s.agent.pending
    && (Unsettled(next.wait) ==> Unsettled(s.wait) && next.wait.b == s.wait.b)
  }

  lemma {:induction false} UntouchedStaysBalanced(w: World, s: System, next: System)
    requires StatesKept(w, s) && StatesUntouched(s, next)
    ensures StatesKept(w, next)
  {
  }

  predicate TouchesStates(s: System, action: Action) {
    match action
    case Collect(_, _) => true
    case BeginSubmit(_) => true
    case Dispatch(_) => s.wait.Holding? && s.agent.disk.files != []
    case Resume(r, _, _, _) => s.wait.Direct? && Transient(r) && MayReport(s.wait.reply, r)
    case Crash => true
    case _ => false
  }

  lemma {:induction false} BeginFlushTouchesNoState(w: World, s: System)
    ensures StatesUntouched(s, DoBeginFlush(w, s))
  {
  }

  lemma {:induction false} ResumeTouchesNoState(w: World, s: System, r: Response, later: real, jitter: real, after: real)
    requires !(s.wait.Direct? && Transient(r) && MayReport(s.wait.reply, r))
    ensures StatesUntouched(s, DoResume(w, s, r, later, jitter, after))
  {
  }

  lemma {:induction false} OtherActionsTouchNoState(w: World, s: System, action: Action)
    requires !TouchesStates(s, action)
    ensures StatesUntouched(s, Apply(w, s, action))
  {
    match action {
      case BeginFlush => BeginFlushTouchesNoState(w, s);
      case Resume(r, later, jitter, after) => ResumeTouchesNoState(w, s, r, later, jitter, after);
      case _ =>
    }
  }

  lemma {:induction false} CollectKeepsStates(w: World, s: System, state: StatePoint, now: real)
    requires StatesKept(w, s)
    ensures StatesKept(w, DoCollect(w, s, state, now))
  {
    TakingOne(s.taken, Taken(state, false));
    assert StatesIn(s.log) + s.agent.pending + [state] == StatesIn(s.log) + (s.agent.pending + [state]);
  }

  lemma {:induction false} CrashKeepsStates(w: World, s: System)
    requires StatesKept(w, s)
    ensures StatesKept(w, DoCrash(w, s))
  {
  }

  lemma {:induction false} ActionKeepsStates(w: World, s: System, action: Action)
    requires Validated(w.cfg) && Core(w, s) && StatesKept(w, s)
    ensures StatesKept(w, Apply(w, s, action))
  {
    if TouchesStates(s, action) {
      match action {
        case Collect(state, now) => CollectKeepsStates(w, s, state, now);
        case BeginSubmit(stamp) => BeginSubmitKeepsStates(w, s, stamp);
        case Dispatch(after) => ConcludingQueueKeepsStates(w, s, after);
        case Resume(_, _, _, after) => ConcludingQueueKeepsStates(w, s, after);
        case Crash => CrashKeepsStates(w, s);
      }
    } else {
      OtherActionsTouchNoState(w, s, action);
      UntouchedStaysBalanced(w, s, Apply(w, s, action));
    }
  }

  // ---- What was shipped is what was not abandoned ----

  function ShippedNumbers(log: seq<Chunk>): seq<nat> {
    if log == [] then []
    else ShippedNumbers(Front(log)) + if Last(log).Shipped? then [Last(log).sequence] else []
  }

  /** The numbers up to `n` whose batch was not abandoned. */
  function KeptNumbers(fate: map<nat, Fate>, n: nat): seq<nat> {
    if n == 0 then []
    else KeptNumbers(fate, n - 1) + if n in fate && fate[n] != Abandoned then [n] else []
  }

  ghost predicate AgreeOnKept(f: map<nat, Fate>, g: map<nat, Fate>, n: nat) {
    forall i :: 1 <= i <= n ==> ((i in f && f[i] != Abandoned) <==> (i in g && g[i] != Abandoned))
  }

  lemma {:induction false} KeptNumbersDependOnAbandoned(f: map<nat, Fate>, g: map<nat, Fate>, n: nat)
    requires AgreeOnKept(f, g, n)
    ensures KeptNumbers(f, n) == KeptNumbers(g, n)
  {
    if n > 0 {
      KeptNumbersDependOnAbandoned(f, g, n - 1);
    }
  }

  ghost predicate ChunksAreBuilt(log: seq<Chunk>, built: seq<Batch>) {
    forall i :: 0 <= i < |log| && log[i].Shipped? ==>
      1 <= log[i].sequence <= |built| && log[i].states == built[log[i].sequence - 1].states
  }

  /** The shipped chunks are, in order, the batches not abandoned. */
  ghost predicate LogFollowsFates(log: seq<Chunk>, built: seq<Batch>, fate: map<nat, Fate>) {
    && ShippedNumbers(log) == KeptNumbers(fate, |built|)
    && ChunksAreBuilt(log, built)
  }

  ghost predicate GivenUpOnlyOversize(sent: set<Batch>, fate: map<nat, Fate>, maxBytes: nat) {
    forall b :: b in sent && b.sequence in fate && fate[b.sequence] == Abandoned ==> b.encodedBytes > maxBytes
  }

  /** The shipped chunks are the batches not abandoned, and a batch abandoned after a request
      was made for it is too big for the disk. */
  ghost predicate Shipments(w: World, s: System) {
    && LogFollowsFates(s.log, s.built, s.fate)
    && GivenUpOnlyOversize(s.sent, s.fate, w.cfg.limits.maxBytes)
  }

  ghost predicate NoneAbandoned(fate: map<nat, Fate>, next: map<nat, Fate>) {
    forall n :: n in next && next[n] == Abandoned ==> n in fate && fate[n] == Abandoned
  }

  /** No number enters or leaves the abandoned ones, and no batch is built. */
  lemma {:induction false} SettlingKeepsShipments(log: seq<Chunk>, built: seq<Batch>, sent: set<Batch>, maxBytes: nat,
                                                  fate: map<nat, Fate>, next: map<nat, Fate>)
    requires LogFollowsFates(log, built, fate) && GivenUpOnlyOversize(sent, fate, maxBytes)
    requires AgreeOnKept(fate, next, |built|) && NoneAbandoned(fate, next)
    ensures LogFollowsFates(log, built, next) && GivenUpOnlyOversize(sent, next, maxBytes)
  {
    KeptNumbersDependOnAbandoned(fate, next, |built|);
  }

  lemma {:induction false} DroppingKeepsLog(log: seq<Chunk>, built: seq<Batch>, fate: map<nat, Fate>,
                                            states: seq<StatePoint>)
    requires LogFollowsFates(log, built, fate)
    ensures LogFollowsFates(log + [Dropped(states)], built, fate)
  {
  }

  lemma {:induction false} NumbersBefore(fate: map<nat, Fate>, next: map<nat, Fate>, n: nat)
    requires n >= 1 && AgreeOnKept(fate, next, n - 1)
    ensures KeptNumbers(next, n) ==
            KeptNumbers(fate, n - 1) + if n in next && next[n] != Abandoned then [n] else []
  {
    KeptNumbersDependOnAbandoned(fate, next, n - 1);
  }

  lemma {:induction false} ShippingOne(log: seq<Chunk>, n: nat, states: seq<StatePoint>)
    ensures ShippedNumbers(log + [Chunk.Shipped(n, states)]) == ShippedNumbers(log) + [n]
  {
    assert Front(log + [Chunk.Shipped(n, states)]) == log;
  }

  lemma {:induction false} NewestChunkIsBuilt(log: seq<Chunk>, built: seq<Batch>, b: Batch)
    requires ChunksAreBuilt(log, built) && b.sequence == |built| + 1
    ensures ChunksAreBuilt(log + [Chunk.Shipped(b.sequence, b.states)], built + [b])
  {
  }

  /** The newest batch is shipped. */
  lemma {:induction false} NewestIsShipped(log: seq<Chunk>, built: seq<Batch>, fate: map<nat, Fate>,
                                           b: Batch, next: map<nat, Fate>)
    requires LogFollowsFates(log, built, fate) && b.sequence == |built| + 1
    requires AgreeOnKept(fate, next, |built|)
    requires b.sequence in next && next[b.sequence] != Abandoned
    ensures LogFollowsFates(log + [Chunk.Shipped(b.sequence, b.states)], built + [b], next)
  {
    ShippingOne(log, b.sequence, b.states);
    NewestChunkIsBuilt(log, built, b);
    NumbersBefore(fate, next, b.sequence);
  }

  /** The batch in flight, the last chunk, is given up. */
  lemma {:induction false} ShippedIsAbandoned(log: seq<Chunk>, built: seq<Batch>, fate: map<nat, Fate>, b: Batch)
    requires LogFollowsFates(log, built, fate) && built != [] && b.sequence == |built|
    requires log != [] && Last(log) == Chunk.Shipped(b.sequence, b.states)
    requires b.sequence in fate && fate[b.sequence] != Abandoned
    ensures LogFollowsFates(Front(log), built, fate[b.sequence := Abandoned])
  {
    NumbersBefore(fate, fate, b.sequence);
    NumbersBefore(fate, fate[b.sequence := Abandoned], b.sequence);
    var older := KeptNumbers(fate, |built| - 1);
    assert ShippedNumbers(Front(log)) + [b.sequence] == older + [b.sequence];
    assert ShippedNumbers(Front(log)) == (older + [b.sequence])[..|older|];
  }

  lemma {:induction false} QueuedAreNotAbandoned(fate: map<nat, Fate>, files: seq<Entry>, k: nat, f: Fate, n: nat)
    requires Having(fate, Queued) == Names(files) && k <= |files| && f != Abandoned
    ensures AgreeOnKept(fate, Mark(fate, Names(files[..k]), f), n)
    ensures NoneAbandoned(fate, Mark(fate, Names(files[..k]), f))
  {
    NamesOfConcat(files[..k], files[k..]);
    assert files[..k] + files[k..] == files;
    forall i | i in Names(files[..k])
      ensures i in fate && fate[i] == Queued
    {
      assert i in Having(fate, Queued);
    }
  }

  // Each action keeps the shipments.

  /** The queued numbers are those of the files, and the number in flight that of the unsettled batch. */
  ghost predicate Placed(s: System) {
    && Having(s.fate, Queued) == Names(s.agent.disk.files)
    && Having(s.fate, InFlight) == (if Unsettled(s.wait) then {s.wait.b.sequence} else {})
  }

  lemma {:induction false} BeginSubmitKeepsShipments(w: World, s: System, stamp: Stamp)
    requires Core(w, s) && Placed(s) && Shipments(w, s)
    ensures Shipments(w, DoBeginSubmit(w, s, stamp))
  {
    if s.wait.Idle? && s.agent.pending != [] {
      var next := DoBeginSubmit(w, s, stamp);
      NewestIsShipped(s.log, s.built, s.fate, next.wait.b, next.fate);
    }
  }

  /** A batch that is given up was never sent, or is too big for the empty disk. */
  lemma {:induction false} GivingUpKeepsShipments(w: World, s: System, next: System)
    requires Core(w, s) && Placed(s) && UnsettledIsLast(s.log, s.wait) && Shipments(w, s) && Unsettled(s.wait)
    requires s.wait.Direct? ==> s.wait.b.encodedBytes > w.cfg.limits.maxBytes
    requires next.built == s.built && next.sent == s.sent
    requires next.fate == s.fate[s.wait.b.sequence := Abandoned] && next.log == Front(s.log)
    ensures Shipments(w, next)
  {
    var b := s.wait.b;
    UnsettledIsNewest(w, s);
    InFlightHasFate(s.fate, b.sequence);
    ShippedIsAbandoned(s.log, s.built, s.fate, b);
    assert forall x :: x in s.sent && x.sequence == b.sequence ==> IsBuilt(s.built, x) && x == b;
  }

  lemma {:induction false} AnsweredDirectKeepsShipments(w: World, s: System, r: Response, after: real)
    requires Core(w, s) && Placed(s) && Shipments(w, s) && s.wait.Direct? && !Transient(r)
    ensures Shipments(w, Conclude(w, s, s.wait.b, AfterDirect(w.cfg, s.agent, s.wait.b, r), after))
  {
    InFlightHasFate(s.fate, s.wait.b.sequence);
    SettlingKeepsShipments(s.log, s.built, s.sent, w.cfg.limits.maxBytes, s.fate,
                           s.fate[s.wait.b.sequence := if r == Acknowledged then Delivered else Refused]);
  }

  lemma {:induction false} QueueingKeepsShipments(w: World, s: System, next: System, k: nat)
    requires Placed(s) && Shipments(w, s) && Unsettled(s.wait)
    requires QueuedBehind(s, next, s.wait.b, k) && SameOutside(s, next)
    ensures Shipments(w, next)
  {
    InFlightHasFate(s.fate, s.wait.b.sequence);
    QueuedAreNotAbandoned(s.fate, s.agent.disk.files, k, Evicted, |s.built|);
    SettlingKeepsShipments(s.log, s.built, s.sent, w.cfg.limits.maxBytes, s.fate, next.fate);
  }

  lemma {:induction false} ConcludedKeepsShipments(w: World, s: System, next: System, full: bool)
    requires Core(w, s) && Placed(s) && UnsettledIsLast(s.log, s.wait) && Shipments(w, s) && Unsettled(s.wait)
    requires Concluded(w, s, next, s.wait.b, full)
    ensures Shipments(w, next)
  {
    if full {
      GivingUpKeepsShipments(w, s, next);
    } else {
      QueueingKeepsShipments(w, s, next, |s.agent.disk.files| + 1 - |next.agent.disk.files|);
    }
  }

  lemma {:induction false} ConcludingQueueKeepsShipments(w: World, s: System, after: real)
    requires Validated(w.cfg) && Core(w, s) && Placed(s) && UnsettledIsLast(s.log, s.wait) && Shipments(w, s) && Unsettled(s.wait)
    ensures Shipments(w, Conclude(w, s, s.wait.b, QueueBatch(w.cfg, s.agent, s.wait.b), after))
  {
    UnsettledIsNewest(w, s);
    ConcludingQueue(w, s, s.wait.b, Front(s.built), after);
    var result := QueueBatch(w.cfg, s.agent, s.wait.b);
    ConcludedKeepsShipments(w, s, Conclude(w, s, s.wait.b, result, after), result.1 == BufferFull);
  }

  lemma {:induction false} DispatchKeepsShipments(w: World, s: System, after: real)
    requires Validated(w.cfg) && Core(w, s) && Placed(s) && UnsettledIsLast(s.log, s.wait) && Shipments(w, s)
    ensures Shipments(w, DoDispatch(w, s, after))
  {
    if s.wait.Holding? {
      if s.agent.disk.files == [] {
        InFlightHasFate(s.fate, s.wait.b.sequence);
        RequestKeepsOversize(s.sent, s.fate, s.wait.b, w.cfg.limits.maxBytes);
      } else {
        ConcludingQueueKeepsShipments(w, s, after);
      }
    }
  }

  lemma {:induction false} ResumeFlushingKeepsShipments(w: World, s: System, r: Response, later: real, jitter: real,
                                                        after: real)
    requires Core(w, s) && Placed(s) && Shipments(w, s) && s.wait.Flushing?
    ensures Shipments(w, DoResume(w, s, r, later, jitter, after))
  {
    HeadLeaves(s.fate, s.agent.disk.files, s.wait.b.sequence, Delivered);
    SettlingKeepsShipments(s.log, s.built, s.sent, w.cfg.limits.maxBytes, s.fate,
                           DoResume(w, s, r, later, jitter, after).fate);
  }

  lemma {:induction false} QueuedFileHasFate(fate: map<nat, Fate>, files: seq<Entry>, k: nat)
    requires Ordered(files) && k < |files| && Having(fate, Queued) == Names(files)
    ensures files[k].sequence in fate && fate[files[k].sequence] == Queued
    ensures files[k].sequence !in Names(files[..k])
  {
    OlderNamesAreSmaller(files[..k], files[k].sequence);
    assert files[k].sequence in Having(fate, Queued);
  }

  lemma {:induction false} ShownHeadIsQueued(w: World, s: System)
    requires Core(w, s) && Placed(s) && Peek(s.agent.disk).1.Some?
    ensures
      var (seen, head) := Peek(s.agent.disk);
      var n := head.value.sequence;
      && n in s.fate && s.fate[n] == Queued
      && (|seen.files| <= |s.agent.disk.files| ==>
            n !in Names(s.agent.disk.files[..|s.agent.disk.files| - |seen.files|]))
  {
    var files := s.agent.disk.files;
    PeekShowsFirstReadable(s.agent.disk);
    var k := |files| - |Peek(s.agent.disk).0.files|;
    assert GoodFile(s.built, files[k]);
    QueuedFileHasFate(s.fate, files, k);
  }

  lemma {:induction false} RequestKeepsOversize(sent: set<Batch>, fate: map<nat, Fate>, b: Batch, maxBytes: nat)
    requires GivenUpOnlyOversize(sent, fate, maxBytes)
    requires b.sequence in fate && fate[b.sequence] != Abandoned
    ensures GivenUpOnlyOversize(sent + {b}, fate, maxBytes)
  {
  }

  lemma {:induction false} QuarantiningKeepsShipments(w: World, s: System, k: nat)
    requires Placed(s) && Shipments(w, s) && k <= |s.agent.disk.files|
    ensures
      var fate := Mark(s.fate, Names(s.agent.disk.files[..k]), Quarantined);
      LogFollowsFates(s.log, s.built, fate) && GivenUpOnlyOversize(s.sent, fate, w.cfg.limits.maxBytes)
  {
    var fate := Mark(s.fate, Names(s.agent.disk.files[..k]), Quarantined);
    QueuedAreNotAbandoned(s.fate, s.agent.disk.files, k, Quarantined, |s.built|);
    SettlingKeepsShipments(s.log, s.built, s.sent, w.cfg.limits.maxBytes, s.fate, fate);
  }

  lemma {:induction false} BeginFlushKeepsShipments(w: World, s: System)
    requires Core(w, s) && Placed(s) && Shipments(w, s)
    ensures Shipments(w, DoBeginFlush(w, s))
  {
    if s.wait.Idle? {
      BeginFlushSends(w, s);
      var (seen, head) := Peek(s.agent.disk);
      QuarantiningKeepsShipments(w, s, |s.agent.disk.files| - |seen.files|);
      if head.Some? {
        ShownHeadIsQueued(w, s);
        RequestKeepsOversize(s.sent, DoBeginFlush(w, s).fate, head.value, w.cfg.limits.maxBytes);
      }
    }
  }

  lemma {:induction false} CrashKeepsShipments(w: World, s: System)
    requires Core(w, s) && Placed(s) && Shipments(w, s)
    ensures Shipments(w, DoCrash(w, s))
  {
    if Unsettled(s.wait) {
      InFlightHasFate(s.fate, s.wait.b.sequence);
    }
    SettlingKeepsShipments(s.log, s.built, s.sent, w.cfg.limits.maxBytes, s.fate, DoCrash(w, s).fate);
    DroppingKeepsLog(s.log, s.built, DoCrash(w, s).fate, s.agent.pending);
  }

  lemma {:induction false} ResumeKeepsShipments(w: World, s: System, r: Response, later: real, jitter: real, after: real)
    requires Validated(w.cfg) && Core(w, s) && Placed(s) && UnsettledIsLast(s.log, s.wait) && Shipments(w, s)
    ensures Shipments(w, DoResume(w, s, r, later, jitter, after))
  {
    if s.wait.Flushing? {
      ResumeFlushingKeepsShipments(w, s, r, later, jitter, after);
    } else if s.wait.Direct? {
      if Transient(r) {
        ConcludingQueueKeepsShipments(w, s, after);
      } else {
        AnsweredDirectKeepsShipments(w, s, r, after);
      }
    }
  }

  predicate TouchesShipments(action: Action) {
    action.BeginSubmit? || action.Dispatch? || action.BeginFlush? || action.Resume? || action.Crash?
  }

  lemma {:induction false} OtherActionsShipNothing(w: World, s: System, action: Action)
    requires !TouchesShipments(action)
    ensures
      var next := Apply(w, s, action);
      next.log == s.log && next.built == s.built && next.sent == s.sent && next.fate == s.fate
  {
  }

  lemma {:induction false} OtherActionsKeepShipments(w: World, s: System, action: Action)
    requires Shipments(w, s) && !TouchesShipments(action)
    ensures Shipments(w, Apply(w, s, action))
  {
    OtherActionsShipNothing(w, s, action);
  }

  lemma {:induction false} ActionKeepsShipments(w: World, s: System, action: Action)
    requires Validated(w.cfg) && Core(w, s) && Placed(s) && UnsettledIsLast(s.log, s.wait) && Shipments(w, s)
    ensures Shipments(w, Apply(w, s, action))
  {
    match action {
      case BeginSubmit(stamp) => BeginSubmitKeepsShipments(w, s, stamp);
      case Dispatch(after) => DispatchKeepsShipments(w, s, after);
      case BeginFlush => BeginFlushKeepsShipments(w, s);
      case Resume(r, later, jitter, after) => ResumeKeepsShipments(w, s, r, later, jitter, after);
      case Crash => CrashKeepsShipments(w, s);
      case _ => OtherActionsKeepShipments(w, s, action);
    }
  }

  // ---- The main conservation theorems ----

  lemma {:induction false} RunConserves(w: World, actions: seq<Action>)
    requires Ready(w)
    ensures StatesKept(w, Run(w, actions)) && Shipments(w, Run(w, actions))
  {
    if actions != [] {
      RunIsSafe(w, Front(actions));
      EveryNumberHasOneFate(w, Front(actions));
      RunConserves(w, Front(actions));
      ActionKeepsStates(w, Run(w, Front(actions)), Last(actions));
      ActionKeepsShipments(w, Run(w, Front(actions)), Last(actions));
    }
  }

  /** In every run, the states of the batches not abandoned, in the order of their numbers and
      together with those pending at each crash, followed by the states still pending, are the
      collected states without the spilled ones, in order; with none spilled, they are exactly
      the collected states. */
  lemma {:induction false} CollectedStatesAreConserved(w: World, actions: seq<Action>)
    requires Ready(w)
    ensures
      var s := Run(w, actions);
      var kept := StatesIn(s.log) + s.agent.pending;
      && Kept(s.taken) == kept
      && Subsequence(kept, Collected(s.taken))
      && |Collected(s.taken)| == |kept| + |Lost(s.taken)|
      && (Lost(s.taken) == [] ==> kept == Collected(s.taken))
      && LogFollowsFates(s.log, s.built, s.fate)
  {
    RunConserves(w, actions);
    var s := Run(w, actions);
    KeptAndLost(s.taken, StatesIn(s.log) + s.agent.pending);
  }

  /** A direct send is given up, leaving states both sent and pending, if and only if its failure
      is transient and the batch is over the disk's byte limit. */
  lemma {:induction false} DirectIsAbandonedExactlyIfOversize(w: World, actions: seq<Action>, r: Response, after: real)
    requires Ready(w) && Run(w, actions).wait.Direct?
    ensures
      var s := Run(w, actions);
      && AfterDirect(w.cfg, s.agent, s.wait.b, r).1 == BufferFull <==>
         Transient(r) && s.wait.b.encodedBytes > w.cfg.limits.maxBytes
  {
    RunIsSafe(w, actions);
    DirectIsQueuedUnlessOversize(w, Run(w, actions));
  }

  lemma {:induction false} DirectIsQueuedUnlessOversize(w: World, s: System)
    requires Validated(w.cfg) && Core(w, s) && s.wait.Direct?
    ensures QueueBatch(w.cfg, s.agent, s.wait.b).1 == BufferFull <==> s.wait.b.encodedBytes > w.cfg.limits.maxBytes
  {
    UnsettledIsNewest(w, s);
    QueueingNewest(w.cfg, s.agent, Front(s.built), s.wait.b);
  }

  // ---- At most once, state by state ----

  /** A committed batch, unless it is over the byte limit, was shipped. */
  ghost predicate InLog(log: seq<Chunk>, b: Batch) {
    Chunk.Shipped(b.sequence, b.states) in log
  }

  ghost predicate ShippedInOrder(log: seq<Chunk>) {
    forall i, j :: 0 <= i < j < |log| && log[i].Shipped? && log[j].Shipped? ==> log[i].sequence < log[j].sequence
  }

  lemma {:induction false} EarlierChunk(log: seq<Chunk>, x: Batch, y: Batch)
    requires ShippedInOrder(log) && InLog(log, x) && InLog(log, y) && x.sequence < y.sequence
    ensures InLog(Front(log), x)
  {
    var i :| 0 <= i < |log| && log[i] == Chunk.Shipped(x.sequence, x.states);
    var j :| 0 <= j < |log| && log[j] == Chunk.Shipped(y.sequence, y.states);
    assert i < j;
    assert Front(log)[i] == log[i];
  }

  ghost predicate AllInLog(log: seq<Chunk>, batches: seq<Batch>) {
    forall i :: 0 <= i < |batches| ==> InLog(log, batches[i])
  }

  /** Without the newest chunk, the log has all batches but the newest, and that one too if it is
      not the chunk left out. */
  lemma {:induction false} ShorterLog(ever: seq<Batch>, log: seq<Chunk>)
    requires Increasing(ever, 0) && ShippedInOrder(log) && AllInLog(log, ever) && ever != []
    ensures log != [] && ShippedInOrder(Front(log)) && AllInLog(Front(log), Front(ever))
    ensures Last(log) != Chunk.Shipped(Last(ever).sequence, Last(ever).states) ==> AllInLog(Front(log), ever)
  {
    var b := Last(ever);
    assert InLog(log, b);
    FrontAndLast(log);
    forall i | 0 <= i < |ever| - 1
      ensures InLog(Front(log), ever[i])
    {
      assert InLog(log, ever[i]);
      EarlierChunk(log, ever[i], b);
    }
  }

  lemma {:induction false} CommitsAreSubsequence(ever: seq<Batch>, log: seq<Chunk>)
    requires Increasing(ever, 0) && ShippedInOrder(log) && AllInLog(log, ever)
    ensures Subsequence(StatesOf(ever), StatesIn(log))
    decreases |log|
  {
    if ever != [] {
      ShorterLog(ever, log);
      var b := Last(ever);
      if Last(log) == Chunk.Shipped(b.sequence, b.states) {
        CommitsAreSubsequence(Front(ever), Front(log));
        SubsequenceWithTail(StatesOf(Front(ever)), StatesIn(Front(log)), b.states);
      } else {
        CommitsAreSubsequence(ever, Front(log));
        SubsequenceOfLonger(StatesOf(ever), StatesIn(Front(log)), Last(log).states);
      }
    }
  }

  lemma {:induction false} KeptNumbersIncrease(fate: map<nat, Fate>, n: nat)
    ensures forall i :: 0 <= i < |KeptNumbers(fate, n)| ==> 1 <= KeptNumbers(fate, n)[i] <= n
    ensures forall i, j :: 0 <= i < j < |KeptNumbers(fate, n)| ==> KeptNumbers(fate, n)[i] < KeptNumbers(fate, n)[j]
    ensures forall k :: 1 <= k <= n && k in fate && fate[k] != Abandoned ==> k in KeptNumbers(fate, n)
  {
    if n > 0 {
      KeptNumbersIncrease(fate, n - 1);
    }
  }

  /** The chunk of the i-th shipped number. */
  lemma {:induction false} ShippedNumberHasChunk(log: seq<Chunk>, n: nat)
    requires n in ShippedNumbers(log)
    ensures exists i :: 0 <= i < |log| && log[i].Shipped? && log[i].sequence == n
  {
    if !(Last(log).Shipped? && Last(log).sequence == n) {
      ShippedNumberHasChunk(Front(log), n);
      var i :| 0 <= i < |Front(log)| && Front(log)[i].Shipped? && Front(log)[i].sequence == n;
      assert log[i].Shipped? && log[i].sequence == n;
    }
  }

  lemma {:induction false} ChunkIsShippedNumber(log: seq<Chunk>, i: nat)
    requires i < |log| && log[i].Shipped?
    ensures log[i].sequence in ShippedNumbers(log)
  {
    if i < |log| - 1 {
      ChunkIsShippedNumber(Front(log), i);
    }
  }

  ghost predicate Ascending(numbers: seq<nat>) {
    forall i, j :: 0 <= i < j < |numbers| ==> numbers[i] < numbers[j]
  }

  lemma {:induction false} LastIsLargest(numbers: seq<nat>, n: nat, last: nat)
    requires Ascending(numbers + [last]) && n in numbers
    ensures n < last && Ascending(numbers)
  {
    var all := numbers + [last];
    var k :| 0 <= k < |numbers| && numbers[k] == n;
    assert all[k] < all[|numbers|];
    assert forall i :: 0 <= i < |numbers| ==> numbers[i] == all[i];
  }

  lemma {:induction false} OrderedNumbersOrderChunks(log: seq<Chunk>)
    requires Ascending(ShippedNumbers(log))
    ensures ShippedInOrder(log)
  {
    if log != [] {
      var shorter := Front(log);
      var numbers := ShippedNumbers(shorter);
      assert Ascending(numbers) by {
        assert numbers == ShippedNumbers(log)[..|numbers|];
      }
      OrderedNumbersOrderChunks(shorter);
      forall i | 0 <= i < |shorter| && log[i].Shipped? && Last(log).Shipped?
        ensures log[i].sequence < Last(log).sequence
      {
        ChunkIsShippedNumber(shorter, i);
        LastIsLargest(numbers, log[i].sequence, Last(log).sequence);
      }
      assert forall i :: 0 <= i < |shorter| ==> log[i] == shorter[i];
    }
  }

  /** A batch that is not abandoned is in the log. */
  lemma {:induction false} BatchIsInLog(log: seq<Chunk>, built: seq<Batch>, fate: map<nat, Fate>, b: Batch)
    requires LogFollowsFates(log, built, fate) && IsBuilt(built, b)
    requires b.sequence in fate && fate[b.sequence] != Abandoned
    ensures InLog(log, b)
  {
    KeptNumbersIncrease(fate, |built|);
    assert b.sequence in KeptNumbers(fate, |built|);
    ShippedNumberHasChunk(log, b.sequence);
    var i :| 0 <= i < |log| && log[i].Shipped? && log[i].sequence == b.sequence;
    assert log[i] == Chunk.Shipped(b.sequence, b.states);
  }

  lemma {:induction false} CommitIsInLog(w: World, s: System, b: Batch)
    requires Core(w, s) && Fated(s) && Shipments(w, s)
    requires b in s.sent && b.encodedBytes <= w.cfg.limits.maxBytes
    ensures InLog(s.log, b)
  {
    assert IsBuilt(s.built, b);
    BatchIsInLog(s.log, s.built, s.fate, b);
  }

  /** In every run in which no batch is over the disk's byte limit, central commits each collected
      state at most once and in the order of collection, and none that was spilled, even across
      restarts of either side. */
  lemma {:induction false} StatesAreCommittedAtMostOnce(w: World, actions: seq<Action>)
    requires Ready(w)
    requires forall i :: 0 <= i < |Run(w, actions).built| ==>
               Run(w, actions).built[i].encodedBytes <= w.cfg.limits.maxBytes
    ensures Subsequence(StatesOf(Run(w, actions).trail.ever), Kept(Run(w, actions).taken))
    ensures Subsequence(StatesOf(Run(w, actions).trail.ever), Collected(Run(w, actions).taken))
  {
    var s := Run(w, actions);
    RunIsSafe(w, actions);
    EveryNumberHasOneFate(w, actions);
    RunConserves(w, actions);
    forall i | 0 <= i < |s.trail.ever|
      ensures InLog(s.log, s.trail.ever[i])
    {
      var b := s.trail.ever[i];
      assert IsBuilt(s.built, b);
      CommitIsInLog(w, s, b);
    }
    KeptNumbersIncrease(s.fate, |s.built|);
    OrderedNumbersOrderChunks(s.log);
    CommitsAreSubsequence(s.trail.ever, s.log);
    SubsequenceOfLonger(StatesOf(s.trail.ever), StatesIn(s.log), s.agent.pending);
    KeptInOrder(s.taken);
    SubsequenceIsTransitive(StatesOf(s.trail.ever), Kept(s.taken), Collected(s.taken));
  }
}
