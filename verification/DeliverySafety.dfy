/** Safety of the delivery protocol over every run: no sequence conflict on a live request, and
    every commit genuine, in order and at most once. */
module DeliverySafety {
  import opened Prelude
  import opened Telemetry
  import opened DiskBuffer
  import opened SensorAgents
  import opened SensorRegistries
  import opened Endpoint
  import opened CentralRuns
  import opened Delivery

  // ---- Numbers, files and requests ----

  /** `b` is the batch that was built under its number. */
  predicate IsBuilt(built: seq<Batch>, b: Batch) {
    1 <= b.sequence <= |built| && built[b.sequence - 1] == b
  }

  ghost predicate Numbered(built: seq<Batch>, sensorId: string) {
    forall i :: 0 <= i < |built| ==> built[i].sequence == i + 1 && built[i].sensorId == sensorId
  }

  ghost predicate GoodFile(built: seq<Batch>, file: Entry) {
    && 1 <= file.sequence <= |built|
    && (file.body.Some? ==> file.body == Some(built[file.sequence - 1]))
  }

  ghost predicate GoodFiles(built: seq<Batch>, files: seq<Entry>) {
    Ordered(files) && forall i :: 0 <= i < |files| ==> GoodFile(built, files[i])
  }

  /** No queued file is older than a request already made. */
  ghost predicate NothingOvertaken(sent: set<Batch>, files: seq<Entry>) {
    forall b, i :: b in sent && 0 <= i < |files| ==> b.sequence <= files[i].sequence
  }

  ghost predicate CoreOf(sensorId: string, next: nat, built: seq<Batch>, files: seq<Entry>, sent: set<Batch>, wait: Waiting) {
    && next == |built| + 1
    && Numbered(built, sensorId)
    && GoodFiles(built, files)
    && (forall b :: b in sent ==> IsBuilt(built, b))
    && NothingOvertaken(sent, files)
    && (wait.Holding? ==> built != [] && wait.b == Last(built) && wait.b !in sent && GoodFiles(Front(built), files))
    && (wait.Direct? ==> files == [] && built != [] && wait.b == Last(built) && wait.b in sent)
    && (wait.Flushing? ==> files != [] && files[0].sequence == wait.b.sequence && wait.b in sent)
  }

  ghost predicate Core(w: World, s: System) {
    CoreOf(w.cfg.sensorId, s.agent.nextSequence, s.built, s.agent.disk.files, s.sent, s.wait)
  }

  lemma {:induction false} GrownFiles(built: seq<Batch>, files: seq<Entry>, b: Batch)
    requires GoodFiles(built, files) && b.sequence == |built| + 1
    ensures GoodFiles(built + [b], files + [FileOf(b)])
    ensures Insert(files, FileOf(b)) == files + [FileOf(b)]
    ensures !HasFile(files, b.sequence)
  {
    forall i | 0 <= i < |files|
      ensures GoodFile(built + [b], files[i]) && files[i].sequence < b.sequence
    {
      assert GoodFile(built, files[i]);
    }
    InsertAtEnd(files, FileOf(b));
  }

  /** On disk, the newest batch goes behind a suffix of the files, or nothing changes. */
  ghost predicate StoredNewest(limits: Limits, disk: Disk, after: Disk, outcome: EnqueueOutcome, b: Batch) {
    var files := disk.files;
    var k := |files| + 1 - |after.files|;
    && (outcome == Stored || outcome == Full)
    && (outcome == Full ==> after == disk)
    && (files == [] ==> (outcome == Full <==> b.encodedBytes > limits.maxBytes))
    && (outcome == Stored ==>
          && 0 <= k <= |files|
          && after.files == files[k..] + [FileOf(b)]
          && after.droppedBatches == disk.droppedBatches + k
          && after.corruptBatches == disk.corruptBatches && after.rejected == disk.rejected)
  }

  lemma {:induction false} SuffixIsGood(built: seq<Batch>, files: seq<Entry>, k: nat)
    requires GoodFiles(built, files) && k <= |files|
    ensures GoodFiles(built, files[k..])
  {
  }

  lemma {:induction false} StoredIsNewest(limits: Limits, disk: Disk, after: Disk, built: seq<Batch>, b: Batch)
    requires GoodFiles(built, disk.files) && b.sequence == |built| + 1
    requires StoredAfter(limits, disk, after, b, |disk.files| + 1 - |after.files|)
    requires disk.files == [] ==> b.encodedBytes <= limits.maxBytes
    ensures StoredNewest(limits, disk, after, Stored, b)
  {
    var k := |disk.files| + 1 - |after.files|;
    SuffixIsGood(built, disk.files, k);
    GrownFiles(built, disk.files[k..], b);
  }

  lemma {:induction false} EnqueueingNewest(limits: Limits, disk: Disk, built: seq<Batch>, b: Batch)
    requires limits.maxBatches > 0 && GoodFiles(built, disk.files) && b.sequence == |built| + 1
    ensures
      var (after, outcome) := Enqueue(limits, disk, b);
      StoredNewest(limits, disk, after, outcome, b)
  {
    GrownFiles(built, disk.files, b);
    FailedEnqueueChangesNothing(limits, disk, b);
    var (after, outcome) := Enqueue(limits, disk, b);
    if outcome == Stored {
      EnqueueStoresAfter(limits, disk, b);
      StoredIsNewest(limits, disk, after, built, b);
    }
  }

  /** Queueing the newest batch keeps a suffix of the files and puts the batch behind it, or
      gives up and changes nothing. */
  lemma {:induction false} QueueingNewest(cfg: Config, a: Agent, built: seq<Batch>, b: Batch)
    requires Validated(cfg) && GoodFiles(built, a.disk.files) && b.sequence == |built| + 1
    ensures
      var (after, outcome) := QueueBatch(cfg, a, b);
      && (outcome == Buffered || outcome == BufferFull)
      && (outcome == BufferFull ==> after == a)
      && (outcome == Buffered ==> after == a.(disk := after.disk, counters := after.counters))
      && StoredNewest(cfg.limits, a.disk, after.disk, if outcome == Buffered then Stored else Full, b)
  {
    EnqueueingNewest(cfg.limits, a.disk, built, b);
  }

  /** The history outside the agent, its batches and its states. */
  ghost predicate SameOutside(s: System, next: System) {
    && next.trail == s.trail && next.flushed == s.flushed
    && next.pastEvicted == s.pastEvicted && next.pastQuarantined == s.pastQuarantined
    && next.built == s.built && next.sent == s.sent && next.agent.nextSequence == s.agent.nextSequence
  }

  /** The system after `b` has been queued behind all but the `k` oldest files. */
  ghost predicate QueuedBehind(s: System, next: System, b: Batch, k: nat) {
    var files := s.agent.disk.files;
    && k <= |files|
    && next.wait.Idle?
    && next.agent.disk.files == files[k..] + [FileOf(b)]
    && next.agent.disk.droppedBatches == s.agent.disk.droppedBatches + k
    && next.agent.disk.corruptBatches == s.agent.disk.corruptBatches
    && next.agent.disk.rejected == s.agent.disk.rejected
    && next.agent.pending == s.agent.pending
    && next.fate == Mark(s.fate, Names(files[..k]), Evicted)[b.sequence := Queued]
    && next.log == s.log && next.taken == s.taken
  }

  /** The system after `b` has been given up and its states put back. */
  ghost predicate GivenUp(w: World, s: System, next: System, b: Batch) {
    && next.wait.Idle?
    && next.agent.disk == s.agent.disk
    && next.agent.pending == PutBack(b.states, s.agent.pending, PendingLimit(w.cfg))
    && next.fate == s.fate[b.sequence := Abandoned]
    && next.log == (if s.log == [] then [] else Front(s.log))
    && next.taken == SpillLast(s.taken, Excess(w.cfg, b, s.agent.pending))
  }

  lemma {:induction false} ConcludingFull(w: World, s: System, b: Batch, result: (Agent, SubmitOutcome), after: real)
    requires result.1 == BufferFull && result.0 == s.agent
    ensures
      var next := Conclude(w, s, b, result, after);
      SameOutside(s, next) && GivenUp(w, s, next, b)
  {
  }

  lemma {:induction false} ConcludingBuffered(w: World, s: System, b: Batch, result: (Agent, SubmitOutcome), k: nat,
                                              after: real)
    requires result.1 == Buffered && k <= |s.agent.disk.files|
    requires result.0 == s.agent.(disk := result.0.disk, counters := result.0.counters)
    requires result.0.disk.files == s.agent.disk.files[k..] + [FileOf(b)]
    requires result.0.disk.droppedBatches == s.agent.disk.droppedBatches + k
    requires result.0.disk.corruptBatches == s.agent.disk.corruptBatches
    requires result.0.disk.rejected == s.agent.disk.rejected
    ensures
      var next := Conclude(w, s, b, result, after);
      SameOutside(s, next) && QueuedBehind(s, next, b, k)
  {
  }

  /** The drain round of `b` has ended at the queue, which was full or took it. */
  ghost predicate Concluded(w: World, s: System, next: System, b: Batch, full: bool) {
    var k := |s.agent.disk.files| + 1 - |next.agent.disk.files|;
    && SameOutside(s, next)
    && (if full
        then GivenUp(w, s, next, b) && (s.agent.disk.files == [] ==> b.encodedBytes > w.cfg.limits.maxBytes)
        else k >= 0 && QueuedBehind(s, next, b, k))
  }

  /** How queueing the newest batch ends. */
  lemma {:induction false} ConcludingQueue(w: World, s: System, b: Batch, older: seq<Batch>, after: real)
    requires Validated(w.cfg) && GoodFiles(older, s.agent.disk.files) && b.sequence == |older| + 1
    ensures
      var result := QueueBatch(w.cfg, s.agent, b);
      Concluded(w, s, Conclude(w, s, b, result, after), b, result.1 == BufferFull)
  {
    QueueingNewest(w.cfg, s.agent, older, b);
    var result := QueueBatch(w.cfg, s.agent, b);
    if result.1 == BufferFull {
      ConcludingFull(w, s, b, result, after);
    } else {
      ConcludingBuffered(w, s, b, result, |s.agent.disk.files| + 1 - |result.0.disk.files|, after);
    }
  }

  /** An unsettled batch is the newest, and the files on disk are older. */
  lemma {:induction false} UnsettledIsNewest(w: World, s: System)
    requires Core(w, s) && Unsettled(s.wait)
    ensures s.built != [] && s.wait.b == Last(s.built) && s.wait.b.sequence == |s.built| == |Front(s.built)| + 1
    ensures GoodFiles(Front(s.built), s.agent.disk.files)
  {
    assert s.built[|s.built| - 1].sequence == |s.built|;
  }

  // Each action keeps the core.

  lemma {:induction false} SendingKeepsCore(sensorId: string, next: nat, built: seq<Batch>, sent: set<Batch>, wait: Waiting)
    requires CoreOf(sensorId, next, built, [], sent, wait) && wait.Holding?
    ensures CoreOf(sensorId, next, built, [], sent + {wait.b}, Direct(wait.b, None))
  {
    assert built[|built| - 1].sequence == |built|;
  }

  lemma {:induction false} QueueingKeepsCore(sensorId: string, next: nat, built: seq<Batch>, files: seq<Entry>,
                                             sent: set<Batch>, wait: Waiting, k: nat, b: Batch)
    requires built != [] && b == Last(built) && k <= |files|
    requires CoreOf(sensorId, next, built, files, sent, wait)
    requires GoodFiles(Front(built), files)
    ensures CoreOf(sensorId, next, built, files[k..] + [FileOf(b)], sent, Idle)
  {
    assert Front(built) + [b] == built;
    assert built[|built| - 1].sequence == |built|;
    assert forall x :: x in sent ==> IsBuilt(built, x) && x.sequence <= b.sequence;
  }

  lemma {:induction false} ConcludingQueueKeepsCore(w: World, s: System, after: real)
    requires Validated(w.cfg) && Core(w, s) && Unsettled(s.wait)
    ensures Core(w, Conclude(w, s, s.wait.b, QueueBatch(w.cfg, s.agent, s.wait.b), after))
  {
    var b := s.wait.b;
    UnsettledIsNewest(w, s);
    ConcludingQueue(w, s, b, Front(s.built), after);
    var next := Conclude(w, s, b, QueueBatch(w.cfg, s.agent, b), after);
    if QueueBatch(w.cfg, s.agent, b).1 != BufferFull {
      QueueingKeepsCore(w.cfg.sensorId, s.agent.nextSequence, s.built, s.agent.disk.files, s.sent, s.wait,
                        |s.agent.disk.files| + 1 - |next.agent.disk.files|, b);
    }
  }

  lemma {:induction false} NumberingKeepsCore(sensorId: string, next: nat, built: seq<Batch>, files: seq<Entry>,
                                               sent: set<Batch>, b: Batch)
    requires CoreOf(sensorId, next, built, files, sent, Idle)
    requires b.sequence == next && b.sensorId == sensorId
    ensures CoreOf(sensorId, next + 1, built + [b], files, sent, Holding(b))
  {
    assert Front(built + [b]) == built;
    assert forall i :: 0 <= i < |files| ==> GoodFile(built, files[i]) ==> GoodFile(built + [b], files[i]);
    assert forall x :: x in sent ==> IsBuilt(built, x) ==> IsBuilt(built + [b], x);
  }

  lemma {:induction false} DispatchKeepsCore(w: World, s: System, after: real)
    requires Validated(w.cfg) && Core(w, s)
    ensures Core(w, DoDispatch(w, s, after))
  {
    if s.wait.Holding? {
      UnsettledIsNewest(w, s);
      if s.agent.disk.files == [] {
        SendingKeepsCore(w.cfg.sensorId, s.agent.nextSequence, s.built, s.sent, s.wait);
      } else {
        ConcludingQueueKeepsCore(w, s, after);
      }
    }
  }

  /** A direct send ends delivered, refused, or as a queued batch. */
  lemma {:induction false} ResumeDirectKeepsCore(w: World, s: System, r: Response, after: real)
    requires Validated(w.cfg) && Core(w, s) && s.wait.Direct?
    ensures Core(w, Conclude(w, s, s.wait.b, AfterDirect(w.cfg, s.agent, s.wait.b, r), after))
  {
    if Transient(r) {
      ConcludingQueueKeepsCore(w, s, after);
    }
  }

  lemma {:induction false} ResumeFlushingKeepsCore(w: World, s: System, r: Response, later: real, jitter: real, after: real)
    requires Core(w, s) && s.wait.Flushing?
    ensures Core(w, DoResume(w, s, r, later, jitter, after))
  {
    PopHead(s.agent.disk.files);
  }

  lemma {:induction false} BeginFlushKeepsCore(w: World, s: System)
    requires Core(w, s)
    ensures Core(w, DoBeginFlush(w, s))
  {
    var files := s.agent.disk.files;
    PeekShowsFirstReadable(s.agent.disk);
    var (seen, head) := Peek(s.agent.disk);
    if head.Some? {
      assert GoodFile(s.built, seen.files[0]);
    }
  }

  lemma {:induction false} CorruptionKeepsCore(w: World, s: System, i: nat, bytes: nat)
    requires Core(w, s)
    ensures Core(w, DoCorruptFile(s, i, bytes))
  {
    var files := s.agent.disk.files;
    if i < |files| {
      var changed := files[i := Entry(files[i].sequence, bytes, None)];
      assert forall j :: 0 <= j < |files| ==> changed[j].sequence == files[j].sequence;
      assert forall j :: 0 <= j < |files| ==> GoodFile(s.built, files[j]) ==> GoodFile(s.built, changed[j]);
      if s.wait.Holding? {
        var older := Front(s.built);
        assert forall j :: 0 <= j < |files| ==> GoodFile(older, files[j]) ==> GoodFile(older, changed[j]);
      }
    }
  }

  lemma {:induction false} ActionKeepsCore(w: World, s: System, action: Action)
    requires Validated(w.cfg) && Core(w, s)
    ensures Core(w, Apply(w, s, action))
  {
    match action {
      case BeginSubmit(stamp) =>
        if s.wait.Idle? && s.agent.pending != [] {
          NumberingKeepsCore(w.cfg.sensorId, s.agent.nextSequence, s.built, s.agent.disk.files, s.sent,
                             Last(DoBeginSubmit(w, s, stamp).built));
        }
      case Dispatch(after) => DispatchKeepsCore(w, s, after);
      case BeginFlush => BeginFlushKeepsCore(w, s);
      case Resume(r, later, jitter, after) =>
        if s.wait.Direct? {
          ResumeDirectKeepsCore(w, s, r, after);
        } else if s.wait.Flushing? {
          ResumeFlushingKeepsCore(w, s, r, later, jitter, after);
        }
      case CorruptFile(i, bytes) => CorruptionKeepsCore(w, s, i, bytes);
      case _ =>
    }
  }

  // ---- Central ----

  ghost predicate AllSent(batches: seq<Batch>, sent: set<Batch>) {
    forall i :: 0 <= i < |batches| ==> batches[i] in sent
  }

  lemma {:induction false} StepCommitsOnlySent(settings: Settings, t: Trail, e: Event, id: string, sent: set<Batch>)
    requires AllSent(t.ever, sent)
    requires e.Deliver? && e.id == id ==> e.batch in sent
    ensures AllSent(Advance(settings, t, e, id).ever, sent)
    ensures forall b :: b in t.ever ==> b in Advance(settings, t, e, id).ever
  {
  }

  /** What central has committed was sent, was committed in order and at most once, and a live
      request has never been answered with a conflict. */
  ghost predicate CentralSide(w: World, s: System)
    requires w.cfg.sensorId in w.start.registry.sensors
  {
    && Consistent(w.start, s.trail, w.cfg.sensorId)
    && AllSent(s.trail.ever, s.sent)
    && (Requesting(s.wait) && s.wait.reply.Some? ==>
          && s.wait.reply.value != ConflictReply && s.wait.reply.value != FailedAtCommit
          && (Acknowledges(s.wait.reply.value) ==> s.wait.b in s.trail.ever))
  }

  /** No request was ever made that is newer than the one the agent waits on. */
  lemma {:induction false} LiveRequestIsNewest(w: World, s: System, b: Batch)
    requires Core(w, s) && Requesting(s.wait) && b in s.sent
    ensures b.sequence <= s.wait.b.sequence
    ensures b.sequence == s.wait.b.sequence ==> b == s.wait.b
    ensures s.wait.b.sequence >= 1
  {
    assert IsBuilt(s.built, b) && IsBuilt(s.built, s.wait.b);
    if s.wait.Direct? {
      assert s.built[|s.built| - 1].sequence == |s.built|;
    }
  }

  /** Central's last committed sequence is at most that of a live request, and if equal the last
      commit is that very request. */
  lemma {:induction false} LiveRequestIsNewOrLast(w: World, s: System)
    requires Ready(w) && Core(w, s) && CentralSide(w, s) && Requesting(s.wait)
    ensures
      var sensor := s.trail.central.registry.sensors[w.cfg.sensorId];
      && Judge(sensor, s.wait.b) != Conflict
      && (Judge(sensor, s.wait.b) == Duplicate ==> s.wait.b in s.trail.ever)
  {
    var ever := s.trail.ever;
    LiveRequestIsNewest(w, s, s.wait.b);
    if ever != [] {
      LiveRequestIsNewest(w, s, Last(ever));
    }
  }

  lemma {:induction false} LiveReplyIsSound(w: World, s: System, nowCheck: int, nowCommit: int)
    requires Ready(w) && Core(w, s) && CentralSide(w, s) && Requesting(s.wait)
    ensures
      var e := Deliver(w.cfg.sensorId, s.wait.b, nowCheck, nowCommit);
      var reply := Handle(w.settings, s.trail.central, w.cfg.sensorId, s.wait.b, nowCheck, nowCommit).1;
      && reply != ConflictReply && reply != FailedAtCommit
      && (Acknowledges(reply) ==> s.wait.b in Advance(w.settings, s.trail, e, w.cfg.sensorId).ever)
  {
    LiveRequestIsNewOrLast(w, s);
    RequestCommitsOrLeavesAlone(w.settings, s.trail.central, w.cfg.sensorId, s.wait.b, nowCheck, nowCommit);
  }

  lemma {:induction false} HandlingLiveKeepsCentralSide(w: World, s: System, nowCheck: int, nowCommit: int)
    requires Ready(w) && Core(w, s) && CentralSide(w, s)
    ensures CentralSide(w, DoHandleLive(w, s, nowCheck, nowCommit))
  {
    if Requesting(s.wait) && s.wait.reply.None? {
      var id, b := w.cfg.sensorId, s.wait.b;
      var e := Deliver(id, b, nowCheck, nowCommit);
      StepStaysConsistent(w.settings, w.start, s.trail, e, id);
      LiveReplyIsSound(w, s, nowCheck, nowCommit);
      StepCommitsOnlySent(w.settings, s.trail, e, id, s.sent);
    }
  }

  lemma {:induction false} OtherHandlingKeepsCentralSide(w: World, s: System, e: Event)
    requires Ready(w) && Core(w, s) && CentralSide(w, s)
    requires e.Deliver? && e.id == w.cfg.sensorId ==> e.batch in s.sent
    ensures CentralSide(w, s.(trail := Advance(w.settings, s.trail, e, w.cfg.sensorId)))
  {
    StepStaysConsistent(w.settings, w.start, s.trail, e, w.cfg.sensorId);
    StepCommitsOnlySent(w.settings, s.trail, e, w.cfg.sensorId, s.sent);
  }

  predicate FromCentral(action: Action) {
    action.HandleLive? || action.HandleStale? || action.OtherTraffic?
  }

  /** The agent's own actions reach central only through new requests. */
  lemma {:induction false} AgentActsThroughRequests(w: World, s: System, action: Action)
    requires !FromCentral(action)
    ensures
      var next := Apply(w, s, action);
      && next.trail == s.trail
      && s.sent <= next.sent
      && (!Requesting(next.wait) || next.wait.reply.None? || next.wait == s.wait)
  {
  }

  lemma {:induction false} AgentKeepsCentralSide(w: World, s: System, action: Action)
    requires Ready(w) && CentralSide(w, s) && !FromCentral(action)
    ensures CentralSide(w, Apply(w, s, action))
  {
    AgentActsThroughRequests(w, s, action);
  }

  lemma {:induction false} ActionKeepsCentralSide(w: World, s: System, action: Action)
    requires Ready(w) && Core(w, s) && CentralSide(w, s)
    ensures CentralSide(w, Apply(w, s, action))
  {
    match action {
      case HandleLive(nowCheck, nowCommit) => HandlingLiveKeepsCentralSide(w, s, nowCheck, nowCommit);
      case HandleStale(copy, nowCheck, nowCommit) =>
        if copy in s.sent {
          OtherHandlingKeepsCentralSide(w, s, Deliver(w.cfg.sensorId, copy, nowCheck, nowCommit));
        }
      case OtherTraffic(e) =>
        if !(e.Deliver? && e.id == w.cfg.sensorId) {
          OtherHandlingKeepsCentralSide(w, s, e);
        }
      case _ => AgentKeepsCentralSide(w, s, action);
    }
  }

  // ---- The main safety theorem ----

  lemma {:induction false} RunIsSafe(w: World, actions: seq<Action>)
    requires Ready(w)
    ensures Core(w, Run(w, actions)) && CentralSide(w, Run(w, actions))
  {
    if actions == [] {
      assert StatesOf([]) == [];
    } else {
      RunIsSafe(w, Front(actions));
      ActionKeepsCore(w, Run(w, Front(actions)), Last(actions));
      ActionKeepsCentralSide(w, Run(w, Front(actions)), Last(actions));
    }
  }

  /** In every run, central would answer the request the agent is waiting on as new or as the
      duplicate of its last commit, and has never answered it with a sequence conflict; so a
      transport conflict is never reported to the agent. */
  lemma {:induction false} LiveRequestNeverConflicts(w: World, actions: seq<Action>, nowCheck: int, nowCommit: int)
    requires Ready(w) && Requesting(Run(w, actions).wait)
    ensures
      var s := Run(w, actions);
      && Handle(w.settings, s.trail.central, w.cfg.sensorId, s.wait.b, nowCheck, nowCommit).1 != ConflictReply
      && s.wait.reply != Some(ConflictReply)
      && !MayReport(s.wait.reply, Failed(Some(409)))
  {
    RunIsSafe(w, actions);
    LiveReplyIsSound(w, Run(w, actions), nowCheck, nowCommit);
  }

  /** In every run, the sequences committed at central strictly increase, every committed batch is
      the one the agent built under its number, and the runtime holds exactly the states of the
      batches committed since central last started. */
  lemma {:induction false} CommitsAreOrderedAndGenuine(w: World, actions: seq<Action>)
    requires Ready(w)
    ensures
      var s := Run(w, actions);
      && Increasing(s.trail.ever, 0)
      && (forall i :: 0 <= i < |s.trail.ever| ==> IsBuilt(s.built, s.trail.ever[i]))
      && LogOf(s.trail.central.runtimes, w.cfg.sensorId) == StatesOf(s.trail.live)
      && |s.trail.live| <= |s.trail.ever|
      && s.trail.live == s.trail.ever[|s.trail.ever| - |s.trail.live|..]
  {
    RunIsSafe(w, actions);
  }
}
