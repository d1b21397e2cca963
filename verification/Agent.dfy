/** The sending side of the delivery protocol (src/agent/client.py). */
module SensorAgents {
  import opened Prelude
  import opened Telemetry
  import opened DiskBuffer

  const TRANSIENT_STATUSES: set<nat> := {408, 425, 429, 500, 502, 503, 504}

  datatype Config = Config(sensorId: string, batchSize: nat, batchInterval: real, limits: Limits,
                           retryBase: real, retryMax: real)

  /** What configuration validation and the batcher's constructor guarantee. */
  predicate Validated(cfg: Config) {
    && 1 <= cfg.batchSize <= MAX_BATCH_STATES
    && cfg.batchInterval > 0.0
    && cfg.limits.maxBatches > 0 && cfg.limits.maxBytes > 0
    && 0.0 < cfg.retryBase <= cfg.retryMax
  }

  /** How one telemetry request ended for the agent. */
  datatype Response = Acknowledged | Failed(status: Option<nat>)

  predicate Transient(r: Response) {
    r.Failed? && (r.status.None? || r.status.value in TRANSIENT_STATUSES)
  }

  datatype Counters = Counters(collected: nat, sent: nat, buffered: nat, retries: nat, rejections: nat)

  datatype Agent = Agent(disk: Disk, pending: seq<StatePoint>, pendingSince: Option<real>, nextSequence: nat,
                         retryDelay: real, nextRetryAt: real, lastSent: nat, lastAcknowledged: nat,
                         counters: Counters)

  datatype SubmitOutcome = NothingToSend | Sent | Buffered | RejectedPermanently | BufferFull | InvalidBatch

  function PendingLimit(cfg: Config): nat {
    Max(cfg.batchSize * 4, cfg.batchSize)
  }

  /** A fresh process over the files and the sequence number it finds. */
  function Started(cfg: Config, found: Disk, nextSequence: nat): Agent {
    Agent(Reopen(found), [], None, nextSequence, cfg.retryBase, 0.0, 0, 0, Counters(0, 0, 0, 0, 0))
  }

  // ---- Collecting ----

  function OnState(cfg: Config, a: Agent, s: StatePoint, now: real): (Agent, bool) {
    if |a.pending| >= PendingLimit(cfg) then (a, false)
    else
      (a.(pending := a.pending + [s],
          pendingSince := if a.pendingSince == None then Some(now) else a.pendingSince,
          counters := a.counters.(collected := a.counters.collected + 1)), true)
  }

  // ---- Submitting ----

  function Build(cfg: Config, a: Agent, states: seq<StatePoint>, stamp: Stamp): (Agent, Batch) {
    (a.(nextSequence := a.nextSequence + 1), Envelope(cfg.sensorId, a.nextSequence, states, stamp))
  }

  function QueueBatch(cfg: Config, a: Agent, b: Batch): (Agent, SubmitOutcome) {
    var (disk, outcome) := Enqueue(cfg.limits, a.disk, b);
    match outcome
    case Full => (a.(disk := disk), BufferFull)
    case InvalidSequence => (a.(disk := disk), InvalidBatch)
    case _ => (a.(disk := disk, counters := a.counters.(buffered := a.counters.buffered + 1)), Buffered)
  }

  function MarkDelivery(a: Agent, sequence: nat): Agent {
    a.(lastSent := Max(a.lastSent, sequence), lastAcknowledged := Max(a.lastAcknowledged, sequence))
  }

  /** How a direct send ends: delivered, quarantined as rejected, or queued for retry. */
  function AfterDirect(cfg: Config, a: Agent, b: Batch, r: Response): (Agent, SubmitOutcome) {
    if r == Acknowledged then
      (MarkDelivery(a, b.sequence).(counters := a.counters.(sent := a.counters.sent + 1)), Sent)
    else if !Transient(r) then
      (a.(disk := Reject(a.disk, b.sequence), counters := a.counters.(rejections := a.counters.rejections + 1)),
       RejectedPermanently)
    else QueueBatch(cfg, a, b)
  }

  /** A newer envelope never overtakes a queued one: with files on disk it is queued unsent. */
  function Submit(cfg: Config, a: Agent, states: seq<StatePoint>, stamp: Stamp, r: Response): (Agent, SubmitOutcome) {
    if states == [] then (a, NothingToSend)
    else if |states| > cfg.batchSize || |states| > MAX_BATCH_STATES || |stamp.sourceIntervals| > MAX_SOURCE_ROWS then
      (a, InvalidBatch)
    else
      var (built, b) := Build(cfg, a, states, stamp);
      if built.disk.files != [] then QueueBatch(cfg, built, b) else AfterDirect(cfg, built, b, r)
  }

  // ---- Flushing ----

  /** Every readable file carries the sequence it is named after. */
  ghost predicate Named(files: seq<Entry>) {
    forall i :: 0 <= i < |files| && files[i].body.Some? ==> files[i].body.value.sequence == files[i].sequence
  }

  function RealMin(x: real, y: real): real {
    if x <= y then x else y
  }

  /** How a flushed request ends. A transient failure keeps the file and doubles the delay. */
  function AfterFlushed(cfg: Config, a: Agent, b: Batch, r: Response, later: real, jitter: real): Agent {
    if r == Acknowledged then
      MarkDelivery(a.(disk := Pop(a.disk, b.sequence)), b.sequence).(retryDelay := cfg.retryBase, nextRetryAt := 0.0)
    else if !Transient(r) then
      a.(disk := Pop(Reject(a.disk, b.sequence), b.sequence),
         counters := a.counters.(rejections := a.counters.rejections + 1))
    else
      a.(nextRetryAt := later + RealMin(a.retryDelay, cfg.retryMax) + jitter,
         retryDelay := RealMin(a.retryDelay * 2.0, cfg.retryMax),
         counters := a.counters.(retries := a.counters.retries + 1))
  }

  lemma {:induction false} PopHead(files: seq<Entry>)
    requires files != []
    ensures Without(files, files[0].sequence) == files[1..]
  {
  }

  /** After the agent has looked at the head and answered for it, fewer files are left unless
      the answer was transient. */
  lemma {:induction false} AnsweredHeadLeaves(disk: Disk)
    requires Named(disk.files)
    ensures
      var (seen, head) := Peek(disk);
      && Named(seen.files) && |seen.files| <= |disk.files|
      && (head.Some? ==>
            && seen.files != [] && seen.files[0].sequence == head.value.sequence
            && Without(seen.files, head.value.sequence) == seen.files[1..]
            && Named(seen.files[1..]))
  {
    PeekShowsFirstReadable(disk);
    var (seen, head) := Peek(disk);
    if head.Some? {
      PopHead(seen.files);
    }
  }

  /** The delivery loop: `net(i)` is how the i-th request of this flush ends. */
  function FlushLoop(cfg: Config, a: Agent, net: nat -> Response, i: nat, later: real, jitter: real): (Agent, nat)
    requires Named(a.disk.files)
    decreases |a.disk.files|
  {
    AnsweredHeadLeaves(a.disk);
    var (seen, head) := Peek(a.disk);
    if head.None? then (a.(disk := seen), 0)
    else
      var after := AfterFlushed(cfg, a.(disk := seen), head.value, net(i), later, jitter);
      if Transient(net(i)) then (after, 0)
      else
        var (rest, delivered) := FlushLoop(cfg, after, net, i + 1, later, jitter);
        (rest, delivered + if net(i) == Acknowledged then 1 else 0)
  }

  function Flush(cfg: Config, a: Agent, now: real, net: nat -> Response, later: real, jitter: real): (Agent, nat)
    requires Named(a.disk.files)
  {
    if now < a.nextRetryAt then (a, 0) else FlushLoop(cfg, a, net, 0, later, jitter)
  }

  /** The responses a flush uses up, in order. */
  function Consumed(cfg: Config, a: Agent, net: nat -> Response, i: nat, later: real, jitter: real): seq<Response>
    requires Named(a.disk.files)
    decreases |a.disk.files|
  {
    AnsweredHeadLeaves(a.disk);
    var (seen, head) := Peek(a.disk);
    if head.None? then []
    else if Transient(net(i)) then [net(i)]
    else [net(i)] + Consumed(cfg, AfterFlushed(cfg, a.(disk := seen), head.value, net(i), later, jitter),
                             net, i + 1, later, jitter)
  }

  /** From `a` to `after` a prefix of the queue has left and the rest keeps its order; each file
      that left is one of the `delivered`, or rejected, or quarantined. */
  ghost predicate PrefixLeft(a: Agent, after: Agent, delivered: int) {
    var k := |a.disk.files| - |after.disk.files|;
    && k >= 0 && after.disk.files == a.disk.files[k..]
    && k == delivered + (after.counters.rejections - a.counters.rejections)
                      + (after.disk.corruptBatches - a.disk.corruptBatches)
    && after.disk.droppedBatches == a.disk.droppedBatches
    && after.pending == a.pending && after.nextSequence == a.nextSequence
  }

  lemma {:induction false} PrefixesAddUp(a: Agent, middle: Agent, after: Agent, first: int, second: int)
    requires PrefixLeft(a, middle, first) && PrefixLeft(middle, after, second)
    ensures PrefixLeft(a, after, first + second)
  {
    var files, rest := a.disk.files, |after.disk.files|;
    assert files[|files| - |middle.disk.files|..][|middle.disk.files| - rest..] == files[|files| - rest..];
  }

  lemma {:induction false} LookingQuarantines(a: Agent)
    ensures PrefixLeft(a, a.(disk := Peek(a.disk).0), 0)
  {
    PeekShowsFirstReadable(a.disk);
  }

  lemma {:induction false} AnsweredHeadIsCounted(cfg: Config, a: Agent, b: Batch, r: Response, later: real, jitter: real)
    requires a.disk.files != [] && a.disk.files[0].sequence == b.sequence && !Transient(r)
    ensures
      var after := AfterFlushed(cfg, a, b, r, later, jitter);
      PrefixLeft(a, after, if r == Acknowledged then 1 else 0) && after.counters.retries == a.counters.retries
  {
    PopHead(a.disk.files);
  }

  /** A flush removes a prefix of the queue and keeps the rest in order. Each removed file is
      accounted for once: delivered, rejected, or quarantined; it stops early only on a
      transient failure, of which there is at most one. */
  lemma {:induction false} FlushAccountsForPrefix(cfg: Config, a: Agent, net: nat -> Response, i: nat,
                                                  later: real, jitter: real)
    requires Named(a.disk.files)
    ensures
      var (after, delivered) := FlushLoop(cfg, a, net, i, later, jitter);
      && PrefixLeft(a, after, delivered)
      && a.counters.retries <= after.counters.retries <= a.counters.retries + 1
      && (after.counters.retries == a.counters.retries ==> after.disk.files == [])
    decreases |a.disk.files|
  {
    AnsweredHeadLeaves(a.disk);
    LookingQuarantines(a);
    var (seen, head) := Peek(a.disk);
    if head.None? {
      PeekShowsFirstReadable(a.disk);
    } else if !Transient(net(i)) {
      var looked := a.(disk := seen);
      var next := AfterFlushed(cfg, looked, head.value, net(i), later, jitter);
      var (after, delivered) := FlushLoop(cfg, next, net, i + 1, later, jitter);
      AnsweredHeadIsCounted(cfg, looked, head.value, net(i), later, jitter);
      FlushAccountsForPrefix(cfg, next, net, i + 1, later, jitter);
      var one := if net(i) == Acknowledged then 1 else 0;
      PrefixesAddUp(a, looked, next, 0, one);
      PrefixesAddUp(a, next, after, one, delivered);
    }
  }

  // ---- Backoff ----

  function PowerOfTwo(k: nat): real {
    if k == 0 then 1.0 else 2.0 * PowerOfTwo(k - 1)
  }

  /** The delay after `k` consecutive transient failures. */
  function Backoff(cfg: Config, k: nat): real {
    RealMin(cfg.retryBase * PowerOfTwo(k), cfg.retryMax)
  }

  /** Transient failures since the last success; permanent refusals neither count nor reset. */
  function Consecutive(responses: seq<Response>): nat {
    if responses == [] then 0
    else
      var r := Last(responses);
      if r == Acknowledged then 0
      else if Transient(r) then Consecutive(Front(responses)) + 1
      else Consecutive(Front(responses))
  }

  function NextDelay(cfg: Config, delay: real, r: Response): real {
    if r == Acknowledged then cfg.retryBase
    else if Transient(r) then RealMin(delay * 2.0, cfg.retryMax)
    else delay
  }

  function DelayAfter(cfg: Config, delay: real, responses: seq<Response>): real
    decreases |responses|
  {
    if responses == [] then delay else DelayAfter(cfg, NextDelay(cfg, delay, responses[0]), responses[1..])
  }

  lemma {:induction false} NextDelayIsBackoff(cfg: Config, before: seq<Response>, r: Response)
    requires Validated(cfg)
    ensures NextDelay(cfg, Backoff(cfg, Consecutive(before)), r) == Backoff(cfg, Consecutive(before + [r]))
  {
    assert Front(before + [r]) == before && Last(before + [r]) == r;
  }

  lemma {:induction false} DelayIsBackoff(cfg: Config, before: seq<Response>, responses: seq<Response>)
    requires Validated(cfg)
    ensures DelayAfter(cfg, Backoff(cfg, Consecutive(before)), responses) == Backoff(cfg, Consecutive(before + responses))
    decreases |responses|
  {
    if responses == [] {
      assert before + responses == before;
    } else {
      NextDelayIsBackoff(cfg, before, responses[0]);
      DelayIsBackoff(cfg, before + [responses[0]], responses[1..]);
      assert before + [responses[0]] + responses[1..] == before + responses;
    }
  }

  lemma {:induction false} FlushFollowsDelays(cfg: Config, a: Agent, net: nat -> Response, i: nat, later: real, jitter: real)
    requires Named(a.disk.files)
    ensures
      var after := FlushLoop(cfg, a, net, i, later, jitter).0;
      var consumed := Consumed(cfg, a, net, i, later, jitter);
      && after.retryDelay == DelayAfter(cfg, a.retryDelay, consumed)
      && (consumed != [] && Transient(Last(consumed)) ==>
            after.nextRetryAt == later + RealMin(DelayAfter(cfg, a.retryDelay, Front(consumed)), cfg.retryMax) + jitter)
    decreases |a.disk.files|
  {
    AnsweredHeadLeaves(a.disk);
    var (seen, head) := Peek(a.disk);
    if head.Some? {
      var r := net(i);
      if Transient(r) {
        assert Front([r]) == [] && [r][1..] == [];
      } else {
        var next := AfterFlushed(cfg, a.(disk := seen), head.value, r, later, jitter);
        FlushFollowsDelays(cfg, next, net, i + 1, later, jitter);
        var rest := Consumed(cfg, next, net, i + 1, later, jitter);
        assert ([r] + rest)[1..] == rest;
        if rest != [] {
          assert Last([r] + rest) == Last(rest);
          assert Front([r] + rest) == [r] + Front(rest) && ([r] + Front(rest))[1..] == Front(rest);
        }
      }
    }
  }

  /** After every response so far, the delay is min(base * 2^k, max) for the k transient failures
      since the last success; and a flush that ends in one schedules the next try that far off. */
  lemma {:induction false} FlushBacksOffExponentially(cfg: Config, a: Agent, net: nat -> Response, i: nat,
                                                      later: real, jitter: real, before: seq<Response>)
    requires Validated(cfg) && Named(a.disk.files)
    requires a.retryDelay == Backoff(cfg, Consecutive(before))
    ensures
      var after := FlushLoop(cfg, a, net, i, later, jitter).0;
      var consumed := Consumed(cfg, a, net, i, later, jitter);
      && after.retryDelay == Backoff(cfg, Consecutive(before + consumed))
      && (consumed != [] && Transient(Last(consumed)) ==>
            after.nextRetryAt == later + Backoff(cfg, Consecutive(before + Front(consumed))) + jitter)
  {
    FlushFollowsDelays(cfg, a, net, i, later, jitter);
    var consumed := Consumed(cfg, a, net, i, later, jitter);
    DelayIsBackoff(cfg, before, consumed);
    if consumed != [] {
      DelayIsBackoff(cfg, before, Front(consumed));
    }
  }

  // ---- Draining ----

  /** `appendleft` of `states`, last first, on a deque that holds at most `limit`: overflow
      falls off the right end. */
  function PutBack(states: seq<StatePoint>, pending: seq<StatePoint>, limit: nat): seq<StatePoint> {
    var all := states + pending;
    if |all| <= limit then all else all[..limit]
  }

  /** Putting back is exact if and only if everything still fits. */
  lemma {:induction false} PutBackIsExactlyInverse(states: seq<StatePoint>, pending: seq<StatePoint>, limit: nat)
    ensures PutBack(states, pending, limit) == states + pending <==> |states| + |pending| <= limit
  {
    assert |states + pending| == |states| + |pending|;
  }

  predicate ReadyToDrain(cfg: Config, a: Agent, force: bool, now: real) {
    || force
    || |a.pending| >= cfg.batchSize
    || (a.pendingSince.Some? && now - a.pendingSince.value >= cfg.batchInterval)
  }

  /** What reaches the drain loop from outside: two clock readings, the envelope stamp with the
      source rows waiting then, and the response of each round. */
  datatype Round = Round(now: real, after: real, stamp: Stamp, response: Response)

  function DrainRound(cfg: Config, a: Agent, round: Round): (Agent, SubmitOutcome) {
    var count := Min(cfg.batchSize, |a.pending|);
    var states, rest := a.pending[..count], a.pending[count..];
    var (after, outcome) := Submit(cfg, a.(pending := rest), states, Riding(round.stamp), round.response);
    if outcome == BufferFull then (after.(pending := PutBack(states, after.pending, PendingLimit(cfg))), BufferFull)
    else (after.(pendingSince := if after.pending == [] then None else Some(round.after)), outcome)
  }

  lemma {:induction false} RoundKeepsRestPending(cfg: Config, a: Agent, round: Round)
    requires |a.pending| <= PendingLimit(cfg)
    ensures
      var (after, outcome) := DrainRound(cfg, a, round);
      var count := Min(cfg.batchSize, |a.pending|);
      after.pending == if outcome == BufferFull then a.pending else a.pending[count..]
  {
    var count := Min(cfg.batchSize, |a.pending|);
    assert a.pending[..count] + a.pending[count..] == a.pending;
  }

  lemma {:induction false} RoundTakesOneNumber(cfg: Config, a: Agent, round: Round)
    requires Validated(cfg) && a.pending != []
    ensures DrainRound(cfg, a, round).0.nextSequence == a.nextSequence + 1
  {
  }

  function Drain(cfg: Config, a: Agent, force: bool, rounds: nat -> Round, i: nat): Agent
    requires cfg.batchSize >= 1 && |a.pending| <= PendingLimit(cfg)
    decreases |a.pending|
  {
    if a.pending == [] || !ReadyToDrain(cfg, a, force, rounds(i).now) then a
    else
      RoundKeepsRestPending(cfg, a, rounds(i));
      var (after, outcome) := DrainRound(cfg, a, rounds(i));
      if outcome == BufferFull then after else Drain(cfg, after, force, rounds, i + 1)
  }

  /** The states a drain hands over, batch by batch; an abandoned batch hands over nothing. */
  function Shipped(cfg: Config, a: Agent, force: bool, rounds: nat -> Round, i: nat): seq<seq<StatePoint>>
    requires cfg.batchSize >= 1 && |a.pending| <= PendingLimit(cfg)
    decreases |a.pending|
  {
    if a.pending == [] || !ReadyToDrain(cfg, a, force, rounds(i).now) then []
    else
      RoundKeepsRestPending(cfg, a, rounds(i));
      var (after, outcome) := DrainRound(cfg, a, rounds(i));
      if outcome == BufferFull then []
      else [a.pending[..Min(cfg.batchSize, |a.pending|)]] + Shipped(cfg, after, force, rounds, i + 1)
  }

  /** The drain stops at a full buffer. */
  predicate EndsFull(cfg: Config, a: Agent, force: bool, rounds: nat -> Round, i: nat)
    requires cfg.batchSize >= 1 && |a.pending| <= PendingLimit(cfg)
    decreases |a.pending|
  {
    && a.pending != [] && ReadyToDrain(cfg, a, force, rounds(i).now)
    && (RoundKeepsRestPending(cfg, a, rounds(i));
        var (after, outcome) := DrainRound(cfg, a, rounds(i));
        outcome == BufferFull || EndsFull(cfg, after, force, rounds, i + 1))
  }

  lemma {:induction false} HeadShipsFirst(pending: seq<StatePoint>, count: nat, rest: seq<seq<StatePoint>>,
                                          left: seq<StatePoint>)
    requires count <= |pending| && Flatten(rest) + left == pending[count..]
    ensures Flatten([pending[..count]] + rest) + left == pending
  {
    FlattenFirst(pending[..count], rest);
    assert pending[..count] + (Flatten(rest) + left) == pending[..count] + Flatten(rest) + left;
    assert pending[..count] + pending[count..] == pending;
  }

  /** With nothing collected meanwhile, the batches handed over, followed by what is still pending,
      are exactly what was pending, in order; each batch took one sequence number, and one more
      was taken exactly if the drain ended by giving up at a full buffer. */
  lemma {:induction false} DrainLosesNoState(cfg: Config, a: Agent, force: bool, rounds: nat -> Round, i: nat)
    requires Validated(cfg) && |a.pending| <= PendingLimit(cfg)
    ensures
      var after := Drain(cfg, a, force, rounds, i);
      var shipped := Shipped(cfg, a, force, rounds, i);
      && Flatten(shipped) + after.pending == a.pending
      && after.nextSequence == a.nextSequence + |shipped| + (if EndsFull(cfg, a, force, rounds, i) then 1 else 0)
    decreases |a.pending|
  {
    if a.pending != [] && ReadyToDrain(cfg, a, force, rounds(i).now) {
      RoundKeepsRestPending(cfg, a, rounds(i));
      RoundTakesOneNumber(cfg, a, rounds(i));
      var (after, outcome) := DrainRound(cfg, a, rounds(i));
      if outcome != BufferFull {
        DrainLosesNoState(cfg, after, force, rounds, i + 1);
        HeadShipsFirst(a.pending, Min(cfg.batchSize, |a.pending|), Shipped(cfg, after, force, rounds, i + 1),
                       Drain(cfg, after, force, rounds, i + 1).pending);
      }
    }
  }

  // ---- The agent object ----

  /** Storing a fresh envelope keeps every file named after its envelope. */
  lemma {:induction false} InsertKeepsNames(files: seq<Entry>, b: Batch)
    requires Named(files)
    ensures Named(Insert(files, FileOf(b)))
    decreases |files|
  {
    if files != [] && b.sequence >= files[0].sequence {
      InsertKeepsNames(files[1..], b);
    }
  }

  lemma {:induction false} EnqueueKeepsNames(limits: Limits, disk: Disk, b: Batch)
    requires Named(disk.files)
    ensures Named(Enqueue(limits, disk, b).0.files)
  {
    MakeSpaceDropsShortestPrefix(limits, disk, b.encodedBytes);
    InsertKeepsNames(MakeSpace(limits, disk, b.encodedBytes).0.files, b);
  }

  class SensorAgent {
    const cfg: Config
    const buffer: DiskTelemetryBuffer
    const batcher: TelemetryBatcher
    var pending: seq<StatePoint>
    var pendingSince: Option<real>
    var retryDelay: real
    var nextRetryAt: real
    var lastSent: nat
    var lastAcknowledged: nat
    var counters: Counters

    ghost predicate Valid()
      reads this, buffer, batcher
    {
      && 1 <= cfg.batchSize <= MAX_BATCH_STATES
      && buffer.limits == cfg.limits
      && batcher.sensorId == cfg.sensorId && batcher.batchSize == cfg.batchSize
      && batcher.nextSequence == batcher.persistedSequence
      && |pending| <= PendingLimit(cfg)
      && Named(buffer.files)
    }

    ghost function Model(): Agent
      reads this, buffer, batcher
    {
      Agent(buffer.Model(), pending, pendingSince, batcher.nextSequence, retryDelay, nextRetryAt,
            lastSent, lastAcknowledged, counters)
    }

    constructor (cfg: Config, found: Disk, nextSequence: nat)
      requires Validated(cfg) && Named(found.files) && nextSequence >= 1
      ensures Valid() && Model() == Started(cfg, found, nextSequence)
      ensures this.cfg == cfg
    {
      this.cfg := cfg;
      buffer := new DiskTelemetryBuffer(cfg.limits, found);
      batcher := new TelemetryBatcher(cfg.sensorId, nextSequence, cfg.batchSize);
      pending, pendingSince := [], None;
      retryDelay, nextRetryAt := cfg.retryBase, 0.0;
      lastSent, lastAcknowledged := 0, 0;
      counters := Counters(0, 0, 0, 0, 0);
    }

    method TakeState(s: StatePoint, now: real) returns (taken: bool)
      requires Valid()
      modifies this
      ensures Valid() && (Model(), taken) == OnState(cfg, old(Model()), s, now)
    {
      if |pending| >= PendingLimit(cfg) {
        return false;
      }
      pending := pending + [s];
      counters := counters.(collected := counters.collected + 1);
      if pendingSince == None {
        pendingSince := Some(now);
      }
      taken := true;
    }

    method EnqueuePayload(b: Batch) returns (outcome: SubmitOutcome)
      requires Valid()
      modifies this`counters, buffer
      ensures Valid() && (Model(), outcome) == QueueBatch(cfg, old(Model()), b)
    {
      EnqueueKeepsNames(cfg.limits, buffer.Model(), b);
      var stored := buffer.EnqueueBatch(b);
      if stored == Full {
        return BufferFull;
      }
      if stored == InvalidSequence {
        return InvalidBatch;
      }
      counters := counters.(buffered := counters.buffered + 1);
      outcome := Buffered;
    }

    method RecordDelivery(sequence: nat)
      modifies this`lastSent, this`lastAcknowledged
      ensures Model() == MarkDelivery(old(Model()), sequence)
    {
      lastSent := Max(lastSent, sequence);
      lastAcknowledged := Max(lastAcknowledged, sequence);
    }

    /** `response` is how the request ends if one is made. */
    method SubmitStates(states: seq<StatePoint>, stamp: Stamp, response: Response) returns (outcome: SubmitOutcome)
      requires Valid()
      modifies this`counters, this`lastSent, this`lastAcknowledged, buffer, batcher
      ensures Valid() && (Model(), outcome) == Submit(cfg, old(Model()), states, stamp, response)
    {
      if states == [] {
        return NothingToSend;
      }
      var built := batcher.Build(states, stamp);
      if built.None? {
        return InvalidBatch;
      }
      var payload := built.value;
      if |buffer.files| > 0 {
        outcome := EnqueuePayload(payload);
      } else if response == Acknowledged {
        RecordDelivery(payload.sequence);
        counters := counters.(sent := counters.sent + 1);
        outcome := Sent;
      } else if !Transient(response) {
        buffer.RejectBatch(payload);
        counters := counters.(rejections := counters.rejections + 1);
        outcome := RejectedPermanently;
      } else {
        outcome := EnqueuePayload(payload);
      }
    }

    /** One answered request of a flush. */
    method SettleHead(b: Batch, response: Response, later: real, jitter: real)
      requires Valid() && buffer.files != [] && buffer.files[0].sequence == b.sequence
      modifies this`counters, this`lastSent, this`lastAcknowledged, this`retryDelay, this`nextRetryAt, buffer
      ensures Valid() && Model() == AfterFlushed(cfg, old(Model()), b, response, later, jitter)
    {
      PopHead(buffer.files);
      if response == Acknowledged {
        buffer.PopBatch(b.sequence);
        RecordDelivery(b.sequence);
        retryDelay := cfg.retryBase;
        nextRetryAt := 0.0;
      } else if !Transient(response) {
        buffer.RejectBatch(b);
        buffer.PopBatch(b.sequence);
        counters := counters.(rejections := counters.rejections + 1);
      } else {
        var scheduledDelay := RealMin(retryDelay, cfg.retryMax);
        nextRetryAt := later + scheduledDelay + jitter;
        retryDelay := RealMin(retryDelay * 2.0, cfg.retryMax);
        counters := counters.(retries := counters.retries + 1);
      }
    }

    method FlushBuffer(now: real, net: nat -> Response, later: real, jitter: real) returns (delivered: nat)
      requires Valid()
      modifies this`counters, this`lastSent, this`lastAcknowledged, this`retryDelay, this`nextRetryAt, buffer
      ensures Valid() && (Model(), delivered) == Flush(cfg, old(Model()), now, net, later, jitter)
    {
      if now < nextRetryAt {
        return 0;
      }
      delivered := 0;
      var i := 0;
      ghost var (goal, total) := FlushLoop(cfg, Model(), net, 0, later, jitter);
      while true
        invariant Valid()
        invariant var (after, rest) := FlushLoop(cfg, Model(), net, i, later, jitter); after == goal && delivered + rest == total
        decreases |buffer.files|
      {
        AnsweredHeadLeaves(buffer.Model());
        var item := buffer.PeekBatch();
        if item == None {
          return;
        }
        SettleHead(item.value, net(i), later, jitter);
        if Transient(net(i)) {
          return;
        }
        if net(i) == Acknowledged {
          delivered := delivered + 1;
        }
        i := i + 1;
      }
    }

    /** Puts drained states back at the left end of the bounded deque, last one first. */
    method Restore(states: seq<StatePoint>)
      requires |pending| <= PendingLimit(cfg)
      modifies this`pending
      ensures pending == PutBack(states, old(pending), PendingLimit(cfg))
    {
      var limit := PendingLimit(cfg);
      var i := |states|;
      assert states[i..] + pending == pending;
      while i > 0
        invariant 0 <= i <= |states|
        invariant pending == PutBack(states[i..], old(pending), limit)
      {
        i := i - 1;
        assert [states[i]] + states[i + 1..] == states[i..];
        AppendLeft(states[i], states[i + 1..], old(pending), limit);
        var longer := [states[i]] + pending;
        pending := if |longer| > limit then longer[..limit] else longer;
      }
      assert states[0..] == states;
    }

    method DrainOnce(round: Round) returns (outcome: SubmitOutcome)
      requires Valid() && pending != []
      modifies this, buffer, batcher
      ensures Valid() && (Model(), outcome) == DrainRound(cfg, old(Model()), round)
    {
      RoundKeepsRestPending(cfg, Model(), round);
      var count := Min(cfg.batchSize, |pending|);
      var states := pending[..count];
      pending := pending[count..];
      outcome := SubmitStates(states, Riding(round.stamp), round.response);
      if outcome == BufferFull {
        Restore(states);
      } else {
        pendingSince := if pending != [] then Some(round.after) else None;
      }
    }

    method DrainPending(force: bool, rounds: nat -> Round)
      requires Valid()
      modifies this, buffer, batcher
      ensures Valid() && Model() == Drain(cfg, old(Model()), force, rounds, 0)
    {
      var i := 0;
      ghost var goal := Drain(cfg, Model(), force, rounds, 0);
      while pending != []
        invariant Valid() && Drain(cfg, Model(), force, rounds, i) == goal
        decreases |pending|
      {
        var readyBySize := |pending| >= cfg.batchSize;
        var readyByTime := pendingSince.Some? && rounds(i).now - pendingSince.value >= cfg.batchInterval;
        if !force && !(readyBySize || readyByTime) {
          return;
        }
        RoundKeepsRestPending(cfg, Model(), rounds(i));
        var outcome := DrainOnce(rounds(i));
        if outcome == BufferFull {
          return;
        }
        i := i + 1;
      }
    }
  }

  lemma {:induction false} AppendLeft(s: StatePoint, states: seq<StatePoint>, pending: seq<StatePoint>, limit: nat)
    requires |pending| <= limit
    ensures
      var longer := [s] + PutBack(states, pending, limit);
      PutBack([s] + states, pending, limit) == if |longer| > limit then longer[..limit] else longer
  {
    assert [s] + states + pending == [s] + (states + pending);
  }
}
