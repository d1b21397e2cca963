/** Conservation of batches over every run of the delivery protocol: one fate per sequence number,
    matching the disk, the counters and central's commits. */
module DeliveryFates {
  import opened Prelude
  import opened Telemetry
  import opened DiskBuffer
  import opened SensorAgents
  import opened CentralRuns
  import opened Delivery
  import opened DeliverySafety

  // ---- Counting fates ----

  function Having(fate: map<nat, Fate>, f: Fate): set<nat> {
    set n | n in fate && fate[n] == f
  }

  lemma {:induction false} MarkingAddsNames(fate: map<nat, Fate>, names: set<nat>, f: Fate)
    requires names <= fate.Keys && forall n :: n in names ==> fate[n] != f
    ensures |Having(Mark(fate, names, f), f)| == |Having(fate, f)| + |names|
    ensures forall g :: g != f && (forall n :: n in names ==> fate[n] != g) ==>
                     Having(Mark(fate, names, f), g) == Having(fate, g)
  {
    assert Having(Mark(fate, names, f), f) == Having(fate, f) + names;
  }

  lemma {:induction false} NameOfOne(file: Entry)
    ensures Names([file]) == {file.sequence}
  {
    assert [file][0].sequence == file.sequence;
  }

  lemma {:induction false} NamesOfConcat(left: seq<Entry>, right: seq<Entry>)
    ensures Names(left + right) == Names(left) + Names(right)
  {
    var all := left + right;
    forall n
      ensures n in Names(all) <==> n in Names(left) || n in Names(right)
    {
      if n in Names(left) {
        var i :| 0 <= i < |left| && left[i].sequence == n;
        assert all[i].sequence == n;
      }
      if n in Names(right) {
        var i :| 0 <= i < |right| && right[i].sequence == n;
        assert all[|left| + i].sequence == n;
      }
    }
  }

  lemma {:induction false} OlderNamesAreSmaller(files: seq<Entry>, bound: nat)
    requires forall i :: 0 <= i < |files| ==> files[i].sequence < bound
    ensures forall n :: n in Names(files) ==> n < bound
  {
  }

  lemma {:induction false} NewerNamesAreLarger(files: seq<Entry>, bound: nat)
    requires forall i :: 0 <= i < |files| ==> bound <= files[i].sequence
    ensures forall n :: n in Names(files) ==> bound <= n
  {
  }

  lemma {:induction false} NamesAreDistinct(files: seq<Entry>)
    requires Ordered(files)
    ensures |Names(files)| == |files|
  {
    if files != [] {
      NamesAreDistinct(Front(files));
      FrontAndLast(files);
      NamesOfConcat(Front(files), [Last(files)]);
      NameOfOne(Last(files));
      OlderNamesAreSmaller(Front(files), Last(files).sequence);
    }
  }

  lemma {:induction false} NamesOfPartsAreApart(files: seq<Entry>, k: nat)
    requires Ordered(files) && k <= |files|
    ensures Names(files[..k]) !! Names(files[k..])
  {
    if k < |files| {
      OlderNamesAreSmaller(files[..k], files[k].sequence);
      NewerNamesAreLarger(files[k..], files[k].sequence);
    }
  }

  /** Splitting an ordered listing splits its names. */
  lemma {:induction false} NamesOfParts(files: seq<Entry>, k: nat)
    requires Ordered(files) && k <= |files|
    ensures Names(files) == Names(files[..k]) + Names(files[k..])
    ensures Names(files[..k]) !! Names(files[k..])
    ensures |Names(files[..k])| == k
  {
    NamesOfPartsAreApart(files, k);
    NamesAreDistinct(files[..k]);
    NamesOfSplit(files, k);
  }

  lemma {:induction false} NamesOfSplit(files: seq<Entry>, k: nat)
    requires k <= |files|
    ensures Names(files) == Names(files[..k]) + Names(files[k..])
  {
    NamesOfConcat(files[..k], files[k..]);
    assert files[..k] + files[k..] == files;
  }

  // ---- One fate per number ----

  ghost predicate AllCommitted(numbers: set<nat>, built: seq<Batch>, ever: seq<Batch>) {
    forall n :: n in numbers ==> 1 <= n <= |built| && built[n - 1] in ever
  }

  /** Every number below the next one has exactly one fate; queued numbers are the files on disk,
      the number in flight is the unsettled batch, refused numbers are those recorded
      as rejected, and delivered batches are committed at central. */
  ghost predicate FatesMatch(fate: map<nat, Fate>, built: seq<Batch>, disk: Disk, wait: Waiting, ever: seq<Batch>) {
    && (forall n :: n in fate <==> 1 <= n <= |built|)
    && Having(fate, Queued) == Names(disk.files)
    && Having(fate, InFlight) == (if Unsettled(wait) then {wait.b.sequence} else {})
    && Having(fate, Refused) == disk.rejected
    && AllCommitted(Having(fate, Delivered), built, ever)
  }

  /** Evictions and quarantines are counted exactly, across agent restarts. */
  ghost predicate CountsMatch(s: System) {
    && |Having(s.fate, Evicted)| == s.pastEvicted + s.agent.disk.droppedBatches
    && |Having(s.fate, Quarantined)| == s.pastQuarantined + s.agent.disk.corruptBatches
  }

  ghost predicate Fated(s: System) {
    && FatesMatch(s.fate, s.built, s.agent.disk, s.wait, s.trail.ever)
    && CountsMatch(s)
  }

  /** The number in flight gets another fate. */
  lemma {:induction false} SettlingNewest(fate: map<nat, Fate>, n: nat, f: Fate)
    requires n in fate && fate[n] == InFlight && f != InFlight
    ensures fate[n := f].Keys == fate.Keys
    ensures forall g :: g != f && g != InFlight ==> Having(fate[n := f], g) == Having(fate, g)
    ensures Having(fate[n := f], f) == Having(fate, f) + {n}
    ensures Having(fate[n := f], InFlight) == Having(fate, InFlight) - {n}
  {
  }

  /** The oldest files leave the queue with fate `f`. */
  lemma {:induction false} OldestLeave(fate: map<nat, Fate>, files: seq<Entry>, k: nat, f: Fate)
    requires Ordered(files) && k <= |files| && Having(fate, Queued) == Names(files) && f != Queued
    ensures
      var after := Mark(fate, Names(files[..k]), f);
      && after.Keys == fate.Keys
      && Having(after, Queued) == Names(files[k..])
      && |Having(after, f)| == |Having(fate, f)| + k
      && (forall g :: g != f && g != Queued ==> Having(after, g) == Having(fate, g))
  {
    var gone := Names(files[..k]);
    NamesOfParts(files, k);
    assert gone <= Having(fate, Queued);
    MarkingAddsNames(fate, gone, f);
    assert Having(Mark(fate, gone, f), Queued) == Having(fate, Queued) - gone;
  }

  lemma {:induction false} NamesWithNewest(files: seq<Entry>, k: nat, b: Batch)
    requires k <= |files|
    ensures Names(files[k..] + [FileOf(b)]) == Names(files[k..]) + {b.sequence}
  {
    NamesOfConcat(files[k..], [FileOf(b)]);
    NameOfOne(FileOf(b));
  }

  /** What the fates say before the batch `b` in flight is settled. */
  ghost predicate Awaits(fate: map<nat, Fate>, built: seq<Batch>, disk: Disk, ever: seq<Batch>, b: Batch) {
    && FatesMatch(fate, built, disk, Holding(b), ever)
    && built != [] && b == Last(built) && b.sequence == |built|
  }

  lemma {:induction false} InFlightHasFate(fate: map<nat, Fate>, n: nat)
    requires Having(fate, InFlight) == {n}
    ensures n in fate && fate[n] == InFlight
  {
    assert n in Having(fate, InFlight);
  }

  /** The newest number ends somewhere other than the queue. */
  lemma {:induction false} NewestIsSettled(fate: map<nat, Fate>, built: seq<Batch>, disk: Disk, ever: seq<Batch>,
                                           b: Batch, f: Fate, after: Disk)
    requires Awaits(fate, built, disk, ever, b)
    requires f != InFlight && f != Queued && f != Evicted && f != Quarantined
    requires f == Delivered ==> b in ever
    requires after.files == disk.files
    requires after.rejected == if f == Refused then disk.rejected + {b.sequence} else disk.rejected
    ensures FatesMatch(fate[b.sequence := f], built, after, Idle, ever)
    ensures Having(fate[b.sequence := f], Evicted) == Having(fate, Evicted)
    ensures Having(fate[b.sequence := f], Quarantined) == Having(fate, Quarantined)
  {
    InFlightHasFate(fate, b.sequence);
    SettlingNewest(fate, b.sequence, f);
  }

  lemma {:induction false} EvictionKeepsAwaiting(fate: map<nat, Fate>, built: seq<Batch>, disk: Disk, ever: seq<Batch>,
                                                 b: Batch, k: nat)
    requires Awaits(fate, built, disk, ever, b) && Ordered(disk.files) && k <= |disk.files|
    ensures
      var marked := Mark(fate, Names(disk.files[..k]), Evicted);
      && Awaits(marked, built, disk.(files := disk.files[k..]), ever, b)
      && |Having(marked, Evicted)| == |Having(fate, Evicted)| + k
      && Having(marked, Quarantined) == Having(fate, Quarantined)
  {
    OldestLeave(fate, disk.files, k, Evicted);
  }

  lemma {:induction false} NewestJoinsQueue(fate: map<nat, Fate>, built: seq<Batch>, disk: Disk, ever: seq<Batch>,
                                            b: Batch, after: Disk)
    requires Awaits(fate, built, disk, ever, b)
    requires after.files == disk.files + [FileOf(b)] && after.rejected == disk.rejected
    ensures FatesMatch(fate[b.sequence := Queued], built, after, Idle, ever)
    ensures Having(fate[b.sequence := Queued], Evicted) == Having(fate, Evicted)
    ensures Having(fate[b.sequence := Queued], Quarantined) == Having(fate, Quarantined)
  {
    InFlightHasFate(fate, b.sequence);
    SettlingNewest(fate, b.sequence, Queued);
    assert disk.files[0..] == disk.files;
    NamesWithNewest(disk.files, 0, b);
  }

  /** The newest number is queued, with the `k` oldest files evicted to make room. */
  lemma {:induction false} NewestIsQueued(fate: map<nat, Fate>, built: seq<Batch>, disk: Disk, ever: seq<Batch>,
                                          b: Batch, k: nat, after: Disk)
    requires Awaits(fate, built, disk, ever, b) && Ordered(disk.files) && k <= |disk.files|
    requires after.files == disk.files[k..] + [FileOf(b)] && after.rejected == disk.rejected
    ensures
      var queued := Mark(fate, Names(disk.files[..k]), Evicted)[b.sequence := Queued];
      && FatesMatch(queued, built, after, Idle, ever)
      && |Having(queued, Evicted)| == |Having(fate, Evicted)| + k
      && Having(queued, Quarantined) == Having(fate, Quarantined)
  {
    EvictionKeepsAwaiting(fate, built, disk, ever, b, k);
    NewestJoinsQueue(Mark(fate, Names(disk.files[..k]), Evicted), built, disk.(files := disk.files[k..]), ever, b, after);
  }

  // Each action keeps the fates.

  lemma {:induction false} CommitsStay(numbers: set<nat>, built: seq<Batch>, longer: seq<Batch>, ever: seq<Batch>,
                                       more: seq<Batch>)
    requires AllCommitted(numbers, built, ever)
    requires |built| <= |longer| && longer[..|built|] == built
    requires forall b :: b in ever ==> b in more
    ensures AllCommitted(numbers, longer, more)
  {
    forall n | n in numbers
      ensures 1 <= n <= |longer| && longer[n - 1] in more
    {
      assert built[n - 1] == longer[..|built|][n - 1];
    }
  }

  /** A new number is in flight. */
  lemma {:induction false} NumberingMatches(fate: map<nat, Fate>, built: seq<Batch>, disk: Disk, ever: seq<Batch>, b: Batch)
    requires FatesMatch(fate, built, disk, Idle, ever) && b.sequence == |built| + 1
    ensures FatesMatch(fate[b.sequence := InFlight], built + [b], disk, Holding(b), ever)
    ensures forall g :: g != InFlight ==> Having(fate[b.sequence := InFlight], g) == Having(fate, g)
  {
    var next := fate[b.sequence := InFlight];
    assert forall g :: g != InFlight ==> Having(next, g) == Having(fate, g);
    assert (built + [b])[..|built|] == built;
    CommitsStay(Having(fate, Delivered), built, built + [b], ever, ever);
  }

  lemma {:induction false} BeginSubmitKeepsFates(w: World, s: System, stamp: Stamp)
    requires Core(w, s) && Fated(s)
    ensures Fated(DoBeginSubmit(w, s, stamp))
  {
    if s.wait.Idle? && s.agent.pending != [] {
      NumberingMatches(s.fate, s.built, s.agent.disk, s.trail.ever, Last(DoBeginSubmit(w, s, stamp).built));
    }
  }

  lemma {:induction false} UnsettledAwaits(w: World, s: System)
    requires Core(w, s) && Unsettled(s.wait) && Fated(s)
    ensures Awaits(s.fate, s.built, s.agent.disk, s.trail.ever, s.wait.b)
  {
    UnsettledIsNewest(w, s);
  }

  lemma {:induction false} GivingUpKeepsFates(w: World, s: System, next: System)
    requires Core(w, s) && Fated(s) && Unsettled(s.wait) && SameOutside(s, next) && GivenUp(w, s, next, s.wait.b)
    ensures Fated(next)
  {
    UnsettledAwaits(w, s);
    NewestIsSettled(s.fate, s.built, s.agent.disk, s.trail.ever, s.wait.b, Abandoned, next.agent.disk);
  }

  lemma {:induction false} QueueingKeepsFates(w: World, s: System, next: System, k: nat)
    requires Core(w, s) && Fated(s) && Unsettled(s.wait) && SameOutside(s, next) && QueuedBehind(s, next, s.wait.b, k)
    ensures Fated(next)
  {
    UnsettledAwaits(w, s);
    NewestIsQueued(s.fate, s.built, s.agent.disk, s.trail.ever, s.wait.b, k, next.agent.disk);
  }

  lemma {:induction false} ConcludedKeepsFates(w: World, s: System, next: System, full: bool)
    requires Core(w, s) && Fated(s) && Unsettled(s.wait) && Concluded(w, s, next, s.wait.b, full)
    ensures Fated(next)
  {
    if full {
      GivingUpKeepsFates(w, s, next);
    } else {
      QueueingKeepsFates(w, s, next, |s.agent.disk.files| + 1 - |next.agent.disk.files|);
    }
  }

  lemma {:induction false} ConcludingQueueKeepsFates(w: World, s: System, after: real)
    requires Validated(w.cfg) && Core(w, s) && Fated(s) && Unsettled(s.wait)
    ensures Fated(Conclude(w, s, s.wait.b, QueueBatch(w.cfg, s.agent, s.wait.b), after))
  {
    UnsettledIsNewest(w, s);
    ConcludingQueue(w, s, s.wait.b, Front(s.built), after);
    var result := QueueBatch(w.cfg, s.agent, s.wait.b);
    ConcludedKeepsFates(w, s, Conclude(w, s, s.wait.b, result, after), result.1 == BufferFull);
  }

  lemma {:induction false} DispatchKeepsFates(w: World, s: System, after: real)
    requires Validated(w.cfg) && Core(w, s) && Fated(s)
    ensures Fated(DoDispatch(w, s, after))
  {
    if s.wait.Holding? && s.agent.disk.files != [] {
      ConcludingQueueKeepsFates(w, s, after);
    }
  }

  lemma {:induction false} AnsweredDirectKeepsFates(w: World, s: System, r: Response, after: real)
    requires Core(w, s) && Fated(s) && s.wait.Direct? && !Transient(r)
    requires r == Acknowledged ==> s.wait.b in s.trail.ever
    ensures Fated(Conclude(w, s, s.wait.b, AfterDirect(w.cfg, s.agent, s.wait.b, r), after))
  {
    UnsettledAwaits(w, s);
    var next := Conclude(w, s, s.wait.b, AfterDirect(w.cfg, s.agent, s.wait.b, r), after);
    NewestIsSettled(s.fate, s.built, s.agent.disk, s.trail.ever, s.wait.b,
                    if r == Acknowledged then Delivered else Refused, next.agent.disk);
  }

  lemma {:induction false} ResumeDirectKeepsFates(w: World, s: System, r: Response, later: real, jitter: real, after: real)
    requires Ready(w) && Core(w, s) && CentralSide(w, s) && Fated(s) && s.wait.Direct?
    ensures Fated(DoResume(w, s, r, later, jitter, after))
  {
    if MayReport(s.wait.reply, r) {
      if Transient(r) {
        ConcludingQueueKeepsFates(w, s, after);
      } else {
        AnsweredDirectKeepsFates(w, s, r, after);
      }
    }
  }

  /** The head of the queue leaves it, delivered or refused. */
  lemma {:induction false} HeadLeaves(fate: map<nat, Fate>, files: seq<Entry>, n: nat, f: Fate)
    requires Ordered(files) && files != [] && n == files[0].sequence
    requires Having(fate, Queued) == Names(files) && f != Queued
    ensures n in fate && fate[n] == Queued
    ensures fate[n := f].Keys == fate.Keys
    ensures Having(fate[n := f], Queued) == Names(files[1..])
    ensures Having(fate[n := f], f) == Having(fate, f) + {n}
    ensures forall g :: g != f && g != Queued ==> Having(fate[n := f], g) == Having(fate, g)
  {
    NamesOfParts(files, 1);
    NameOfOne(files[0]);
    assert files[..1] == [files[0]];
    assert n in Having(fate, Queued);
    QueuedOneMoves(fate, n, f);
  }

  lemma {:induction false} QueuedOneMoves(fate: map<nat, Fate>, n: nat, f: Fate)
    requires n in fate && fate[n] == Queued && f != Queued
    ensures fate[n := f].Keys == fate.Keys
    ensures Having(fate[n := f], Queued) == Having(fate, Queued) - {n}
    ensures Having(fate[n := f], f) == Having(fate, f) + {n}
    ensures forall g :: g != f && g != Queued ==> Having(fate[n := f], g) == Having(fate, g)
  {
  }

  lemma {:induction false} FlushedHeadIsSettled(w: World, s: System, next: System, f: Fate)
    requires Core(w, s) && Fated(s) && s.wait.Flushing? && next.trail == s.trail && next.built == s.built
    requires next.pastEvicted == s.pastEvicted && next.pastQuarantined == s.pastQuarantined
    requires next.wait == Idle && next.fate == s.fate[s.wait.b.sequence := f]
    requires next.agent.disk.files == s.agent.disk.files[1..]
    requires next.agent.disk.droppedBatches == s.agent.disk.droppedBatches
    requires next.agent.disk.corruptBatches == s.agent.disk.corruptBatches
    requires (f == Delivered && s.wait.b in s.trail.ever && next.agent.disk.rejected == s.agent.disk.rejected)
          || (f == Refused && next.agent.disk.rejected == s.agent.disk.rejected + {s.wait.b.sequence})
    ensures Fated(next)
  {
    HeadLeaves(s.fate, s.agent.disk.files, s.wait.b.sequence, f);
    assert IsBuilt(s.built, s.wait.b);
  }

  lemma {:induction false} ResumeFlushingKeepsFates(w: World, s: System, r: Response, later: real, jitter: real, after: real)
    requires Ready(w) && Core(w, s) && CentralSide(w, s) && Fated(s) && s.wait.Flushing?
    ensures Fated(DoResume(w, s, r, later, jitter, after))
  {
    if MayReport(s.wait.reply, r) {
      PopHead(s.agent.disk.files);
      var next := DoResume(w, s, r, later, jitter, after);
      if r == Acknowledged {
        FlushedHeadIsSettled(w, s, next, Delivered);
      } else if !Transient(r) {
        FlushedHeadIsSettled(w, s, next, Refused);
      }
    }
  }

  lemma {:induction false} QuarantiningKeepsFates(fate: map<nat, Fate>, built: seq<Batch>, disk: Disk, ever: seq<Batch>,
                                                  k: nat, after: Disk, wait: Waiting)
    requires FatesMatch(fate, built, disk, Idle, ever) && Ordered(disk.files) && k <= |disk.files|
    requires after.files == disk.files[k..] && after.rejected == disk.rejected && !Unsettled(wait)
    ensures
      var next := Mark(fate, Names(disk.files[..k]), Quarantined);
      && FatesMatch(next, built, after, wait, ever)
      && |Having(next, Quarantined)| == |Having(fate, Quarantined)| + k
      && Having(next, Evicted) == Having(fate, Evicted)
  {
    OldestLeave(fate, disk.files, k, Quarantined);
  }

  /** What the start of a flush does to the numbers, the requests and the disk. */
  lemma {:induction false} BeginFlushSends(w: World, s: System)
    requires s.wait.Idle?
    ensures
      var (seen, head) := Peek(s.agent.disk);
      var next, k := DoBeginFlush(w, s), |s.agent.disk.files| - |seen.files|;
      && k >= 0 && next.fate == Mark(s.fate, Names(s.agent.disk.files[..k]), Quarantined)
      && next.agent.disk == seen && !Unsettled(next.wait)
      && next.log == s.log && next.built == s.built
      && next.sent == (if head.Some? then s.sent + {head.value} else s.sent)
      && next.trail == s.trail && next.pastEvicted == s.pastEvicted && next.pastQuarantined == s.pastQuarantined
  {
    PeekShowsFirstReadable(s.agent.disk);
    var k := |s.agent.disk.files| - |Peek(s.agent.disk).0.files|;
    assert Max(0, k) == k;
    assert DoBeginFlush(w, s).fate == Mark(s.fate, Names(s.agent.disk.files[..k]), Quarantined);
  }

  lemma {:induction false} SeenKeepsFates(w: World, s: System, next: System, k: nat)
    requires Core(w, s) && Fated(s) && s.wait.Idle? && k <= |s.agent.disk.files|
    requires next.fate == Mark(s.fate, Names(s.agent.disk.files[..k]), Quarantined) && !Unsettled(next.wait)
    requires next.agent.disk == s.agent.disk.(files := s.agent.disk.files[k..], corruptBatches := s.agent.disk.corruptBatches + k)
    requires next.built == s.built && next.trail == s.trail
    requires next.pastEvicted == s.pastEvicted && next.pastQuarantined == s.pastQuarantined
    ensures Fated(next)
  {
    QuarantiningKeepsFates(s.fate, s.built, s.agent.disk, s.trail.ever, k, next.agent.disk, next.wait);
  }

  lemma {:induction false} BeginFlushKeepsFates(w: World, s: System)
    requires Core(w, s) && Fated(s)
    ensures Fated(DoBeginFlush(w, s))
  {
    if s.wait.Idle? {
      PeekShowsFirstReadable(s.agent.disk);
      BeginFlushSends(w, s);
      SeenKeepsFates(w, s, DoBeginFlush(w, s), |s.agent.disk.files| - |Peek(s.agent.disk).0.files|);
    }
  }

  lemma {:induction false} CrashKeepsFates(w: World, s: System)
    requires Core(w, s) && Fated(s)
    ensures Fated(DoCrash(w, s))
  {
    if Unsettled(s.wait) {
      UnsettledAwaits(w, s);
      NewestIsSettled(s.fate, s.built, s.agent.disk, s.trail.ever, s.wait.b, LostAtCrash, s.agent.disk);
    }
  }

  lemma {:induction false} CorruptionKeepsFates(s: System, i: nat, bytes: nat)
    requires Fated(s)
    ensures Fated(DoCorruptFile(s, i, bytes))
  {
    var files := s.agent.disk.files;
    if i < |files| {
      var changed := files[i := Entry(files[i].sequence, bytes, None)];
      assert Names(changed) == Names(files) by {
        assert forall j :: 0 <= j < |files| ==> changed[j].sequence == files[j].sequence;
      }
    }
  }

  lemma {:induction false} CentralActionKeepsFates(w: World, s: System, e: Event)
    requires Ready(w) && CentralSide(w, s) && Fated(s)
    requires e.Deliver? && e.id == w.cfg.sensorId ==> e.batch in s.sent
    ensures Fated(s.(trail := Advance(w.settings, s.trail, e, w.cfg.sensorId)))
  {
    StepCommitsOnlySent(w.settings, s.trail, e, w.cfg.sensorId, s.sent);
    CommitsStay(Having(s.fate, Delivered), s.built, s.built, s.trail.ever,
                Advance(w.settings, s.trail, e, w.cfg.sensorId).ever);
  }

  lemma {:induction false} CentralKeepsFates(w: World, s: System, action: Action)
    requires Ready(w) && Core(w, s) && CentralSide(w, s) && Fated(s) && FromCentral(action)
    ensures Fated(Apply(w, s, action))
  {
    match action {
      case HandleLive(nowCheck, nowCommit) =>
        if Requesting(s.wait) && s.wait.reply.None? {
          LiveActionKeepsFates(w, s, nowCheck, nowCommit);
        }
      case HandleStale(copy, nowCheck, nowCommit) =>
        if copy in s.sent {
          CentralActionKeepsFates(w, s, Deliver(w.cfg.sensorId, copy, nowCheck, nowCommit));
        }
      case OtherTraffic(e) =>
        if !(e.Deliver? && e.id == w.cfg.sensorId) {
          CentralActionKeepsFates(w, s, e);
        }
    }
  }

  lemma {:induction false} LiveActionKeepsFates(w: World, s: System, nowCheck: int, nowCommit: int)
    requires Ready(w) && Core(w, s) && CentralSide(w, s) && Fated(s) && Requesting(s.wait)
    ensures Fated(DoHandleLive(w, s, nowCheck, nowCommit))
  {
    CentralActionKeepsFates(w, s, Deliver(w.cfg.sensorId, s.wait.b, nowCheck, nowCommit));
  }

  lemma {:induction false} ActionKeepsFates(w: World, s: System, action: Action)
    requires Ready(w) && Core(w, s) && CentralSide(w, s) && Fated(s)
    ensures Fated(Apply(w, s, action))
  {
    if FromCentral(action) {
      CentralKeepsFates(w, s, action);
    } else {
      match action {
        case BeginSubmit(stamp) => BeginSubmitKeepsFates(w, s, stamp);
        case Dispatch(after) => DispatchKeepsFates(w, s, after);
        case BeginFlush => BeginFlushKeepsFates(w, s);
        case Resume(r, later, jitter, after) =>
          if s.wait.Direct? {
            ResumeDirectKeepsFates(w, s, r, later, jitter, after);
          } else if s.wait.Flushing? {
            ResumeFlushingKeepsFates(w, s, r, later, jitter, after);
          }
        case Crash => CrashKeepsFates(w, s);
        case CorruptFile(i, bytes) => CorruptionKeepsFates(s, i, bytes);
        case Collect(_, _) =>
      }
    }
  }

  /** In every run, every sequence number given out has exactly one fate: the queued ones are the
      files on disk, the one in flight is the batch not settled yet, the refused ones are those
      recorded as rejected, the delivered ones are committed at central, and the evicted
      and quarantined ones are as many as the counters of all agent processes say. */
  lemma {:induction false} EveryNumberHasOneFate(w: World, actions: seq<Action>)
    requires Ready(w)
    ensures Fated(Run(w, actions))
    ensures forall n :: n in Run(w, actions).fate <==> 1 <= n < Run(w, actions).agent.nextSequence
  {
    RunIsSafe(w, actions);
    if actions == [] {
      assert Names([]) == {};
      assert forall f :: Having(map[], f) == {};
    } else {
      EveryNumberHasOneFate(w, Front(actions));
      RunIsSafe(w, Front(actions));
      ActionKeepsFates(w, Run(w, Front(actions)), Last(actions));
    }
  }
}
