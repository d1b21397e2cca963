/** The bounded, ordered, restart-safe queue of unsent envelopes (src/agent/buffer.py).

    The directory is modelled by its sorted listing: one entry per file, named after its
    sequence. BatchNames shows that the listing order is the order of sequences. */
module DiskBuffer {
  import opened Prelude
  import opened Telemetry

  /** A queued file. `body` is what reading it gives: nothing when the file is corrupt. */
  datatype Entry = Entry(sequence: nat, bytes: nat, body: Option<Batch>)

  datatype Policy = DropOldest | RejectNew

  datatype Limits = Limits(maxBatches: nat, maxBytes: nat, policy: Policy)

  datatype Disk = Disk(files: seq<Entry>, rejected: set<nat>,
                       droppedBatches: nat, droppedBytes: nat, corruptBatches: nat)

  const EMPTY_DISK: Disk := Disk([], {}, 0, 0, 0)

  datatype EnqueueOutcome = Stored | AlreadyQueued | Full | InvalidSequence

  function FileOf(b: Batch): Entry {
    Entry(b.sequence, b.encodedBytes, Some(b))
  }

  function Bytes(files: seq<Entry>): nat {
    if files == [] then 0 else files[0].bytes + Bytes(files[1..])
  }

  predicate HasFile(files: seq<Entry>, sequence: nat) {
    exists i :: 0 <= i < |files| && files[i].sequence == sequence
  }

  /** The listing is sorted and names are unique. */
  ghost predicate Ordered(files: seq<Entry>) {
    forall i, j :: 0 <= i < j < |files| ==> files[i].sequence < files[j].sequence
  }

  predicate HasSpace(limits: Limits, files: seq<Entry>, size: nat) {
    |files| < limits.maxBatches && Bytes(files) + size <= limits.maxBytes
  }

  function EvictOldest(disk: Disk): Disk {
    if disk.files == [] then disk
    else disk.(files := disk.files[1..],
               droppedBatches := disk.droppedBatches + 1,
               droppedBytes := disk.droppedBytes + disk.files[0].bytes)
  }

  /** The loop that makes room for `size` bytes; false when it gives up. */
  function MakeSpace(limits: Limits, disk: Disk, size: nat): (Disk, bool)
    decreases |disk.files|
  {
    if HasSpace(limits, disk.files, size) then (disk, true)
    else if limits.policy.RejectNew? || disk.files == [] then (disk, false)
    else MakeSpace(limits, EvictOldest(disk), size)
  }

  function Insert(files: seq<Entry>, file: Entry): seq<Entry> {
    if files == [] || file.sequence < files[0].sequence then [file] + files
    else [files[0]] + Insert(files[1..], file)
  }

  function Enqueue(limits: Limits, disk: Disk, b: Batch): (Disk, EnqueueOutcome) {
    if b.sequence < 1 then (disk, InvalidSequence)
    else if HasFile(disk.files, b.sequence) then (disk, AlreadyQueued)
    else if b.encodedBytes > limits.maxBytes then (disk, Full)
    else
      var (cleared, fits) := MakeSpace(limits, disk, b.encodedBytes);
      if fits then (cleared.(files := Insert(cleared.files, FileOf(b))), Stored) else (cleared, Full)
  }

  predicate Readable(file: Entry) {
    file.body.Some? && file.body.value.sequence >= 1
  }

  /** Quarantines unreadable files at the head, then shows the head without removing it. */
  function Peek(disk: Disk): (Disk, Option<Batch>)
    decreases |disk.files|
  {
    if disk.files == [] then (disk, None)
    else if Readable(disk.files[0]) then (disk, disk.files[0].body)
    else Peek(disk.(files := disk.files[1..], corruptBatches := disk.corruptBatches + 1))
  }

  function Without(files: seq<Entry>, sequence: nat): seq<Entry> {
    if files == [] then []
    else if files[0].sequence == sequence then files[1..]
    else [files[0]] + Without(files[1..], sequence)
  }

  function Pop(disk: Disk, sequence: nat): Disk {
    disk.(files := Without(disk.files, sequence))
  }

  function Reject(disk: Disk, sequence: nat): Disk {
    disk.(rejected := disk.rejected + {sequence})
  }

  /** A new process finds the files and the rejection records, and counts from zero. */
  function Reopen(disk: Disk): Disk {
    Disk(disk.files, disk.rejected, 0, 0, 0)
  }

  // ---- Order and accounting ----

  lemma {:induction false} SuffixIsOrdered(files: seq<Entry>, k: nat)
    requires Ordered(files) && k <= |files|
    ensures Ordered(files[k..])
  {
  }

  /** Inserting adds exactly one file. */
  lemma {:induction false} InsertAddsOne(files: seq<Entry>, file: Entry)
    ensures multiset(Insert(files, file)) == multiset(files) + multiset{file}
    ensures |Insert(files, file)| == |files| + 1
    decreases |files|
  {
    if files != [] && file.sequence >= files[0].sequence {
      InsertAddsOne(files[1..], file);
      assert files == [files[0]] + files[1..];
    }
  }

  lemma {:induction false} BytesOfFirst(file: Entry, files: seq<Entry>)
    ensures Bytes([file] + files) == file.bytes + Bytes(files)
  {
    assert ([file] + files)[1..] == files;
  }

  /** And its bytes. */
  lemma {:induction false} InsertAddsBytes(files: seq<Entry>, file: Entry)
    ensures Bytes(Insert(files, file)) == Bytes(files) + file.bytes
    decreases |files|
  {
    if files == [] || file.sequence < files[0].sequence {
      BytesOfFirst(file, files);
    } else {
      InsertAddsBytes(files[1..], file);
      BytesOfFirst(files[0], Insert(files[1..], file));
    }
  }

  /** Inserting a new name keeps the listing sorted. */
  lemma {:induction false} InsertKeepsOrder(files: seq<Entry>, file: Entry)
    requires Ordered(files) && !HasFile(files, file.sequence)
    ensures Ordered(Insert(files, file))
    ensures forall i :: 0 <= i < |Insert(files, file)| ==> Insert(files, file)[i] in files || Insert(files, file)[i] == file
    decreases |files|
  {
    if files != [] && file.sequence >= files[0].sequence {
      SuffixHasNoNewFile(files, 1, file.sequence);
      InsertKeepsOrder(files[1..], file);
      var rest := Insert(files[1..], file);
      forall i | 0 <= i < |rest|
        ensures files[0].sequence < rest[i].sequence && (rest[i] in files || rest[i] == file)
      {
        assert rest[i] in files[1..] || rest[i] == file;
      }
    }
  }

  lemma {:induction false} InsertAtEnd(files: seq<Entry>, file: Entry)
    requires forall i :: 0 <= i < |files| ==> files[i].sequence < file.sequence
    ensures Insert(files, file) == files + [file]
    decreases |files|
  {
    if files != [] {
      InsertAtEnd(files[1..], file);
      assert files == [files[0]] + files[1..];
    }
  }

  /** Dropping one file and then `k - 1` more is dropping `k`. */
  lemma {:induction false} DropOneThenMore(files: seq<Entry>, k: nat)
    requires 1 <= k <= |files|
    ensures files[1..][k - 1..] == files[k..]
    ensures Bytes(files[..k]) == files[0].bytes + Bytes(files[1..][..k - 1])
  {
    assert files[..k][1..] == files[1..][..k - 1];
  }

  /** The disk without its `k` oldest files, which are counted. */
  function Evicted(disk: Disk, k: nat): Disk
    requires k <= |disk.files|
  {
    disk.(files := disk.files[k..], droppedBatches := disk.droppedBatches + k,
          droppedBytes := disk.droppedBytes + Bytes(disk.files[..k]))
  }

  lemma {:induction false} EvictOneThenMore(disk: Disk, k: nat)
    requires 1 <= k <= |disk.files|
    ensures Evicted(EvictOldest(disk), k - 1) == Evicted(disk, k)
  {
    DropOneThenMore(disk.files, k);
  }

  lemma {:induction false} EvictNone(disk: Disk)
    ensures Evicted(disk, 0) == disk
  {
    assert disk.files[0..] == disk.files && disk.files[..0] == [];
  }

  ghost predicate NoSpaceBefore(limits: Limits, files: seq<Entry>, k: nat, size: nat)
    requires k <= |files|
  {
    forall j {:trigger HasSpace(limits, files[j..], size)} :: 0 <= j < k ==> !HasSpace(limits, files[j..], size)
  }

  lemma {:induction false} StillNoSpace(limits: Limits, files: seq<Entry>, k: nat, size: nat)
    requires 1 <= k <= |files| && !HasSpace(limits, files, size)
    requires NoSpaceBefore(limits, files[1..], k - 1, size)
    ensures NoSpaceBefore(limits, files, k, size)
  {
    forall j | 0 <= j < k
      ensures !HasSpace(limits, files[j..], size)
    {
      if j == 0 {
        assert files[0..] == files;
      } else {
        assert files[j..] == files[1..][j - 1..];
      }
    }
  }

  /** Making room drops a prefix, the shortest that leaves enough room, and counts exactly
      what it drops; without DROP_OLDEST it drops nothing. */
  lemma {:induction false} MakeSpaceDropsShortestPrefix(limits: Limits, disk: Disk, size: nat)
    ensures
      var (cleared, fits) := MakeSpace(limits, disk, size);
      var k := |disk.files| - |cleared.files|;
      && k >= 0
      && cleared == Evicted(disk, k)
      && NoSpaceBefore(limits, disk.files, k, size)
      && (fits <==> HasSpace(limits, cleared.files, size))
      && (limits.policy.RejectNew? ==> k == 0)
      && (limits.policy.DropOldest? && !fits ==> cleared.files == [])
    decreases |disk.files|
  {
    var files := disk.files;
    if !HasSpace(limits, files, size) && limits.policy.DropOldest? && files != [] {
      MakeSpaceDropsShortestPrefix(limits, EvictOldest(disk), size);
      var k := |files| - |MakeSpace(limits, disk, size).0.files|;
      EvictOneThenMore(disk, k);
      StillNoSpace(limits, files, k, size);
    } else {
      EvictNone(disk);
    }
  }

  lemma {:induction false} StoringKeepsInvariant(files: seq<Entry>, k: nat, b: Batch)
    requires Ordered(files) && k <= |files| && !HasFile(files, b.sequence)
    ensures Ordered(Insert(files[k..], FileOf(b)))
    ensures Bytes(Insert(files[k..], FileOf(b))) == Bytes(files[k..]) + b.encodedBytes
  {
    SuffixHasNoNewFile(files, k, b.sequence);
    SuffixIsOrdered(files, k);
    InsertAddsBytes(files[k..], FileOf(b));
    InsertKeepsOrder(files[k..], FileOf(b));
  }

  /** The disk after `b` has been stored and the `k` oldest files have made room for it. */
  ghost predicate StoredAfter(limits: Limits, disk: Disk, after: Disk, b: Batch, k: int) {
    && 0 <= k <= |disk.files|
    && after == Evicted(disk, k).(files := Insert(disk.files[k..], FileOf(b)))
    && |after.files| == |disk.files| - k + 1
    && HasSpace(limits, disk.files[k..], b.encodedBytes)
    && NoSpaceBefore(limits, disk.files, k, b.encodedBytes)
  }

  lemma {:induction false} InsertingInCleared(limits: Limits, disk: Disk, cleared: Disk, b: Batch, k: nat)
    requires k <= |disk.files| && cleared == Evicted(disk, k)
    requires HasSpace(limits, cleared.files, b.encodedBytes) && NoSpaceBefore(limits, disk.files, k, b.encodedBytes)
    ensures StoredAfter(limits, disk, cleared.(files := Insert(cleared.files, FileOf(b))), b, k)
    ensures |Insert(cleared.files, FileOf(b))| == |cleared.files| + 1
  {
    InsertAddsOne(cleared.files, FileOf(b));
  }

  lemma {:induction false} EnqueueStoresAfter(limits: Limits, disk: Disk, b: Batch)
    requires Enqueue(limits, disk, b).1 == Stored
    ensures
      var after := Enqueue(limits, disk, b).0;
      StoredAfter(limits, disk, after, b, |disk.files| + 1 - |after.files|)
  {
    var cleared := MakeSpace(limits, disk, b.encodedBytes).0;
    MakeSpaceDropsShortestPrefix(limits, disk, b.encodedBytes);
    InsertingInCleared(limits, disk, cleared, b, |disk.files| - |cleared.files|);
  }

  lemma {:induction false} DropOldestStores(limits: Limits, disk: Disk, b: Batch)
    requires limits.policy.DropOldest? && limits.maxBatches > 0
    requires b.sequence >= 1 && !HasFile(disk.files, b.sequence) && b.encodedBytes <= limits.maxBytes
    ensures Enqueue(limits, disk, b).1 == Stored
  {
    MakeSpaceDropsShortestPrefix(limits, disk, b.encodedBytes);
    assert HasSpace(limits, [], b.encodedBytes);
  }

  /** Under DROP_OLDEST every new envelope within the byte limit is stored: the shortest oldest
      prefix that makes room goes, its files and bytes are counted, and the limits hold after. */
  lemma {:induction false} DropOldestAlwaysStores(limits: Limits, disk: Disk, b: Batch)
    requires limits.policy.DropOldest? && limits.maxBatches > 0
    requires Ordered(disk.files) && b.sequence >= 1 && !HasFile(disk.files, b.sequence)
    requires b.encodedBytes <= limits.maxBytes
    ensures
      var (after, outcome) := Enqueue(limits, disk, b);
      var k := |disk.files| + 1 - |after.files|;
      && outcome == Stored
      && 0 <= k <= |disk.files|
      && after.files == Insert(disk.files[k..], FileOf(b))
      && Ordered(after.files)
      && after.droppedBatches == disk.droppedBatches + k
      && after.droppedBytes == disk.droppedBytes + Bytes(disk.files[..k])
      && |after.files| <= limits.maxBatches
      && Bytes(after.files) <= limits.maxBytes
      && NoSpaceBefore(limits, disk.files, k, b.encodedBytes)
  {
    DropOldestStores(limits, disk, b);
    EnqueueStoresAfter(limits, disk, b);
    StoringKeepsInvariant(disk.files, |disk.files| + 1 - |Enqueue(limits, disk, b).0.files|, b);
  }

  lemma {:induction false} SuffixHasNoNewFile(files: seq<Entry>, k: nat, sequence: nat)
    requires k <= |files| && !HasFile(files, sequence)
    ensures !HasFile(files[k..], sequence)
  {
    forall i | 0 <= i < |files[k..]|
      ensures files[k..][i].sequence != sequence
    {
      assert files[k..][i] == files[k + i];
    }
  }

  /** Under REJECT_NEW a new envelope is stored exactly when it already has room, and a refusal
      leaves the queue as it was. */
  lemma {:induction false} RejectNewStoresExactlyWithSpace(limits: Limits, disk: Disk, b: Batch)
    requires limits.policy.RejectNew?
    requires b.sequence >= 1 && !HasFile(disk.files, b.sequence)
    ensures
      var (after, outcome) := Enqueue(limits, disk, b);
      if HasSpace(limits, disk.files, b.encodedBytes)
      then outcome == Stored && after == disk.(files := Insert(disk.files, FileOf(b)))
      else outcome == Full && after == disk
  {
  }

  /** An enqueue that fails never changed the queue, provided the limits are positive. */
  lemma {:induction false} FailedEnqueueChangesNothing(limits: Limits, disk: Disk, b: Batch)
    requires limits.maxBatches > 0
    ensures Enqueue(limits, disk, b).1 != Stored ==> Enqueue(limits, disk, b).0 == disk
    ensures disk.files == [] && b.sequence >= 1 ==>
              (Enqueue(limits, disk, b).1 == Full <==> b.encodedBytes > limits.maxBytes)
  {
    MakeSpaceDropsShortestPrefix(limits, disk, b.encodedBytes);
  }

  /** What Peek shows is the first readable file; all and only the unreadable files before it have
      left the queue. */
  lemma {:induction false} PeekShowsFirstReadable(disk: Disk)
    ensures
      var (after, head) := Peek(disk);
      var k := |disk.files| - |after.files|;
      && k >= 0
      && after == disk.(files := disk.files[k..], corruptBatches := disk.corruptBatches + k)
      && (forall i :: 0 <= i < k ==> !Readable(disk.files[i]))
      && (head.None? <==> after.files == [])
      && (head.Some? ==> Readable(after.files[0]) && after.files[0].body == head)
    decreases |disk.files|
  {
    if disk.files != [] && !Readable(disk.files[0]) {
      var rest := disk.(files := disk.files[1..], corruptBatches := disk.corruptBatches + 1);
      PeekShowsFirstReadable(rest);
      var k := |disk.files| - |Peek(disk).0.files|;
      assert disk.files[1..][k - 1..] == disk.files[k..];
      forall i | 0 <= i < k
        ensures !Readable(disk.files[i])
      {
        assert i > 0 ==> disk.files[i] == disk.files[1..][i - 1];
      }
    } else {
      assert disk.files[0..] == disk.files;
    }
  }

  /** What Peek shows is the readable file of smallest sequence, and none if no file is readable;
      all and only the unreadable files before it have left the queue. */
  lemma {:induction false} PeekShowsSmallestReadable(disk: Disk)
    requires Ordered(disk.files)
    ensures
      var (after, head) := Peek(disk);
      var k := |disk.files| - |after.files|;
      && k >= 0
      && after == disk.(files := disk.files[k..], corruptBatches := disk.corruptBatches + k)
      && (forall i :: 0 <= i < k ==> !Readable(disk.files[i]))
      && (head.None? <==> forall i :: 0 <= i < |disk.files| ==> !Readable(disk.files[i]))
      && (head.Some? ==>
            && after.files != [] && after.files[0].body == head && Readable(after.files[0])
            && forall i :: 0 <= i < |disk.files| && Readable(disk.files[i]) ==>
                 after.files[0].sequence <= disk.files[i].sequence)
  {
    PeekShowsFirstReadable(disk);
    var (after, head) := Peek(disk);
    var k := |disk.files| - |after.files|;
    if head.Some? {
      assert disk.files[k] == after.files[0];
    }
  }

  // ---- The buffer object ----

  class DiskTelemetryBuffer {
    const limits: Limits
    var files: seq<Entry>
    var rejected: set<nat>
    var droppedBatches: nat
    var droppedBytes: nat
    var corruptBatches: nat

    ghost function Model(): Disk
      reads this
    {
      Disk(files, rejected, droppedBatches, droppedBytes, corruptBatches)
    }

    constructor (limits: Limits, found: Disk)
      requires limits.maxBatches > 0 && limits.maxBytes > 0
      ensures this.limits == limits && Model() == Reopen(found)
    {
      this.limits := limits;
      files := found.files;
      rejected := found.rejected;
      droppedBatches, droppedBytes, corruptBatches := 0, 0, 0;
    }

    method SizeBytes() returns (total: nat)
      ensures total == Bytes(files)
    {
      total := 0;
      var i := |files|;
      while i > 0
        invariant 0 <= i <= |files| && total == Bytes(files[i..])
      {
        i := i - 1;
        assert files[i..][1..] == files[i + 1..];
        total := total + files[i].bytes;
      }
      assert files[0..] == files;
    }

    method EvictOldestFile()
      modifies this
      ensures Model() == EvictOldest(old(Model()))
    {
      if files != [] {
        var size := files[0].bytes;
        files := files[1..];
        droppedBatches := droppedBatches + 1;
        droppedBytes := droppedBytes + size;
      }
    }

    method EnqueueBatch(b: Batch) returns (outcome: EnqueueOutcome)
      modifies this
      ensures (Model(), outcome) == Enqueue(limits, old(Model()), b)
    {
      if b.sequence < 1 {
        return InvalidSequence;
      }
      if HasFile(files, b.sequence) {
        return AlreadyQueued;
      }
      if b.encodedBytes > limits.maxBytes {
        return Full;
      }
      var total := SizeBytes();
      while |files| >= limits.maxBatches || total + b.encodedBytes > limits.maxBytes
        invariant total == Bytes(files)
        invariant MakeSpace(limits, Model(), b.encodedBytes) == MakeSpace(limits, old(Model()), b.encodedBytes)
        decreases |files|
      {
        if limits.policy == RejectNew {
          return Full;
        }
        var before := |files|;
        EvictOldestFile();
        if |files| == before {
          return Full;
        }
        total := SizeBytes();
      }
      files := Insert(files, FileOf(b));
      outcome := Stored;
    }

    method PeekBatch() returns (head: Option<Batch>)
      modifies this
      ensures (Model(), head) == Peek(old(Model()))
    {
      while files != []
        invariant Peek(Model()) == Peek(old(Model()))
        decreases |files|
      {
        var item := files[0];
        if Readable(item) {
          return item.body;
        }
        files := files[1..];
        corruptBatches := corruptBatches + 1;
      }
      head := None;
    }

    method RejectBatch(b: Batch)
      modifies this
      ensures Model() == Reject(old(Model()), b.sequence)
    {
      rejected := rejected + {b.sequence};
    }

    method PopBatch(sequence: nat)
      modifies this
      ensures Model() == Pop(old(Model()), sequence)
    {
      files := Without(files, sequence);
    }
  }
}
