/** Source activity per fixed interval, in one batch and as a stream
    (src/streaming/source_activity.py). */
module SourceActivities {
  import opened Prelude
  import opened SortedLists
  import opened PacketEvents

  datatype GroupKey = GroupKey(start: int, ip: string, day: int)

  datatype Row = Row(key: GroupKey, end: int, flowCount: nat, packetCount: nat, byteCount: real,
                     uniqueDestinations: nat, uniquePorts: nat, meanSize: real, meanGap: real,
                     synCount: nat, ackCount: nat, rstCount: nat, packetRate: real, byteRate: real)

  datatype FeedError = Invalid(error: EventError) | NotChronological | IntervalBackwards

  // ---- Batch aggregation ----

  /** Rows are validated column by column, so the error is that of the first column that fails. */
  function ColumnError(raws: seq<RawEvent>): Option<EventError> {
    if exists i :: 0 <= i < |raws| && raws[i].timestamp.None? then Some(InvalidTimestamp)
    else if exists i :: 0 <= i < |raws| && (Blank(raws[i].sourceIp) || Blank(raws[i].destinationIp) || Blank(raws[i].protocol))
    then Some(MissingValue)
    else if exists i :: 0 <= i < |raws| && (!ValidPort(raws[i].sourcePort) || !ValidPort(raws[i].destinationPort))
    then Some(InvalidPort)
    else if exists i :: 0 <= i < |raws| && (raws[i].packetLength.None? || raws[i].packetLength.value < 0.0)
    then Some(InvalidLength)
    else None
  }

  function Packets(raws: seq<RawEvent>): seq<Packet> {
    if raws == [] then []
    else Packets(Front(raws)) + match Normalize(Last(raws)) case Ok(p) => [p] case Err(_) => []
  }

  function InsertByTime(packets: seq<Packet>, p: Packet): seq<Packet> {
    if packets == [] || Last(packets).timestamp <= p.timestamp then packets + [p]
    else InsertByTime(Front(packets), p) + [Last(packets)]
  }

  /** The stable sort by timestamp. */
  function SortByTime(packets: seq<Packet>): seq<Packet> {
    if packets == [] then [] else InsertByTime(SortByTime(Front(packets)), Last(packets))
  }

  function GroupOf(p: Packet, step: int): GroupKey
    requires step > 0
  {
    GroupKey(Floor(p.timestamp, step), p.source.ip, p.timestamp / DAY)
  }

  /** The order of the final table: interval, then address, then day. */
  predicate KeyBefore(a: GroupKey, b: GroupKey) {
    || a.start < b.start
    || (a.start == b.start && (Before(a.ip, b.ip) || (a.ip == b.ip && a.day < b.day)))
  }

  function PacketGroup(step: int): Packet -> GroupKey
    requires step > 0
  {
    (p: Packet) => GroupOf(p, step)
  }

  function KeysOf(packets: seq<Packet>, step: int): seq<GroupKey>
    requires step > 0
  {
    SortedKeys(packets, PacketGroup(step), KeyBefore)
  }

  function Flows(packets: seq<Packet>): set<Key> {
    set i | 0 <= i < |packets| :: KeyOf(packets[i])
  }

  function Destinations(packets: seq<Packet>): set<string> {
    set i | 0 <= i < |packets| :: packets[i].destination.ip
  }

  function DestinationPorts(packets: seq<Packet>): set<int> {
    set i | 0 <= i < |packets| :: packets[i].destination.port
  }

  function Diffs(packets: seq<Packet>): seq<int> {
    if |packets| <= 1 then []
    else Diffs(Front(packets)) + [Last(packets).timestamp - packets[|packets| - 2].timestamp]
  }

  function Flagged(packets: seq<Packet>, flag: string): nat {
    |Filter(packets, (p: Packet) => flag in p.flags)|
  }

  function Mean(total: real, count: nat): real {
    if count == 0 then 0.0 else total / count as real
  }

  /** The row of one group, from its packets in time order. */
  function RowOf(members: seq<Packet>, k: GroupKey, seconds: nat): Row
    requires seconds > 0
  {
    var bytes := RealSum(Map(members, (p: Packet) => p.length));
    Row(k, k.start + seconds * SECOND, |Flows(members)|, |members|, bytes,
        |Destinations(members)|, |DestinationPorts(members)|, Mean(bytes, |members|),
        Mean(Sum(Diffs(members)) as real / SECOND as real, |Diffs(members)|),
        Flagged(members, "SYN"), Flagged(members, "ACK"), Flagged(members, "RST"),
        |members| as real / seconds as real, bytes / seconds as real)
  }

  function InGroup(k: GroupKey, step: int): Packet -> bool
    requires step > 0
  {
    (p: Packet) => GroupOf(p, step) == k
  }

  function RowMaker(packets: seq<Packet>, seconds: nat): GroupKey -> Row
    requires seconds > 0
  {
    (k: GroupKey) => RowOf(Filter(packets, InGroup(k, seconds * SECOND)), k, seconds)
  }

  /** The table of packets in time order. */
  function TableOf(packets: seq<Packet>, seconds: nat): seq<Row>
    requires seconds > 0
  {
    Map(KeysOf(packets, seconds * SECOND), RowMaker(packets, seconds))
  }

  function Aggregate(raws: seq<RawEvent>, seconds: nat): Result<seq<Row>, EventError>
    requires seconds > 0
  {
    match ColumnError(raws)
    case Some(e) => Err(e)
    case None => Ok(TableOf(SortByTime(Packets(raws)), seconds))
  }

  // ---- The stream ----

  /** How a process happens to list a set of flags when it normalises them again. */
  type Listing = set<string> -> seq<string>

  ghost predicate Lists(listing: Listing) {
    forall s, w :: w in listing(s) <==> w in s
  }

  datatype Accumulator = Accumulator(bucket: Option<int>, events: seq<Packet>, last: Option<int>)

  function Stored(events: seq<Packet>, listing: Listing): seq<RawEvent> {
    Map(events, (p: Packet) => Renewed(p, listing(p.flags)))
  }

  /** The table of the stored events, which are normalised a second time on the way. */
  function Completed(events: seq<Packet>, seconds: nat, listing: Listing): Result<seq<Row>, EventError>
    requires seconds > 0
  {
    Aggregate(Stored(events, listing), seconds)
  }

  function Take(acc: Accumulator, p: Packet, seconds: nat, listing: Listing): Result<(Accumulator, seq<Row>), FeedError>
    requires seconds > 0
  {
    var bucket := Floor(p.timestamp, seconds * SECOND);
    if acc.last.Some? && p.timestamp < acc.last.value then Err(NotChronological)
    else if acc.bucket.None? || acc.bucket.value == bucket then
      Ok((Accumulator(Some(bucket), acc.events + [p], Some(p.timestamp)), []))
    else if bucket < acc.bucket.value then Err(IntervalBackwards)
    else
      match Completed(acc.events, seconds, listing)
      case Err(e) => Err(Invalid(e))
      case Ok(table) => Ok((Accumulator(Some(bucket), [p], Some(p.timestamp)), table))
  }

  function Feed(acc: Accumulator, raw: RawEvent, seconds: nat, listing: Listing): Result<(Accumulator, seq<Row>), FeedError>
    requires seconds > 0
  {
    match Normalize(raw)
    case Err(e) => Err(Invalid(e))
    case Ok(p) => Take(acc, p, seconds, listing)
  }

  function Flush(acc: Accumulator, seconds: nat, listing: Listing): Result<seq<Row>, EventError>
    requires seconds > 0
  {
    if acc.events == [] then Ok([]) else Completed(acc.events, seconds, listing)
  }

  /** A stream of events, refused ones included: what was emitted and what was accepted. */
  datatype Session = Session(acc: Accumulator, rows: seq<Row>, accepted: seq<Packet>)

  function Resume(s: Session, raw: RawEvent, seconds: nat, listing: Listing): Session
    requires seconds > 0
  {
    match Feed(s.acc, raw, seconds, listing)
    case Err(_) => s
    case Ok((acc, table)) => Session(acc, s.rows + table, s.accepted + [Normalize(raw).value])
  }

  function Run(raws: seq<RawEvent>, seconds: nat, listing: Listing): Session
    requires seconds > 0
  {
    if raws == [] then Session(Accumulator(None, [], None), [], [])
    else Resume(Run(Front(raws), seconds, listing), Last(raws), seconds, listing)
  }

  // ---- Normalising twice ----

  /** `p` came out of a normalisation. */
  ghost predicate Normal(p: Packet) {
    exists raw :: Normalize(raw) == Ok(p)
  }

  ghost predicate AllNormal(packets: seq<Packet>) {
    forall i :: 0 <= i < |packets| ==> Normal(packets[i])
  }

  lemma {:induction false} ColumnsAgree(raws: seq<RawEvent>)
    ensures ColumnError(raws) == None <==> forall i :: 0 <= i < |raws| ==> Normalize(raws[i]).Ok?
  {
    if ColumnError(raws) == None {
      forall i | 0 <= i < |raws|
        ensures Normalize(raws[i]).Ok?
      {
      }
    }
  }

  lemma {:induction false} RenewedIsSame(p: Packet, listing: Listing)
    requires Normal(p) && Lists(listing)
    ensures Normalize(Renewed(p, listing(p.flags))) == Ok(p)
  {
    var raw :| Normalize(raw) == Ok(p);
    NormalizeIsIdempotent(raw, listing(p.flags));
  }

  lemma {:induction false} StoredPackets(events: seq<Packet>, listing: Listing)
    requires AllNormal(events) && Lists(listing)
    ensures Packets(Stored(events, listing)) == events
  {
    if events != [] {
      FrontAndLast(events);
      assert AllNormal(Front(events));
      StoredPackets(Front(events), listing);
      RenewedIsSame(Last(events), listing);
      assert Front(Stored(events, listing)) == Stored(Front(events), listing);
    }
  }

  lemma {:induction false} StoredIsValid(events: seq<Packet>, listing: Listing)
    requires AllNormal(events) && Lists(listing)
    ensures ColumnError(Stored(events, listing)) == None
  {
    var stored := Stored(events, listing);
    MapAt(events, (p: Packet) => Renewed(p, listing(p.flags)));
    forall i | 0 <= i < |stored|
      ensures Normalize(stored[i]).Ok?
    {
      RenewedIsSame(events[i], listing);
    }
    ColumnsAgree(stored);
  }

  lemma {:induction false} SortKeepsOrder(packets: seq<Packet>)
    requires InTimeOrder(packets)
    ensures SortByTime(packets) == packets
  {
    if packets != [] {
      FrontAndLast(packets);
      SortKeepsOrder(Front(packets));
    }
  }

  /** The second normalisation and the sort change nothing for the stored events. */
  lemma {:induction false} CompletedIsTable(events: seq<Packet>, seconds: nat, listing: Listing)
    requires seconds > 0 && AllNormal(events) && InTimeOrder(events) && Lists(listing)
    ensures Completed(events, seconds, listing) == Ok(TableOf(events, seconds))
  {
    StoredPackets(events, listing);
    StoredIsValid(events, listing);
    SortKeepsOrder(events);
  }

  // ---- Tables of consecutive intervals ----

  ghost predicate AllStartBefore(packets: seq<Packet>, bound: int, step: int)
    requires step > 0
  {
    forall i :: 0 <= i < |packets| ==> Floor(packets[i].timestamp, step) < bound
  }

  ghost predicate AllStartAt(packets: seq<Packet>, bound: int, step: int)
    requires step > 0
  {
    forall i :: 0 <= i < |packets| ==> Floor(packets[i].timestamp, step) == bound
  }

  ghost predicate AllStartFrom(packets: seq<Packet>, bound: int, step: int)
    requires step > 0
  {
    forall i :: 0 <= i < |packets| ==> bound <= Floor(packets[i].timestamp, step)
  }

  /** Every key of the table is the key of a packet. */
  lemma {:induction false} KeysCome(packets: seq<Packet>, step: int, k: GroupKey)
    requires step > 0
    ensures k in KeysOf(packets, step) <==> exists i :: 0 <= i < |packets| && GroupOf(packets[i], step) == k
  {
    KeysHold(packets, PacketGroup(step), KeyBefore, k);
  }

  lemma {:induction false} KeysStartBefore(packets: seq<Packet>, bound: int, step: int)
    requires step > 0 && AllStartBefore(packets, bound, step)
    ensures forall i :: 0 <= i < |KeysOf(packets, step)| ==> KeysOf(packets, step)[i].start < bound
  {
    forall i | 0 <= i < |KeysOf(packets, step)|
      ensures KeysOf(packets, step)[i].start < bound
    {
      KeysCome(packets, step, KeysOf(packets, step)[i]);
    }
  }

  lemma {:induction false} MembersOfParts(before: seq<Packet>, packets: seq<Packet>, bound: int, step: int, k: GroupKey)
    requires step > 0 && AllStartBefore(before, bound, step) && AllStartFrom(packets, bound, step)
    ensures k.start < bound ==> Filter(before + packets, InGroup(k, step)) == Filter(before, InGroup(k, step))
    ensures k.start >= bound ==> Filter(before + packets, InGroup(k, step)) == Filter(packets, InGroup(k, step))
  {
    FilterConcat(before, packets, InGroup(k, step));
    if k.start < bound {
      FilterKeepsNone(packets, InGroup(k, step));
    } else {
      FilterKeepsNone(before, InGroup(k, step));
    }
  }

  lemma {:induction false} KeysStartFrom(packets: seq<Packet>, bound: int, step: int)
    requires step > 0 && AllStartFrom(packets, bound, step)
    ensures forall i :: 0 <= i < |KeysOf(packets, step)| ==> KeysOf(packets, step)[i].start >= bound
  {
    forall i | 0 <= i < |KeysOf(packets, step)|
      ensures KeysOf(packets, step)[i].start >= bound
    {
      KeysCome(packets, step, KeysOf(packets, step)[i]);
    }
  }

  /** The table of packets cut at an interval boundary is the tables of the parts. */
  lemma {:induction false} TableOfParts(before: seq<Packet>, packets: seq<Packet>, bound: int, seconds: nat)
    requires seconds > 0 && AllStartBefore(before, bound, seconds * SECOND) && AllStartFrom(packets, bound, seconds * SECOND)
    ensures TableOf(before + packets, seconds) == TableOf(before, seconds) + TableOf(packets, seconds)
  {
    var step := seconds * SECOND;
    var early, late := KeysOf(before, step), KeysOf(packets, step);
    var maker := RowMaker(before + packets, seconds);
    KeysOfParts(before, packets, PacketGroup(step), KeyBefore);
    MapConcat(early, late, maker);
    KeysStartBefore(before, bound, step);
    KeysStartFrom(packets, bound, step);
    forall i | 0 <= i < |early|
      ensures maker(early[i]) == RowMaker(before, seconds)(early[i])
    {
      MembersOfParts(before, packets, bound, step, early[i]);
    }
    MapsAgree(early, maker, RowMaker(before, seconds));
    forall i | 0 <= i < |late|
      ensures maker(late[i]) == RowMaker(packets, seconds)(late[i])
    {
      MembersOfParts(before, packets, bound, step, late[i]);
    }
    MapsAgree(late, maker, RowMaker(packets, seconds));
  }

  // ---- Streaming equals batch ----

  /** The stored events are the accepted ones of the current interval, and everything before has
      been emitted. */
  ghost predicate Streams(s: Session, settled: seq<Packet>, seconds: nat)
    requires seconds > 0
  {
    && s.accepted == settled + s.acc.events
    && AllNormal(s.accepted) && InTimeOrder(s.accepted)
    && s.rows == TableOf(settled, seconds)
    && (s.acc.bucket.None? <==> s.accepted == []) && (s.acc.bucket.Some? <==> s.acc.events != [])
    && s.acc.last == (if s.accepted == [] then None else Some(Last(s.accepted).timestamp))
    && (s.acc.bucket.Some? ==>
          && AllStartBefore(settled, s.acc.bucket.value, seconds * SECOND)
          && AllStartAt(s.acc.events, s.acc.bucket.value, seconds * SECOND))
  }

  lemma {:induction false} LastStartsAt(packets: seq<Packet>, bound: int, step: int)
    requires step > 0 && packets != [] && AllStartAt(packets, bound, step)
    ensures Floor(Last(packets).timestamp, step) == bound
  {
  }

  lemma {:induction false} StreamNeverGoesBack(s: Session, settled: seq<Packet>, p: Packet, seconds: nat)
    requires seconds > 0 && Streams(s, settled, seconds) && s.acc.bucket.Some?
    requires s.acc.last.Some? ==> s.acc.last.value <= p.timestamp
    ensures s.acc.bucket.value <= Floor(p.timestamp, seconds * SECOND)
  {
    ConcatEndsWith(settled, s.acc.events);
    LastStartsAt(s.acc.events, s.acc.bucket.value, seconds * SECOND);
    FloorIsMonotone(Last(s.acc.events).timestamp, p.timestamp, seconds * SECOND);
  }

  lemma {:induction false} GrowsInTime(packets: seq<Packet>, p: Packet)
    requires InTimeOrder(packets) && AllNormal(packets) && Normal(p)
    requires packets != [] ==> Last(packets).timestamp <= p.timestamp
    ensures InTimeOrder(packets + [p]) && AllNormal(packets + [p])
  {
    forall i | 0 <= i < |packets|
      ensures packets[i].timestamp <= p.timestamp
    {
      assert i < |packets| - 1 ==> packets[i].timestamp <= packets[|packets| - 1].timestamp;
    }
  }

  lemma {:induction false} SuffixInTime(settled: seq<Packet>, events: seq<Packet>)
    requires InTimeOrder(settled + events) && AllNormal(settled + events)
    ensures InTimeOrder(events) && AllNormal(events)
  {
    var all := settled + events;
    assert forall i :: 0 <= i < |events| ==> events[i] == all[|settled| + i];
  }

  lemma {:induction false} AcceptedStartBefore(s: Session, settled: seq<Packet>, bound: int, seconds: nat)
    requires seconds > 0 && Streams(s, settled, seconds) && s.acc.bucket.Some? && s.acc.bucket.value < bound
    ensures AllStartBefore(s.accepted, bound, seconds * SECOND)
  {
  }

  lemma {:induction false} CompletedBucket(s: Session, settled: seq<Packet>, seconds: nat, listing: Listing)
    requires seconds > 0 && Streams(s, settled, seconds) && Lists(listing) && s.acc.bucket.Some?
    ensures Completed(s.acc.events, seconds, listing) == Ok(TableOf(s.acc.events, seconds))
    ensures s.rows + TableOf(s.acc.events, seconds) == TableOf(s.accepted, seconds)
  {
    SuffixInTime(settled, s.acc.events);
    CompletedIsTable(s.acc.events, seconds, listing);
    TableOfParts(settled, s.acc.events, s.acc.bucket.value, seconds);
  }

  lemma {:induction false} FreshBucket(accepted: seq<Packet>, p: Packet, bucket: int, rows: seq<Row>, seconds: nat)
    requires seconds > 0 && bucket == Floor(p.timestamp, seconds * SECOND)
    requires InTimeOrder(accepted + [p]) && AllNormal(accepted + [p])
    requires AllStartBefore(accepted, bucket, seconds * SECOND) && rows == TableOf(accepted, seconds)
    ensures Streams(Session(Accumulator(Some(bucket), [p], Some(p.timestamp)), rows, accepted + [p]), accepted, seconds)
  {
    assert Last(accepted + [p]) == p;
  }

  lemma {:induction false} NextInterval(s: Session, settled: seq<Packet>, p: Packet, seconds: nat, listing: Listing)
    requires seconds > 0 && Streams(s, settled, seconds) && Lists(listing) && Normal(p)
    requires s.acc.bucket.Some? && s.acc.bucket.value < Floor(p.timestamp, seconds * SECOND)
    requires s.acc.last.Some? ==> s.acc.last.value <= p.timestamp
    ensures
      var table := TableOf(s.acc.events, seconds);
      && Completed(s.acc.events, seconds, listing) == Ok(table)
      && Streams(Session(Accumulator(Some(Floor(p.timestamp, seconds * SECOND)), [p], Some(p.timestamp)),
                         s.rows + table, s.accepted + [p]), s.accepted, seconds)
  {
    CompletedBucket(s, settled, seconds, listing);
    AcceptedStartBefore(s, settled, Floor(p.timestamp, seconds * SECOND), seconds);
    GrowsInTime(s.accepted, p);
    FreshBucket(s.accepted, p, Floor(p.timestamp, seconds * SECOND), s.rows + TableOf(s.acc.events, seconds), seconds);
  }

  lemma {:induction false} OneMoreStartsAt(packets: seq<Packet>, p: Packet, bound: int, step: int)
    requires step > 0 && AllStartAt(packets, bound, step) && Floor(p.timestamp, step) == bound
    ensures AllStartAt(packets + [p], bound, step)
  {
  }

  lemma {:induction false} SameInterval(s: Session, settled: seq<Packet>, p: Packet, seconds: nat)
    requires seconds > 0 && Streams(s, settled, seconds) && Normal(p)
    requires s.acc.bucket.None? || s.acc.bucket.value == Floor(p.timestamp, seconds * SECOND)
    requires s.acc.last.Some? ==> s.acc.last.value <= p.timestamp
    ensures Streams(Session(Accumulator(Some(Floor(p.timestamp, seconds * SECOND)), s.acc.events + [p], Some(p.timestamp)),
                            s.rows + [], s.accepted + [p]), settled, seconds)
  {
    var step := seconds * SECOND;
    GrowsInTime(s.accepted, p);
    ConcatIsAssociative(settled, s.acc.events, [p]);
    ConcatEndsWith(s.accepted, [p]);
    OneMoreStartsAt(s.acc.events, p, Floor(p.timestamp, step), step);
    assert s.rows + [] == s.rows;
  }

  lemma {:induction false} EventStreams(s: Session, settled: seq<Packet>, raw: RawEvent, seconds: nat, listing: Listing)
    returns (after: seq<Packet>)
    requires seconds > 0 && Streams(s, settled, seconds) && Lists(listing)
    ensures Streams(Resume(s, raw, seconds, listing), after, seconds)
    ensures Feed(s.acc, raw, seconds, listing).Err? <==>
              || Normalize(raw).Err?
              || (s.accepted != [] && Normalize(raw).value.timestamp < Last(s.accepted).timestamp)
    ensures Feed(s.acc, raw, seconds, listing).Err? ==> Feed(s.acc, raw, seconds, listing).error != IntervalBackwards
  {
    after := settled;
    if Normalize(raw).Ok? {
      var p := Normalize(raw).value;
      if !(s.acc.last.Some? && p.timestamp < s.acc.last.value) {
        if s.acc.bucket.None? || s.acc.bucket.value == Floor(p.timestamp, seconds * SECOND) {
          SameInterval(s, settled, p, seconds);
        } else {
          StreamNeverGoesBack(s, settled, p, seconds);
          NextInterval(s, settled, p, seconds, listing);
          after := s.accepted;
        }
      }
    }
  }

  lemma {:induction false} RunStreams(raws: seq<RawEvent>, seconds: nat, listing: Listing) returns (settled: seq<Packet>)
    requires seconds > 0 && Lists(listing)
    ensures Streams(Run(raws, seconds, listing), settled, seconds)
  {
    if raws == [] {
      settled := [];
    } else {
      var before := RunStreams(Front(raws), seconds, listing);
      settled := EventStreams(Run(Front(raws), seconds, listing), before, Last(raws), seconds, listing);
    }
  }

  /** For any stream, refused events included: the emitted tables and one final flush are the
      table of all accepted packets. */
  lemma {:induction false} StreamingEqualsTable(raws: seq<RawEvent>, seconds: nat, listing: Listing)
    requires seconds > 0 && Lists(listing)
    ensures
      var s := Run(raws, seconds, listing);
      && Flush(s.acc, seconds, listing).Ok?
      && s.rows + Flush(s.acc, seconds, listing).value == TableOf(s.accepted, seconds)
  {
    var s := Run(raws, seconds, listing);
    var settled := RunStreams(raws, seconds, listing);
    if s.acc.events != [] {
      CompletedBucket(s, settled, seconds, listing);
    }
  }

  ghost predicate ChronologicalStream(raws: seq<RawEvent>) {
    && (forall i :: 0 <= i < |raws| ==> Normalize(raws[i]).Ok?)
    && InTimeOrder(Packets(raws))
  }

  lemma {:induction false} ValidStreamIsAccepted(raws: seq<RawEvent>, seconds: nat, listing: Listing)
    requires seconds > 0 && Lists(listing) && ChronologicalStream(raws)
    ensures Run(raws, seconds, listing).accepted == Packets(raws)
  {
    if raws != [] {
      var p := Normalize(Last(raws)).value;
      assert Packets(raws) == Packets(Front(raws)) + [p];
      SuffixlessInTime(Packets(Front(raws)), p);
      ValidStreamIsAccepted(Front(raws), seconds, listing);
      var before := RunStreams(Front(raws), seconds, listing);
      var _ := EventStreams(Run(Front(raws), seconds, listing), before, Last(raws), seconds, listing);
    }
  }

  lemma {:induction false} SuffixlessInTime(packets: seq<Packet>, p: Packet)
    requires InTimeOrder(packets + [p])
    ensures InTimeOrder(packets) && (packets != [] ==> Last(packets).timestamp <= p.timestamp)
  {
    var all := packets + [p];
    assert forall i :: 0 <= i < |packets| ==> all[i] == packets[i];
    assert all[|packets|] == p;
  }

  /** For any chronological stream of valid events, the tables emitted one by one and a final
      flush are the batch aggregation of all events at once. */
  lemma {:induction false} StreamingEqualsBatch(raws: seq<RawEvent>, seconds: nat, listing: Listing)
    requires seconds > 0 && Lists(listing) && ChronologicalStream(raws)
    ensures
      var s := Run(raws, seconds, listing);
      && Flush(s.acc, seconds, listing).Ok?
      && Aggregate(raws, seconds) == Ok(s.rows + Flush(s.acc, seconds, listing).value)
  {
    StreamingEqualsTable(raws, seconds, listing);
    ValidStreamIsAccepted(raws, seconds, listing);
    ColumnsAgree(raws);
    SortKeepsOrder(Packets(raws));
  }

  // ---- The table is a grouping ----

  lemma {:induction false} KeyOrderIsTotal()
    ensures StrictTotal(KeyBefore)
  {
    forall a: GroupKey, b: GroupKey
      ensures !KeyBefore(a, a)
      ensures a != b ==> (KeyBefore(a, b) <==> !KeyBefore(b, a))
    {
      BeforeIsTotal(a.ip, b.ip);
      BeforeIsTotal(a.ip, a.ip);
    }
    forall a: GroupKey, b: GroupKey, c: GroupKey | KeyBefore(a, b) && KeyBefore(b, c)
      ensures KeyBefore(a, c)
    {
      if Before(a.ip, b.ip) && Before(b.ip, c.ip) {
        BeforeIsTransitive(a.ip, b.ip, c.ip);
      }
    }
  }

  function CountedPackets(rows: seq<Row>): nat {
    if rows == [] then 0 else CountedPackets(Front(rows)) + Last(rows).packetCount
  }

  function InGroups(keys: seq<GroupKey>, step: int): Packet -> bool
    requires step > 0
  {
    (p: Packet) => GroupOf(p, step) in keys
  }

  lemma {:induction false} OneMoreGroup(packets: seq<Packet>, keys: seq<GroupKey>, k: GroupKey, step: int)
    requires step > 0 && k !in keys
    ensures |Filter(packets, InGroups(keys + [k], step))| ==
            |Filter(packets, InGroups(keys, step))| + |Filter(packets, InGroup(k, step))|
  {
    if packets != [] {
      OneMoreGroup(Front(packets), keys, k, step);
    }
  }

  lemma {:induction false} GroupsCount(packets: seq<Packet>, keys: seq<GroupKey>, seconds: nat)
    requires seconds > 0 && Sorted(keys, KeyBefore)
    ensures CountedPackets(Map(keys, RowMaker(packets, seconds))) == |Filter(packets, InGroups(keys, seconds * SECOND))|
  {
    var step := seconds * SECOND;
    if keys == [] {
      FilterKeepsNone(packets, InGroups(keys, step));
    } else {
      var fewer, k := Front(keys), Last(keys);
      FrontAndLast(keys);
      GroupsCount(packets, fewer, seconds);
      forall i | 0 <= i < |fewer|
        ensures fewer[i] != k
      {
        assert KeyBefore(keys[i], keys[|keys| - 1]);
        KeyOrderIsTotal();
      }
      OneMoreGroup(packets, fewer, k, step);
    }
  }

  /** The table has one row for each source, interval and day that has packets, in order, and the
      packet counts add up to the number of packets. */
  lemma {:induction false} TableGroupsEveryPacket(packets: seq<Packet>, seconds: nat)
    requires seconds > 0
    ensures
      var keys := KeysOf(packets, seconds * SECOND);
      && Sorted(keys, KeyBefore)
      && (forall k :: k in keys <==> exists i :: 0 <= i < |packets| && GroupOf(packets[i], seconds * SECOND) == k)
      && CountedPackets(TableOf(packets, seconds)) == |packets|
  {
    var step := seconds * SECOND;
    var keys := KeysOf(packets, step);
    KeyOrderIsTotal();
    KeysAreSorted(packets, PacketGroup(step), KeyBefore);
    GroupsCount(packets, keys, seconds);
    forall k
      ensures k in keys <==> exists i :: 0 <= i < |packets| && GroupOf(packets[i], step) == k
    {
      KeysCome(packets, step, k);
    }
    forall p | p in packets
      ensures InGroups(keys, step)(p)
    {
      var i :| 0 <= i < |packets| && packets[i] == p;
      assert GroupOf(packets[i], step) in keys;
    }
    FilterKeepsAll(packets, InGroups(keys, step));
  }

  // ---- The accumulator object ----

  class SourceActivityAccumulator {
    const seconds: nat
    const listing: Listing
    var bucket: Option<int>
    var events: seq<Packet>
    var last: Option<int>

    ghost predicate Valid() {
      seconds > 0
    }

    ghost function Model(): Accumulator
      reads this
    {
      Accumulator(bucket, events, last)
    }

    constructor (seconds: nat, listing: Listing)
      requires seconds > 0
      ensures Valid() && Model() == Accumulator(None, [], None)
      ensures this.seconds == seconds && this.listing == listing
    {
      this.seconds := seconds;
      this.listing := listing;
      bucket, events, last := None, [], None;
    }

    /** The table completed by this event, if it completes one; a refused event changes nothing. */
    method FeedEvent(raw: RawEvent) returns (completed: Result<seq<Row>, FeedError>)
      requires Valid()
      modifies this
      ensures match Feed(old(Model()), raw, seconds, listing)
              case Err(e) => completed == Err(e) && Model() == old(Model())
              case Ok((acc, table)) => completed == Ok(table) && Model() == acc
    {
      var normalized := Normalize(raw);
      if normalized.Err? {
        return Err(Invalid(normalized.error));
      }
      var p := normalized.value;
      if last.Some? && p.timestamp < last.value {
        return Err(NotChronological);
      }
      var current := Floor(p.timestamp, seconds * SECOND);
      completed := Ok([]);
      if bucket.Some? && current != bucket.value {
        if current < bucket.value {
          return Err(IntervalBackwards);
        }
        var table := Completed(events, seconds, listing);
        if table.Err? {
          return Err(Invalid(table.error));
        }
        completed := Ok(table.value);
        events := [];
      }
      bucket := Some(current);
      last := Some(p.timestamp);
      events := events + [p];
    }

    method FlushEvents() returns (completed: Result<seq<Row>, EventError>)
      requires Valid()
      modifies this
      ensures completed == Flush(old(Model()), seconds, listing)
      ensures completed.Ok? && old(events) != [] ==> bucket == None && events == [] && last == old(last)
      ensures completed.Err? || old(events) == [] ==> Model() == old(Model())
    {
      if events == [] {
        return Ok([]);
      }
      completed := Completed(events, seconds, listing);
      if completed.Ok? {
        events := [];
        bucket := None;
      }
    }
  }
}
