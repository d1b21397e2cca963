/** The bounded flow table with eager timeouts (src/streaming/flow_builder.py). */
module FlowBuilders {
  import opened Prelude
  import opened PacketEvents

  datatype Policy = Policy(idleSeconds: nat, activeSeconds: nat, maxFlows: nat)

  predicate Positive(policy: Policy) {
    policy.idleSeconds > 0 && policy.activeSeconds > 0 && policy.maxFlows > 0
  }

  /** One bidirectional flow. `packets` is the history the theorems speak of; the program keeps
      only the numbers beside it. */
  datatype Flow = Flow(key: Key, first: int, last: int, packetCount: nat, fwdCount: nat, bwdCount: nat,
                       byteCount: int, fwdBytes: int, bwdBytes: int, synCount: nat, ackCount: nat, rstCount: nat,
                       finSeen: bool, lengths: seq<real>, gaps: seq<int>, packets: seq<Packet>)

  datatype Reason = IdleTimeout | ActiveTimeout | Rst | Fin | Flushed

  datatype Closed = Closed(flow: Flow, reason: Reason)

  datatype FeedError = InvalidEvent(error: EventError) | NotChronological | TableOverflow | FlowBackwards

  /** The tracked flows in the order of their creation. */
  datatype Table = Table(flows: seq<Flow>, lastEvent: Option<int>, created: nat, closed: nat)

  const EMPTY_TABLE: Table := Table([], None, 0, 0)

  function OneIf(b: bool): nat {
    if b then 1 else 0
  }

  // ---- One flow ----

  function NewFlow(k: Key, now: int): Flow {
    Flow(k, now, now, 0, 0, 0, 0, 0, 0, 0, 0, 0, false, [], [], [])
  }

  function Add(f: Flow, p: Packet): Result<Flow, FeedError> {
    if p.timestamp < f.last then Err(FlowBackwards)
    else
      var forward := p.source == f.key.forward;
      var size := p.length.Floor;
      Ok(f.(last := p.timestamp,
            gaps := if p.timestamp > f.last then f.gaps + [p.timestamp - f.last] else f.gaps,
            packetCount := f.packetCount + 1,
            byteCount := f.byteCount + size,
            lengths := f.lengths + [p.length],
            fwdCount := f.fwdCount + OneIf(forward),
            bwdCount := f.bwdCount + OneIf(!forward),
            fwdBytes := if forward then f.fwdBytes + size else f.fwdBytes,
            bwdBytes := if forward then f.bwdBytes else f.bwdBytes + size,
            synCount := f.synCount + OneIf("SYN" in p.flags),
            ackCount := f.ackCount + OneIf("ACK" in p.flags),
            rstCount := f.rstCount + OneIf("RST" in p.flags),
            finSeen := f.finSeen || "FIN" in p.flags,
            packets := f.packets + [p]))
  }

  predicate IdleDue(policy: Policy, f: Flow, now: int) {
    now - f.last >= policy.idleSeconds * SECOND
  }

  predicate ActiveDue(policy: Policy, f: Flow, now: int) {
    now - f.first >= policy.activeSeconds * SECOND
  }

  function IsDue(policy: Policy, now: int): Flow -> bool {
    (f: Flow) => IdleDue(policy, f, now) || ActiveDue(policy, f, now)
  }

  function IsLive(policy: Policy, now: int): Flow -> bool {
    (f: Flow) => !IsDue(policy, now)(f)
  }

  // ---- The table ----

  function IndexOf(flows: seq<Flow>, k: Key): (i: nat)
    ensures i <= |flows|
    ensures i < |flows| ==> flows[i].key == k
  {
    if flows == [] then 0
    else if flows[0].key == k then 0
    else 1 + IndexOf(flows[1..], k)
  }

  function Timed(policy: Policy, flows: seq<Flow>, now: int): seq<Closed> {
    if flows == [] then []
    else
      Timed(policy, Front(flows), now)
      + [Closed(Last(flows), if IdleDue(policy, Last(flows), now) then IdleTimeout else ActiveTimeout)]
  }

  /** The sweep over all flows, whoever they belong to. */
  function CloseDue(policy: Policy, table: Table, now: int): (Table, seq<Closed>) {
    var due := Timed(policy, Filter(table.flows, IsDue(policy, now)), now);
    (table.(flows := Filter(table.flows, IsLive(policy, now)), closed := table.closed + |due|), due)
  }

  function Tracking(table: Table, k: Key, now: int): Table {
    if IndexOf(table.flows, k) < |table.flows| then table
    else table.(flows := table.flows + [NewFlow(k, now)], created := table.created + 1)
  }

  predicate Ending(p: Packet) {
    "RST" in p.flags || "FIN" in p.flags
  }

  function Removed(flows: seq<Flow>, i: nat): seq<Flow>
    requires i < |flows|
  {
    flows[..i] + flows[i + 1..]
  }

  /** Adds the packet to the i-th flow and closes that flow on RST or FIN. */
  function Settle(tracked: Table, i: nat, due: seq<Closed>, p: Packet): (Table, Result<seq<Closed>, FeedError>)
    requires i < |tracked.flows|
  {
    match Add(tracked.flows[i], p)
    case Err(e) => (tracked, Err(e))
    case Ok(f) =>
      if Ending(p) then
        (tracked.(flows := Removed(tracked.flows, i), closed := tracked.closed + 1),
         Ok(due + [Closed(f, if "RST" in p.flags then Rst else Fin)]))
      else (tracked.(flows := tracked.flows[i := f]), Ok(due))
  }

  /** The same once the flow has become `f` with the packet. */
  function Settled(tracked: Table, i: nat, due: seq<Closed>, p: Packet, f: Flow): (Table, Result<seq<Closed>, FeedError>)
    requires i < |tracked.flows|
  {
    if Ending(p) then
      (tracked.(flows := Removed(tracked.flows, i), closed := tracked.closed + 1),
       Ok(due + [Closed(f, if "RST" in p.flags then Rst else Fin)]))
    else (tracked.(flows := tracked.flows[i := f]), Ok(due))
  }

  lemma {:induction false} SettleOutcome(tracked: Table, i: nat, due: seq<Closed>, p: Packet, f: Flow)
    requires i < |tracked.flows| && Add(tracked.flows[i], p) == Ok(f)
    ensures Settle(tracked, i, due, p) == Settled(tracked, i, due, p, f)
  {
  }

  /** Settling is updating the flow and then removing it if it has ended. */
  lemma {:induction false} SettledAfterUpdate(tracked: Table, i: nat, due: seq<Closed>, p: Packet, f: Flow, updated: Table)
    requires i < |tracked.flows| && updated == tracked.(flows := tracked.flows[i := f])
    ensures Settled(tracked, i, due, p, f) ==
            if Ending(p) then
              (updated.(flows := Removed(updated.flows, i), closed := updated.closed + 1),
               Ok(due + [Closed(updated.flows[i], if "RST" in p.flags then Rst else Fin)]))
            else (updated, Ok(due))
  {
    assert Removed(updated.flows, i) == Removed(tracked.flows, i);
  }

  /** What follows the sweep: find or open the packet's flow, then settle the packet there. */
  function Take(policy: Policy, swept: Table, due: seq<Closed>, p: Packet): (Table, Result<seq<Closed>, FeedError>) {
    var k := KeyOf(p);
    var i := IndexOf(swept.flows, k);
    if i == |swept.flows| && |swept.flows| >= policy.maxFlows then (swept, Err(TableOverflow))
    else Settle(Tracking(swept, k, p.timestamp), i, due, p)
  }

  function Feed(policy: Policy, table: Table, raw: RawEvent): (Table, Result<seq<Closed>, FeedError>) {
    match Normalize(raw)
    case Err(e) => (table, Err(InvalidEvent(e)))
    case Ok(p) =>
      if table.lastEvent.Some? && p.timestamp < table.lastEvent.value then (table, Err(NotChronological))
      else
        var (swept, due) := CloseDue(policy, table.(lastEvent := Some(p.timestamp)), p.timestamp);
        Take(policy, swept, due, p)
  }

  function Flushing(flows: seq<Flow>): seq<Closed> {
    if flows == [] then [] else Flushing(Front(flows)) + [Closed(Last(flows), Flushed)]
  }

  function Flush(table: Table): (Table, seq<Closed>) {
    (table.(flows := [], closed := table.closed + |table.flows|), Flushing(table.flows))
  }

  /** A builder after a stream of events, whatever they are: what it returned and what it took. */
  datatype Session = Session(table: Table, closed: seq<Closed>, accepted: seq<Packet>)

  function Resume(policy: Policy, s: Session, raw: RawEvent): Session {
    var (table, result) := Feed(policy, s.table, raw);
    match result
    case Err(_) => Session(table, s.closed, s.accepted)
    case Ok(due) => Session(table, s.closed + due, s.accepted + [Normalize(raw).value])
  }

  function Run(policy: Policy, events: seq<RawEvent>): Session {
    if events == [] then Session(EMPTY_TABLE, [], []) else Resume(policy, Run(policy, Front(events)), Last(events))
  }

  // ---- Flows are summaries of their packets ----

  function Count(packets: seq<Packet>, holds: Packet -> bool): nat {
    if packets == [] then 0 else Count(Front(packets), holds) + OneIf(holds(Last(packets)))
  }

  function Size(packets: seq<Packet>, counted: Packet -> bool): int {
    if packets == [] then 0
    else Size(Front(packets), counted) + if counted(Last(packets)) then Last(packets).length.Floor else 0
  }

  function Lengths(packets: seq<Packet>): seq<real> {
    if packets == [] then [] else Lengths(Front(packets)) + [Last(packets).length]
  }

  /** The positive times between one packet and the next. */
  function Gaps(packets: seq<Packet>): seq<int> {
    if |packets| <= 1 then []
    else
      var gap := Last(packets).timestamp - packets[|packets| - 2].timestamp;
      Gaps(Front(packets)) + if gap > 0 then [gap] else []
  }

  function From(a: Address): Packet -> bool {
    (p: Packet) => p.source == a
  }

  function NotFrom(a: Address): Packet -> bool {
    (p: Packet) => p.source != a
  }

  function Flagged(flag: string): Packet -> bool {
    (p: Packet) => flag in p.flags
  }

  function Always(): Packet -> bool {
    (p: Packet) => true
  }

  /** The flow that a direct reading of its packets gives. */
  function Summary(k: Key, first: int, packets: seq<Packet>): Flow {
    Flow(k, first, if packets == [] then first else Last(packets).timestamp, |packets|,
         Count(packets, From(k.forward)), Count(packets, NotFrom(k.forward)),
         Size(packets, Always()), Size(packets, From(k.forward)), Size(packets, NotFrom(k.forward)),
         Count(packets, Flagged("SYN")), Count(packets, Flagged("ACK")), Count(packets, Flagged("RST")),
         Count(packets, Flagged("FIN")) > 0, Lengths(packets), Gaps(packets), packets)
  }

  ghost predicate Summarizes(f: Flow) {
    && f.packets != [] && InTimeOrder(f.packets)
    && f == Summary(f.key, f.packets[0].timestamp, f.packets)
  }

  /** Adding a packet to the summary of some gives the summary of all; a new flow is the
      summary of none. */
  lemma {:induction false} AddKeepsSummary(k: Key, first: int, packets: seq<Packet>, p: Packet)
    requires p.timestamp >= if packets == [] then first else Last(packets).timestamp
    requires packets == [] ==> p.timestamp == first
    ensures Add(Summary(k, first, packets), p) == Ok(Summary(k, first, packets + [p]))
    ensures NewFlow(k, first) == Summary(k, first, [])
  {
    var f, g := Add(Summary(k, first, packets), p).value, Summary(k, first, packets + [p]);
    assert f.fwdCount == g.fwdCount && f.bwdCount == g.bwdCount;
    assert f.byteCount == g.byteCount && f.fwdBytes == g.fwdBytes && f.bwdBytes == g.bwdBytes;
    assert f.synCount == g.synCount && f.ackCount == g.ackCount && f.rstCount == g.rstCount && f.finSeen == g.finSeen;
    assert f.lengths == g.lengths;
    assert packets == [] ==> f.gaps == [] == g.gaps;
    assert f.gaps == g.gaps;
  }

  // ---- Records as the program returns them ----

  /** The fields of a returned record; standard deviations are not part of this model. */
  datatype Record = Record(key: Key, captureDay: int, start: int, end: int, duration: int,
                           fwdPackets: nat, bwdPackets: nat, fwdBytes: int, bwdBytes: int, meanGap: real,
                           synCount: nat, ackCount: nat, rstCount: nat, meanLength: real, reason: Reason)

  function MeanGap(gaps: seq<int>): real {
    if gaps == [] then 0.0 else Sum(gaps) as real / |gaps| as real
  }

  function MeanLength(lengths: seq<real>): real {
    if lengths == [] then 0.0 else RealSum(lengths) / |lengths| as real
  }

  function RecordOf(c: Closed): Record {
    var f := c.flow;
    Record(f.key, f.first / DAY, f.first, f.last, f.last - f.first, f.fwdCount, f.bwdCount, f.fwdBytes, f.bwdBytes,
           MeanGap(f.gaps), f.synCount, f.ackCount, f.rstCount, MeanLength(f.lengths), c.reason)
  }

  function RecordsOf(closed: seq<Closed>): seq<Record> {
    if closed == [] then [] else RecordsOf(Front(closed)) + [RecordOf(Last(closed))]
  }

  lemma {:induction false} RecordsCount(closed: seq<Closed>)
    ensures |RecordsOf(closed)| == |closed|
  {
    if closed != [] {
      RecordsCount(Front(closed));
    }
  }

  /** The sweep over one more flow. */
  function LiveFlows(policy: Policy, flows: seq<Flow>, now: int): seq<Flow> {
    Filter(flows, IsLive(policy, now))
  }

  /** The records of the flows that are due. */
  function DueRecords(policy: Policy, flows: seq<Flow>, now: int): seq<Record> {
    RecordsOf(Timed(policy, Filter(flows, IsDue(policy, now)), now))
  }

  function DueReason(policy: Policy, f: Flow, now: int): Reason {
    if IdleDue(policy, f, now) then IdleTimeout else ActiveTimeout
  }

  lemma {:induction false} DueStep(policy: Policy, flows: seq<Flow>, i: nat, now: int)
    requires i < |flows| && (IdleDue(policy, flows[i], now) || ActiveDue(policy, flows[i], now))
    ensures DueRecords(policy, flows[..i + 1], now) ==
            DueRecords(policy, flows[..i], now) + [RecordOf(Closed(flows[i], DueReason(policy, flows[i], now)))]
    ensures LiveFlows(policy, flows[..i + 1], now) == LiveFlows(policy, flows[..i], now)
  {
    var gone := Filter(flows[..i], IsDue(policy, now));
    assert flows[..i + 1] == flows[..i] + [flows[i]];
    assert IsDue(policy, now)(flows[i]) && !IsLive(policy, now)(flows[i]);
    FilterAppend(flows[..i], flows[i], IsDue(policy, now));
    FilterAppend(flows[..i], flows[i], IsLive(policy, now));
    assert Front(gone + [flows[i]]) == gone;
    var due := Timed(policy, gone, now);
    assert Front(due + [Closed(flows[i], DueReason(policy, flows[i], now))]) == due;
  }

  lemma {:induction false} LiveStep(policy: Policy, flows: seq<Flow>, i: nat, now: int)
    requires i < |flows| && !IdleDue(policy, flows[i], now) && !ActiveDue(policy, flows[i], now)
    ensures DueRecords(policy, flows[..i + 1], now) == DueRecords(policy, flows[..i], now)
    ensures LiveFlows(policy, flows[..i + 1], now) == LiveFlows(policy, flows[..i], now) + [flows[i]]
  {
    assert flows[..i + 1] == flows[..i] + [flows[i]];
    assert !IsDue(policy, now)(flows[i]);
    assert IsLive(policy, now)(flows[i]);
    FilterAppend(flows[..i], flows[i], IsDue(policy, now));
    assert Filter(flows[..i], IsDue(policy, now)) + [] == Filter(flows[..i], IsDue(policy, now));
    FilterAppend(flows[..i], flows[i], IsLive(policy, now));
  }

  lemma {:induction false} SweepIs(policy: Policy, table: Table, now: int)
    ensures
      var records := DueRecords(policy, table.flows, now);
      && RecordsOf(CloseDue(policy, table, now).1) == records
      && CloseDue(policy, table, now).0 ==
         table.(flows := LiveFlows(policy, table.flows, now), closed := table.closed + |records|)
  {
    RecordsCount(CloseDue(policy, table, now).1);
  }

  lemma {:induction false} FlushStep(flows: seq<Flow>, i: nat)
    requires i < |flows|
    ensures RecordsOf(Flushing(flows[..i + 1])) == RecordsOf(Flushing(flows[..i])) + [RecordOf(Closed(flows[i], Flushed))]
  {
    assert flows[..i + 1] == flows[..i] + [flows[i]];
    assert Front(flows[..i + 1]) == flows[..i];
  }

  function Published(answer: Result<seq<Closed>, FeedError>): Result<seq<Record>, FeedError> {
    match answer
    case Err(e) => Err(e)
    case Ok(closing) => Ok(RecordsOf(closing))
  }

  // ---- The builder's objects ----

  class ActiveFlow {
    const key: Key
    const first: int
    var last: int
    var packetCount: nat
    var fwdCount: nat
    var bwdCount: nat
    var byteCount: int
    var fwdBytes: int
    var bwdBytes: int
    var synCount: nat
    var ackCount: nat
    var rstCount: nat
    var finSeen: bool
    var lengths: seq<real>
    var gaps: seq<int>
    ghost var packets: seq<Packet>

    ghost function Model(): Flow
      reads this
    {
      Flow(key, first, last, packetCount, fwdCount, bwdCount, byteCount, fwdBytes, bwdBytes,
           synCount, ackCount, rstCount, finSeen, lengths, gaps, packets)
    }

    constructor (k: Key, now: int)
      ensures Model() == NewFlow(k, now)
    {
      key, first, last := k, now, now;
      packetCount, fwdCount, bwdCount := 0, 0, 0;
      byteCount, fwdBytes, bwdBytes := 0, 0, 0;
      synCount, ackCount, rstCount := 0, 0, 0;
      finSeen, lengths, gaps, packets := false, [], [], [];
    }

    method MoveTo(now: int)
      modifies this`last, this`gaps
      ensures last == now
      ensures gaps == if now > old(last) then old(gaps) + [now - old(last)] else old(gaps)
    {
      if now > last {
        gaps := gaps + [now - last];
      }
      last := now;
    }

    /** Counts a packet in the direction it travels. */
    method CountDirection(forward: bool, size: int)
      modifies this`fwdCount, this`bwdCount, this`fwdBytes, this`bwdBytes
      ensures fwdCount == old(fwdCount) + OneIf(forward) && bwdCount == old(bwdCount) + OneIf(!forward)
      ensures fwdBytes == if forward then old(fwdBytes) + size else old(fwdBytes)
      ensures bwdBytes == if forward then old(bwdBytes) else old(bwdBytes) + size
    {
      if forward {
        fwdCount := fwdCount + 1;
        fwdBytes := fwdBytes + size;
      } else {
        bwdCount := bwdCount + 1;
        bwdBytes := bwdBytes + size;
      }
    }

    method CountFlags(flags: set<string>)
      modifies this`synCount, this`ackCount, this`rstCount, this`finSeen
      ensures synCount == old(synCount) + OneIf("SYN" in flags)
      ensures ackCount == old(ackCount) + OneIf("ACK" in flags)
      ensures rstCount == old(rstCount) + OneIf("RST" in flags)
      ensures finSeen == (old(finSeen) || "FIN" in flags)
    {
      synCount := synCount + OneIf("SYN" in flags);
      ackCount := ackCount + OneIf("ACK" in flags);
      rstCount := rstCount + OneIf("RST" in flags);
      finSeen := finSeen || "FIN" in flags;
    }

    method CountPacket(p: Packet)
      requires p.timestamp >= last
      modifies this
      ensures Ok(Model()) == Add(old(Model()), p)
    {
      MoveTo(p.timestamp);
      packetCount := packetCount + 1;
      byteCount := byteCount + p.length.Floor;
      lengths := lengths + [p.length];
      CountDirection(p.source == key.forward, p.length.Floor);
      CountFlags(p.flags);
      packets := packets + [p];
    }

    method AddPacket(p: Packet) returns (error: Option<FeedError>)
      modifies this
      ensures match Add(old(Model()), p)
              case Err(e) => error == Some(e) && Model() == old(Model())
              case Ok(f) => error == None && Model() == f
    {
      if p.timestamp < last {
        error := Some(FlowBackwards);
      } else {
        CountPacket(p);
        error := None;
      }
    }

    method MakeRecord(reason: Reason) returns (r: Record)
      ensures r == RecordOf(Closed(Model(), reason))
    {
      r := Record(key, first / DAY, first, last, last - first, fwdCount, bwdCount, fwdBytes, bwdBytes,
                  MeanGap(gaps), synCount, ackCount, rstCount, MeanLength(lengths), reason);
    }
  }

  ghost predicate Distinct(flows: seq<ActiveFlow>) {
    forall i, j :: 0 <= i < j < |flows| ==> flows[i] != flows[j]
  }

  /** `kept` are flows that come before the i-th. */
  ghost predicate Earlier(kept: seq<ActiveFlow>, flows: seq<ActiveFlow>, i: nat)
    requires i <= |flows|
  {
    Distinct(kept) && forall j :: 0 <= j < |kept| ==> kept[j] in flows[..i]
  }

  class FlowBuilder {
    const policy: Policy
    var flows: seq<ActiveFlow>
    var lastEvent: Option<int>
    var created: nat
    var closed: nat

    ghost predicate Valid()
      reads this
    {
      Distinct(flows)
    }

    static ghost function Models(flows: seq<ActiveFlow>): seq<Flow>
      reads flows
    {
      seq(|flows|, i requires 0 <= i < |flows| reads flows => flows[i].Model())
    }

    ghost function Model(): Table
      reads this, flows
    {
      Table(Models(flows), lastEvent, created, closed)
    }

    constructor (policy: Policy)
      requires Positive(policy)
      ensures Valid() && Model() == EMPTY_TABLE && this.policy == policy
    {
      this.policy := policy;
      flows, lastEvent, created, closed := [], None, 0, 0;
    }

    /** Looks at every flow, in order: what stays and the records of what goes. */
    method Sweep(now: int) returns (kept: seq<ActiveFlow>, records: seq<Record>)
      requires Valid()
      ensures Earlier(kept, flows, |flows|)
      ensures Models(kept) == LiveFlows(policy, Models(flows), now)
      ensures records == DueRecords(policy, Models(flows), now)
    {
      ghost var models := Models(flows);
      kept, records := [], [];
      for i := 0 to |flows|
        invariant Earlier(kept, flows, i)
        invariant Models(kept) == LiveFlows(policy, models[..i], now)
        invariant records == DueRecords(policy, models[..i], now)
      {
        var f := flows[i];
        var idleDue := now - f.last >= policy.idleSeconds * SECOND;
        var activeDue := now - f.first >= policy.activeSeconds * SECOND;
        if idleDue || activeDue {
          DueStep(policy, models, i, now);
          var record := f.MakeRecord(if idleDue then IdleTimeout else ActiveTimeout);
          records := records + [record];
        } else {
          LiveStep(policy, models, i, now);
          assert Models(kept + [f]) == Models(kept) + [models[i]];
          kept := kept + [f];
        }
      }
      assert models[..|flows|] == models;
    }

    method CloseDueFlows(now: int) returns (records: seq<Record>)
      requires Valid()
      modifies this`flows, this`closed
      ensures Valid() && forall j :: 0 <= j < |flows| ==> flows[j] in old(flows)
      ensures Model() == CloseDue(policy, old(Model()), now).0
      ensures records == RecordsOf(CloseDue(policy, old(Model()), now).1)
    {
      SweepIs(policy, Model(), now);
      var kept, expired := Sweep(now);
      records := expired;
      closed := closed + |records|;
      flows := kept;
    }

    method Find(k: Key) returns (i: nat)
      ensures i == IndexOf(Models(flows), k)
    {
      i := 0;
      while i < |flows| && flows[i].key != k
        invariant i <= |flows|
        invariant IndexOf(Models(flows), k) == i + IndexOf(Models(flows)[i..], k)
      {
        assert Models(flows)[i..][1..] == Models(flows)[i + 1..];
        i := i + 1;
      }
    }

    method TrackFlow(k: Key, now: int) returns (i: nat)
      requires Valid()
      modifies this`flows, this`created
      ensures Valid() && i < |flows| && i == IndexOf(old(Models(flows)), k)
      ensures forall j :: 0 <= j < |flows| ==> flows[j] in old(flows) || fresh(flows[j])
      ensures Model() == Tracking(old(Model()), k, now)
    {
      i := Find(k);
      if i == |flows| {
        var flow := new ActiveFlow(k, now);
        flows := flows + [flow];
        created := created + 1;
      }
    }

    method RemoveFlow(i: nat)
      requires Valid() && i < |flows|
      modifies this`flows, this`closed
      ensures Valid()
      ensures Model() == old(Model()).(flows := Removed(old(Model()).flows, i), closed := old(closed) + 1)
    {
      flows := flows[..i] + flows[i + 1..];
      closed := closed + 1;
    }

    method AddTo(i: nat, p: Packet) returns (error: Option<FeedError>)
      requires Valid() && i < |flows|
      modifies flows[i]
      ensures match Add(old(Model()).flows[i], p)
              case Err(e) => error == Some(e) && Model() == old(Model())
              case Ok(f) => error == None && Model() == old(Model()).(flows := old(Model()).flows[i := f])
    {
      ghost var before := Models(flows);
      error := flows[i].AddPacket(p);
      assert forall j :: 0 <= j < |flows| && j != i ==> Models(flows)[j] == before[j];
      assert error == None ==> Models(flows) == before[i := flows[i].Model()];
      assert error != None ==> Models(flows) == before;
    }

    /** Closes the packet's flow on RST or FIN. */
    method CloseEnded(i: nat, p: Packet, due: seq<Record>, ghost expired: seq<Closed>) returns (records: seq<Record>)
      requires Valid() && i < |flows| && due == RecordsOf(expired)
      modifies this`flows, this`closed
      ensures Valid()
      ensures if Ending(p) then
                && Model() == old(Model()).(flows := Removed(old(Model()).flows, i), closed := old(closed) + 1)
                && records == RecordsOf(expired + [Closed(old(Model()).flows[i], if "RST" in p.flags then Rst else Fin)])
              else Model() == old(Model()) && records == due
    {
      records := due;
      if "RST" in p.flags || "FIN" in p.flags {
        var reason := if "RST" in p.flags then Rst else Fin;
        var record := flows[i].MakeRecord(reason);
        records := due + [record];
        RemoveFlow(i);
      }
    }

    method SettlePacket(i: nat, p: Packet, due: seq<Record>, ghost expired: seq<Closed>)
      returns (result: Result<seq<Record>, FeedError>)
      requires Valid() && i < |flows| && due == RecordsOf(expired)
      modifies this`flows, this`closed, flows[i]
      ensures Valid()
      ensures (Model(), result) == var (after, answer) := Settle(old(Model()), i, expired, p); (after, Published(answer))
    {
      ghost var tracked := Model();
      var error := AddTo(i, p);
      if error.Some? {
        result := Err(error.value);
      } else {
        SettleOutcome(tracked, i, expired, p, Add(tracked.flows[i], p).value);
        SettledAfterUpdate(tracked, i, expired, p, Add(tracked.flows[i], p).value, Model());
        var records := CloseEnded(i, p, due, expired);
        result := Ok(records);
      }
    }

    /** What follows the sweep of one packet. */
    method TakePacket(p: Packet, due: seq<Record>, ghost expired: seq<Closed>) returns (result: Result<seq<Record>, FeedError>)
      requires Valid() && due == RecordsOf(expired)
      modifies this`flows, this`created, this`closed, flows
      ensures Valid()
      ensures Model() == Take(policy, old(Model()), expired, p).0
      ensures result == Published(Take(policy, old(Model()), expired, p).1)
    {
      var k := KeyOf(p);
      var known := Find(k);
      if known == |flows| && |flows| >= policy.maxFlows {
        result := Err(TableOverflow);
      } else {
        var i := TrackFlow(k, p.timestamp);
        result := SettlePacket(i, p, due, expired);
      }
    }

    method FeedEvent(raw: RawEvent) returns (result: Result<seq<Record>, FeedError>)
      requires Valid()
      modifies this, flows
      ensures Valid()
      ensures Model() == Feed(policy, old(Model()), raw).0
      ensures result == Published(Feed(policy, old(Model()), raw).1)
    {
      var normalized := Normalize(raw);
      if normalized.Err? {
        return Err(InvalidEvent(normalized.error));
      }
      var p := normalized.value;
      if lastEvent.Some? && p.timestamp < lastEvent.value {
        return Err(NotChronological);
      }
      lastEvent := Some(p.timestamp);
      ghost var expired := CloseDue(policy, Model(), p.timestamp).1;
      var due := CloseDueFlows(p.timestamp);
      result := TakePacket(p, due, expired);
    }

    method FlushRecords() returns (records: seq<Record>)
      ensures records == RecordsOf(Flushing(Models(flows))) && |records| == |flows|
    {
      ghost var models := Models(flows);
      records := [];
      for i := 0 to |flows|
        invariant |records| == i && records == RecordsOf(Flushing(models[..i]))
      {
        var record := flows[i].MakeRecord(Flushed);
        FlushStep(models, i);
        records := records + [record];
      }
      assert models[..|flows|] == models;
    }

    method FlushFlows() returns (records: seq<Record>)
      requires Valid()
      modifies this`flows, this`closed
      ensures Valid() && Model() == Flush(old(Model())).0
      ensures records == RecordsOf(Flush(old(Model())).1)
    {
      records := FlushRecords();
      closed := closed + |records|;
      flows := [];
    }
  }
}
