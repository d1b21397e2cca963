/** What the flow builder computes, key by key: the packets of each conversation cut into segments
    by its own gaps, spans and endings alone. */
module FlowSegments {
  import opened Prelude
  import opened PacketEvents
  import opened FlowBuilders

  // ---- The specification: cutting one conversation ----

  /** Whether a segment is over by time `now`: ended by a flag, idle too long or active too long. */
  predicate Over(policy: Policy, segment: seq<Packet>, now: int)
    requires segment != []
  {
    || Ending(Last(segment))
    || now - Last(segment).timestamp >= policy.idleSeconds * SECOND
    || now - segment[0].timestamp >= policy.activeSeconds * SECOND
  }

  /** Each packet extends the last segment unless that one is over by its time. */
  function Cut(policy: Policy, packets: seq<Packet>): (segments: seq<seq<Packet>>)
    ensures forall i :: 0 <= i < |segments| ==> segments[i] != []
  {
    if packets == [] then []
    else
      var segments, p := Cut(policy, Front(packets)), Last(packets);
      if segments == [] || Over(policy, Last(segments), p.timestamp) then segments + [[p]]
      else Front(segments) + [Last(segments) + [p]]
  }

  lemma {:induction false} CutAppend(policy: Policy, packets: seq<Packet>, p: Packet)
    ensures
      var segments := Cut(policy, packets);
      Cut(policy, packets + [p]) ==
        if segments == [] || Over(policy, Last(segments), p.timestamp) then segments + [[p]]
        else Front(segments) + [Last(segments) + [p]]
  {
    assert Front(packets + [p]) == packets;
  }

  /** Cutting loses and reorders nothing. */
  lemma {:induction false} CutLosesNothing(policy: Policy, packets: seq<Packet>)
    ensures Flatten(Cut(policy, packets)) == packets
  {
    if packets != [] {
      var segments, p := Cut(policy, Front(packets)), Last(packets);
      CutLosesNothing(policy, Front(packets));
      assert packets == Front(packets) + [p];
      if segments == [] || Over(policy, Last(segments), p.timestamp) {
        FlattenAppend(segments, [p]);
      } else {
        FlattenAppend(Front(segments), Last(segments) + [p]);
      }
    }
  }

  /** Inside a segment no packet but the last ends it, gaps stay below the idle timeout and the
      span below the active timeout. */
  ghost predicate Compact(policy: Policy, segment: seq<Packet>) {
    && (forall i :: 0 <= i < |segment| - 1 ==>
          && !Ending(segment[i])
          && segment[i + 1].timestamp - segment[i].timestamp < policy.idleSeconds * SECOND)
    && (segment != [] ==> Last(segment).timestamp - segment[0].timestamp < policy.activeSeconds * SECOND)
  }

  lemma {:induction false} SegmentsAreCompact(policy: Policy, packets: seq<Packet>)
    requires Positive(policy)
    ensures forall i :: 0 <= i < |Cut(policy, packets)| ==> Compact(policy, Cut(policy, packets)[i])
  {
    if packets != [] {
      var segments, p := Cut(policy, Front(packets)), Last(packets);
      SegmentsAreCompact(policy, Front(packets));
      if segments != [] && !Over(policy, Last(segments), p.timestamp) {
        GrowingKeepsCompact(policy, Last(segments), p);
      }
    }
  }

  lemma {:induction false} GrowingKeepsCompact(policy: Policy, segment: seq<Packet>, p: Packet)
    requires segment != [] && Compact(policy, segment) && !Over(policy, segment, p.timestamp)
    ensures Compact(policy, segment + [p])
  {
  }

  /** Adjacent segments are cut only where the first is over when the second starts. */
  ghost predicate Forced(policy: Policy, segments: seq<seq<Packet>>) {
    && (forall i :: 0 <= i < |segments| ==> segments[i] != [])
    && (forall i, j :: 0 <= i && j == i + 1 < |segments| ==> Over(policy, segments[i], segments[j][0].timestamp))
  }

  lemma {:induction false} CutsAreForced(policy: Policy, packets: seq<Packet>)
    ensures Forced(policy, Cut(policy, packets))
  {
    if packets != [] {
      CutsAreForced(policy, Front(packets));
    }
  }

  // ---- One key's share of a session ----

  function InKey(k: Key): Packet -> bool {
    (p: Packet) => KeyOf(p) == k
  }

  function OfKey(k: Key): Flow -> bool {
    (f: Flow) => f.key == k
  }

  function ClosedOf(k: Key): Closed -> bool {
    (c: Closed) => c.flow.key == k
  }

  function Histories(flows: seq<Flow>): seq<seq<Packet>> {
    if flows == [] then [] else Histories(Front(flows)) + [Last(flows).packets]
  }

  function Returned(closed: seq<Closed>): seq<seq<Packet>> {
    if closed == [] then [] else Returned(Front(closed)) + [Last(closed).flow.packets]
  }

  lemma {:induction false} ReturnedConcat(xs: seq<Closed>, ys: seq<Closed>)
    ensures Returned(xs + ys) == Returned(xs) + Returned(ys)
  {
    if ys == [] {
      assert xs + ys == xs;
    } else {
      ReturnedConcat(xs, Front(ys));
      assert Front(xs + ys) == xs + Front(ys);
    }
  }

  /** The sweep's records of one key are the swept flows of that key. */
  lemma {:induction false} TimedOfKey(policy: Policy, flows: seq<Flow>, now: int, k: Key)
    ensures Filter(Timed(policy, flows, now), ClosedOf(k)) == Timed(policy, Filter(flows, OfKey(k)), now)
  {
    if flows != [] {
      TimedOfKey(policy, Front(flows), now, k);
      var f := Last(flows);
      FilterAppend(Timed(policy, Front(flows), now),
                   Closed(f, if IdleDue(policy, f, now) then IdleTimeout else ActiveTimeout), ClosedOf(k));
      if f.key == k {
        assert Front(Filter(Front(flows), OfKey(k)) + [f]) == Filter(Front(flows), OfKey(k));
        assert Filter(flows, OfKey(k)) == Filter(Front(flows), OfKey(k)) + [f];
      } else {
        assert Filter(flows, OfKey(k)) == Filter(Front(flows), OfKey(k));
      }
    }
  }

  lemma {:induction false} FlushingOfKey(flows: seq<Flow>, k: Key)
    ensures Filter(Flushing(flows), ClosedOf(k)) == Flushing(Filter(flows, OfKey(k)))
  {
    if flows != [] {
      FlushingOfKey(Front(flows), k);
      var f := Last(flows);
      FilterAppend(Flushing(Front(flows)), Closed(f, Flushed), ClosedOf(k));
      if f.key == k {
        assert Front(Filter(Front(flows), OfKey(k)) + [f]) == Filter(Front(flows), OfKey(k));
        assert Filter(flows, OfKey(k)) == Filter(Front(flows), OfKey(k)) + [f];
      } else {
        assert Filter(flows, OfKey(k)) == Filter(Front(flows), OfKey(k));
      }
    }
  }

  lemma {:induction false} ReturnedByClosing(policy: Policy, flows: seq<Flow>, now: int)
    ensures Returned(Timed(policy, flows, now)) == Histories(flows)
    ensures Returned(Flushing(flows)) == Histories(flows)
    ensures |Timed(policy, flows, now)| == |Flushing(flows)| == |flows|
  {
    if flows != [] {
      ReturnedByClosing(policy, Front(flows), now);
      assert Front(Timed(policy, flows, now)) == Timed(policy, Front(flows), now);
      assert Front(Flushing(flows)) == Flushing(Front(flows));
    }
  }

  // ---- The table: distinct keys in the order of creation ----

  ghost predicate InCreationOrder(flows: seq<Flow>) {
    forall i, j :: 0 <= i < j < |flows| ==> flows[i].key != flows[j].key && flows[i].first <= flows[j].first
  }

  /** A tracked flow is the summary of its packets, all of its key, the last of which ended nothing. */
  ghost predicate Tracked(f: Flow, now: Option<int>) {
    && Summarizes(f)
    && !Ending(Last(f.packets))
    && (forall i :: 0 <= i < |f.packets| ==> KeyOf(f.packets[i]) == f.key)
    && now.Some? && f.first <= f.last <= now.value
  }

  ghost predicate AllTracked(flows: seq<Flow>, now: Option<int>) {
    forall i :: 0 <= i < |flows| ==> Tracked(flows[i], now)
  }

  ghost predicate Sound(policy: Policy, table: Table) {
    && InCreationOrder(table.flows)
    && AllTracked(table.flows, table.lastEvent)
    && |table.flows| <= policy.maxFlows
    && table.created == table.closed + |table.flows|
  }

  lemma {:induction false} FilterKeepsOrder(flows: seq<Flow>, keep: Flow -> bool)
    requires InCreationOrder(flows)
    ensures InCreationOrder(Filter(flows, keep))
  {
    if flows != [] {
      var shorter, last := Front(flows), Last(flows);
      var kept := Filter(shorter, keep);
      FilterKeepsOrder(shorter, keep);
      forall i | 0 <= i < |kept|
        ensures kept[i].key != last.key && kept[i].first <= last.first
      {
        FilterKeepsExactly(shorter, keep, kept[i]);
        var j :| 0 <= j < |shorter| && shorter[j] == kept[i];
        assert flows[j] == kept[i];
      }
    }
  }

  lemma {:induction false} FilterKeepsTracked(flows: seq<Flow>, keep: Flow -> bool, now: Option<int>)
    requires AllTracked(flows, now)
    ensures AllTracked(Filter(flows, keep), now)
  {
    var kept := Filter(flows, keep);
    forall i | 0 <= i < |kept|
      ensures Tracked(kept[i], now)
    {
      FilterKeepsExactly(flows, keep, kept[i]);
    }
  }

  /** Every flow is either due or live. */
  lemma {:induction false} SweepSplits(policy: Policy, flows: seq<Flow>, now: int)
    ensures |Filter(flows, IsDue(policy, now))| + |Filter(flows, IsLive(policy, now))| == |flows|
  {
    if flows != [] {
      SweepSplits(policy, Front(flows), now);
    }
  }

  lemma {:induction false} FullFilterKeepsAll(flows: seq<Flow>, keep: Flow -> bool)
    requires |Filter(flows, keep)| == |flows|
    ensures Filter(flows, keep) == flows
  {
    if flows != [] {
      FilterIsShorter(Front(flows), keep);
      FullFilterKeepsAll(Front(flows), keep);
      assert flows == Front(flows) + [Last(flows)];
    }
  }

  lemma {:induction false} FilterIsShorter(flows: seq<Flow>, keep: Flow -> bool)
    ensures |Filter(flows, keep)| <= |flows|
  {
    if flows != [] {
      FilterIsShorter(Front(flows), keep);
    }
  }

  /** The flow at an index is the only one of its key. */
  lemma {:induction false} OnlyFlowOfKey(flows: seq<Flow>, i: nat, k: Key)
    requires InCreationOrder(flows) && i < |flows| && flows[i].key == k
    ensures Filter(flows[..i], OfKey(k)) == [] == Filter(flows[i + 1..], OfKey(k))
    ensures Filter(flows, OfKey(k)) == [flows[i]]
  {
    NoFlowOfKey(flows[..i], k);
    NoFlowOfKey(flows[i + 1..], k);
    FilterParts(flows, i, OfKey(k));
  }

  lemma {:induction false} NoFlowOfKey(flows: seq<Flow>, k: Key)
    requires forall i :: 0 <= i < |flows| ==> flows[i].key != k
    ensures Filter(flows, OfKey(k)) == []
  {
    if flows != [] {
      NoFlowOfKey(Front(flows), k);
    }
  }

  lemma {:induction false} FilterParts(flows: seq<Flow>, i: nat, keep: Flow -> bool)
    requires i < |flows|
    ensures Filter(flows, keep) ==
            Filter(flows[..i], keep) + (if keep(flows[i]) then [flows[i]] else []) + Filter(flows[i + 1..], keep)
  {
    assert flows == flows[..i] + [flows[i]] + flows[i + 1..];
    FilterConcat(flows[..i] + [flows[i]], flows[i + 1..], keep);
    FilterAppend(flows[..i], flows[i], keep);
  }

  lemma {:induction false} IndexFindsKey(flows: seq<Flow>, k: Key)
    ensures IndexOf(flows, k) == |flows| ==> forall i :: 0 <= i < |flows| ==> flows[i].key != k
  {
    if flows != [] && flows[0].key != k {
      IndexFindsKey(flows[1..], k);
      assert forall i :: 1 <= i < |flows| ==> flows[i] == flows[1..][i - 1];
    }
  }

  lemma {:induction false} ReplacingKeepsOtherKeys(flows: seq<Flow>, i: nat, f: Flow, k: Key)
    requires i < |flows| && flows[i].key == f.key
    ensures k != f.key ==> Filter(flows[i := f], OfKey(k)) == Filter(flows, OfKey(k))
    ensures InCreationOrder(flows) && k == f.key ==> Filter(flows[i := f], OfKey(k)) == [f]
  {
    var changed := flows[i := f];
    FilterParts(flows, i, OfKey(k));
    FilterParts(changed, i, OfKey(k));
    assert changed[..i] == flows[..i] && changed[i + 1..] == flows[i + 1..];
    if InCreationOrder(flows) && k == f.key {
      OnlyFlowOfKey(flows, i, k);
    }
  }

  lemma {:induction false} RemovingKeepsOtherKeys(flows: seq<Flow>, i: nat, k: Key)
    requires i < |flows|
    ensures k != flows[i].key ==> Filter(Removed(flows, i), OfKey(k)) == Filter(flows, OfKey(k))
    ensures InCreationOrder(flows) && k == flows[i].key ==> Filter(Removed(flows, i), OfKey(k)) == []
  {
    FilterParts(flows, i, OfKey(k));
    FilterConcat(flows[..i], flows[i + 1..], OfKey(k));
    if InCreationOrder(flows) && k == flows[i].key {
      OnlyFlowOfKey(flows, i, k);
    }
  }

  // ---- Taking one packet ----

  /** The packet's flow once it has the packet. */
  function Grown(flows: seq<Flow>, p: Packet): Flow {
    var i := IndexOf(flows, KeyOf(p));
    if i == |flows| then Summary(KeyOf(p), p.timestamp, [p])
    else Summary(KeyOf(p), flows[i].first, flows[i].packets + [p])
  }

  predicate Overflows(policy: Policy, flows: seq<Flow>, p: Packet) {
    IndexOf(flows, KeyOf(p)) == |flows| >= policy.maxFlows
  }

  lemma {:induction false} TrackedFlowGrows(f: Flow, p: Packet)
    requires Tracked(f, Some(p.timestamp))
    ensures Add(f, p) == Ok(Summary(f.key, f.first, f.packets + [p]))
  {
    AddKeepsSummary(f.key, f.first, f.packets, p);
  }

  lemma {:induction false} NewFlowGrows(k: Key, p: Packet)
    ensures Add(NewFlow(k, p.timestamp), p) == Ok(Summary(k, p.timestamp, [p]))
  {
    AddKeepsSummary(k, p.timestamp, [], p);
    assert [] + [p] == [p];
  }

  /** The packet goes into the one flow of its key; its timestamp is never behind that flow's. */
  lemma {:induction false} AddingGrows(swept: Table, p: Packet)
    requires AllTracked(swept.flows, Some(p.timestamp))
    ensures
      var i := IndexOf(swept.flows, KeyOf(p));
      Add(Tracking(swept, KeyOf(p), p.timestamp).flows[i], p) == Ok(Grown(swept.flows, p))
  {
    var flows, k := swept.flows, KeyOf(p);
    var i := IndexOf(flows, k);
    if i < |flows| {
      TrackedFlowGrows(flows[i], p);
    } else {
      NewFlowGrows(k, p);
    }
  }

  lemma {:induction false} TakeSettles(policy: Policy, swept: Table, due: seq<Closed>, p: Packet)
    requires !Overflows(policy, swept.flows, p)
    ensures
      var tracked := Tracking(swept, KeyOf(p), p.timestamp);
      var i := IndexOf(swept.flows, KeyOf(p));
      i < |tracked.flows| && Take(policy, swept, due, p) == Settle(tracked, i, due, p)
  {
  }

  /** The only error of a sound table is overflow. */
  lemma {:induction false} TakeOutcome(policy: Policy, swept: Table, due: seq<Closed>, p: Packet)
    requires AllTracked(swept.flows, Some(p.timestamp))
    ensures
      var tracked := Tracking(swept, KeyOf(p), p.timestamp);
      var i := IndexOf(swept.flows, KeyOf(p));
      var f := Grown(swept.flows, p);
      i < |tracked.flows| &&
      Take(policy, swept, due, p) ==
        if Overflows(policy, swept.flows, p) then (swept, Err(TableOverflow)) else Settled(tracked, i, due, p, f)
  {
    AddingGrows(swept, p);
    if !Overflows(policy, swept.flows, p) {
      TakeSettles(policy, swept, due, p);
      SettleOutcome(Tracking(swept, KeyOf(p), p.timestamp), IndexOf(swept.flows, KeyOf(p)), due, p, Grown(swept.flows, p));
    }
  }

  lemma {:induction false} GrownIsSummary(flows: seq<Flow>, p: Packet)
    requires AllTracked(flows, Some(p.timestamp))
    ensures
      var f := Grown(flows, p);
      && Summarizes(f) && f.key == KeyOf(p) && Last(f.packets) == p
      && f.first <= f.last == p.timestamp
      && (forall i :: 0 <= i < |f.packets| ==> KeyOf(f.packets[i]) == f.key)
  {
    var i := IndexOf(flows, KeyOf(p));
    if i < |flows| {
      GrownFlowIsSummary(flows[i], p);
    }
  }

  lemma {:induction false} GrownFlowIsSummary(f: Flow, p: Packet)
    requires Tracked(f, Some(p.timestamp)) && f.key == KeyOf(p)
    ensures
      var g := Summary(f.key, f.first, f.packets + [p]);
      && Summarizes(g) && Last(g.packets) == p && g.first <= g.last == p.timestamp
      && (forall i :: 0 <= i < |g.packets| ==> KeyOf(g.packets[i]) == f.key)
  {
    assert forall j :: 0 <= j < |f.packets| ==> f.packets[j].timestamp <= Last(f.packets).timestamp;
  }

  // ---- Soundness of the table ----

  lemma {:induction false} SweepKeepsSound(policy: Policy, table: Table, now: int)
    requires Sound(policy, table) && (table.lastEvent.Some? ==> table.lastEvent.value <= now)
    ensures
      var (swept, due) := CloseDue(policy, table.(lastEvent := Some(now)), now);
      && Sound(policy, swept)
      && (due == [] ==> swept == table.(lastEvent := Some(now)))
      && (due != [] ==> |swept.flows| < policy.maxFlows)
  {
    var flows := table.flows;
    FilterKeepsOrder(flows, IsLive(policy, now));
    FilterKeepsTracked(flows, IsLive(policy, now), Some(now));
    SweepCounts(policy, table.(lastEvent := Some(now)), now);
  }

  lemma {:induction false} SweepCounts(policy: Policy, table: Table, now: int)
    ensures
      var (swept, due) := CloseDue(policy, table, now);
      && |due| + |swept.flows| == |table.flows| && swept.closed == table.closed + |due|
      && (due == [] ==> swept == table)
  {
    SweepSplits(policy, table.flows, now);
    ReturnedByClosing(policy, Filter(table.flows, IsDue(policy, now)), now);
    if |Filter(table.flows, IsLive(policy, now))| == |table.flows| {
      FullFilterKeepsAll(table.flows, IsLive(policy, now));
    }
  }

  lemma {:induction false} RemovedAt(flows: seq<Flow>, i: nat, j: nat)
    requires i < |flows| && j < |Removed(flows, i)|
    ensures Removed(flows, i)[j] == flows[if j < i then j else j + 1]
  {
  }

  lemma {:induction false} RemovalKeepsOrder(flows: seq<Flow>, i: nat, now: Option<int>)
    requires i < |flows| && InCreationOrder(flows)
    requires forall j :: 0 <= j < |flows| && j != i ==> Tracked(flows[j], now)
    ensures InCreationOrder(Removed(flows, i)) && AllTracked(Removed(flows, i), now)
  {
    var rest := Removed(flows, i);
    forall j | 0 <= j < |rest|
      ensures Tracked(rest[j], now)
    {
      RemovedAt(flows, i, j);
    }
    forall j, m | 0 <= j < m < |rest|
      ensures rest[j].key != rest[m].key && rest[j].first <= rest[m].first
    {
      RemovedAt(flows, i, j);
      RemovedAt(flows, i, m);
    }
  }

  lemma {:induction false} TrackingKeepsOrder(swept: Table, p: Packet)
    requires InCreationOrder(swept.flows) && AllTracked(swept.flows, Some(p.timestamp))
    ensures
      var tracked := Tracking(swept, KeyOf(p), p.timestamp).flows;
      var i := IndexOf(swept.flows, KeyOf(p));
      && i < |tracked| && tracked[i].key == KeyOf(p)
      && InCreationOrder(tracked)
      && tracked[i].first == Grown(swept.flows, p).first
      && forall j :: 0 <= j < |tracked| && j != i ==> Tracked(tracked[j], Some(p.timestamp))
  {
    IndexFindsKey(swept.flows, KeyOf(p));
    forall j | 0 <= j < |swept.flows|
      ensures swept.flows[j].first <= p.timestamp
    {
      assert Tracked(swept.flows[j], Some(p.timestamp));
    }
  }

  lemma {:induction false} ReplacementKeepsOrder(flows: seq<Flow>, i: nat, f: Flow, now: Option<int>)
    requires i < |flows| && InCreationOrder(flows)
    requires flows[i].key == f.key && flows[i].first == f.first && Tracked(f, now)
    requires forall j :: 0 <= j < |flows| && j != i ==> Tracked(flows[j], now)
    ensures InCreationOrder(flows[i := f]) && AllTracked(flows[i := f], now)
  {
  }

  lemma {:induction false} TakeKeepsSound(policy: Policy, swept: Table, due: seq<Closed>, p: Packet)
    requires Sound(policy, swept) && swept.lastEvent == Some(p.timestamp)
    ensures Sound(policy, Take(policy, swept, due, p).0)
    ensures Take(policy, swept, due, p).1.Err? <==> Overflows(policy, swept.flows, p)
  {
    TakeOutcome(policy, swept, due, p);
    if !Overflows(policy, swept.flows, p) {
      var tracked := Tracking(swept, KeyOf(p), p.timestamp);
      var i := IndexOf(swept.flows, KeyOf(p));
      TrackingKeepsOrder(swept, p);
      GrownIsSummary(swept.flows, p);
      if Ending(p) {
        RemovalKeepsOrder(tracked.flows, i, swept.lastEvent);
      } else {
        ReplacementKeepsOrder(tracked.flows, i, Grown(swept.flows, p), swept.lastEvent);
      }
    }
  }

  /** Whatever event comes, the table stays sound; and an event is refused for overflow only when
      its sweep closed nothing, so no record is lost. */
  lemma {:induction false} FeedKeepsSound(policy: Policy, table: Table, raw: RawEvent)
    requires Sound(policy, table)
    ensures
      var (after, result) := Feed(policy, table, raw);
      && Sound(policy, after)
      && (result.Err? ==> result.error != FlowBackwards)
      && (result.Err? ==> after == table || (result.error == TableOverflow && after == table.(lastEvent := after.lastEvent)))
  {
    if Normalize(raw).Ok? {
      var p := Normalize(raw).value;
      if !(table.lastEvent.Some? && p.timestamp < table.lastEvent.value) {
        SweepKeepsSound(policy, table, p.timestamp);
        var (swept, due) := CloseDue(policy, table.(lastEvent := Some(p.timestamp)), p.timestamp);
        TakeKeepsSound(policy, swept, due, p);
        TakeOutcome(policy, swept, due, p);
      }
    }
  }

  // ---- Every key's records are its segments ----

  /** What was returned, then what is live, are the segments; and a last segment that is not live
      any more is over. */
  ghost predicate Share(policy: Policy, done: seq<seq<Packet>>, live: seq<Flow>, segments: seq<seq<Packet>>, now: Option<int>) {
    && |live| <= 1
    && done + Histories(live) == segments
    && (live == [] && segments != [] && Last(segments) != [] ==> now.Some? && Over(policy, Last(segments), now.value))
  }

  ghost predicate Follows(policy: Policy, k: Key, closed: seq<Closed>, flows: seq<Flow>, accepted: seq<Packet>,
                          now: Option<int>)
  {
    Share(policy, Returned(Filter(closed, ClosedOf(k))), Filter(flows, OfKey(k)),
          Cut(policy, Filter(accepted, InKey(k))), now)
  }

  /** What is tracked for `k` is not over yet. */
  ghost predicate Current(policy: Policy, k: Key, flows: seq<Flow>, now: int) {
    var live := Filter(flows, OfKey(k));
    live != [] ==> live[0].packets != [] && !Over(policy, live[0].packets, now)
  }

  lemma {:induction false} HistoriesOfOne(flows: seq<Flow>)
    requires |flows| <= 1
    ensures Histories(flows) == if flows == [] then [] else [flows[0].packets]
  {
    if flows != [] {
      assert Front(flows) == [];
    }
  }

  lemma {:induction false} FilterOne(flows: seq<Flow>, keep: Flow -> bool)
    requires |flows| <= 1
    ensures Filter(flows, keep) == if flows != [] && keep(flows[0]) then [flows[0]] else []
  {
    if flows != [] {
      assert Front(flows) == [];
    }
  }

  /** The sweep's share of one key. */
  lemma {:induction false} SweptOfKey(policy: Policy, k: Key, closed: seq<Closed>, flows: seq<Flow>, now: int)
    ensures
      var live := Filter(flows, OfKey(k));
      var due := Timed(policy, Filter(flows, IsDue(policy, now)), now);
      && Filter(Filter(flows, IsLive(policy, now)), OfKey(k)) == Filter(live, IsLive(policy, now))
      && Returned(Filter(closed + due, ClosedOf(k)))
         == Returned(Filter(closed, ClosedOf(k))) + Histories(Filter(live, IsDue(policy, now)))
  {
    var live := Filter(flows, OfKey(k));
    var gone := Filter(flows, IsDue(policy, now));
    FilterCommutes(flows, IsLive(policy, now), OfKey(k));
    FilterCommutes(flows, IsDue(policy, now), OfKey(k));
    FilterConcat(closed, Timed(policy, gone, now), ClosedOf(k));
    TimedOfKey(policy, gone, now, k);
    ReturnedConcat(Filter(closed, ClosedOf(k)), Timed(policy, Filter(live, IsDue(policy, now)), now));
    ReturnedByClosing(policy, Filter(live, IsDue(policy, now)), now);
  }

  lemma {:induction false} SweepKeepsLive(policy: Policy, done: seq<seq<Packet>>, f: Flow,
                                          segments: seq<seq<Packet>>, before: Option<int>, now: int)
    requires Share(policy, done, [f], segments, before) && Tracked(f, before)
    ensures if Over(policy, f.packets, now) then Share(policy, done + [f.packets], [], segments, Some(now))
            else Share(policy, done, [f], segments, Some(now))
  {
    HistoriesOfOne([f]);
    HistoriesOfOne([]);
    assert done + [f.packets] + [] == done + [f.packets];
    assert Last(done + [f.packets]) == f.packets;
  }

  lemma {:induction false} SweepOfOne(policy: Policy, f: Flow, before: Option<int>, now: int)
    requires Tracked(f, before)
    ensures Filter([f], IsLive(policy, now)) == if Over(policy, f.packets, now) then [] else [f]
    ensures Histories(Filter([f], IsDue(policy, now))) == if Over(policy, f.packets, now) then [f.packets] else []
  {
    FilterOne([f], IsDue(policy, now));
    FilterOne([f], IsLive(policy, now));
    HistoriesOfOne(Filter([f], IsDue(policy, now)));
  }

  lemma {:induction false} SweepKeepsShare(policy: Policy, done: seq<seq<Packet>>, live: seq<Flow>,
                                           segments: seq<seq<Packet>>, before: Option<int>, now: int)
    requires Share(policy, done, live, segments, before) && (live != [] ==> Tracked(live[0], before))
    requires before.Some? ==> before.value <= now
    ensures
      var left := Filter(live, IsLive(policy, now));
      && Share(policy, done + Histories(Filter(live, IsDue(policy, now))), left, segments, Some(now))
      && (left != [] ==> left[0].packets != [] && !Over(policy, left[0].packets, now))
  {
    assert done + [] == done;
    if live != [] {
      var f := live[0];
      assert live == [f];
      SweepOfOne(policy, f, before, now);
      SweepKeepsLive(policy, done, f, segments, before, now);
    }
  }

  lemma {:induction false} SweepFollows(policy: Policy, k: Key, closed: seq<Closed>, flows: seq<Flow>,
                                        accepted: seq<Packet>, before: Option<int>, now: int)
    requires Follows(policy, k, closed, flows, accepted, before) && AllTracked(flows, before)
    requires before.Some? ==> before.value <= now
    ensures
      var due := Timed(policy, Filter(flows, IsDue(policy, now)), now);
      var left := Filter(flows, IsLive(policy, now));
      Follows(policy, k, closed + due, left, accepted, Some(now)) && Current(policy, k, left, now)
  {
    SweptOfKey(policy, k, closed, flows, now);
    FilterKeepsTracked(flows, OfKey(k), before);
    SweepKeepsShare(policy, Returned(Filter(closed, ClosedOf(k))), Filter(flows, OfKey(k)),
                    Cut(policy, Filter(accepted, InKey(k))), before, now);
  }

  /** The tracked flows of `k` after a packet is taken. */
  lemma {:induction false} TakenLive(policy: Policy, k: Key, swept: Table, due: seq<Closed>, p: Packet)
    requires Sound(policy, swept) && swept.lastEvent == Some(p.timestamp)
    requires !Overflows(policy, swept.flows, p)
    ensures
      var (after, result) := Take(policy, swept, due, p);
      && result.Ok? && after.lastEvent == swept.lastEvent
      && Filter(after.flows, OfKey(k)) ==
         if KeyOf(p) != k then Filter(swept.flows, OfKey(k))
         else if Ending(p) then [] else [Grown(swept.flows, p)]
  {
    TakeOutcome(policy, swept, due, p);
    TrackingKeepsOrder(swept, p);
    FilterAppend(swept.flows, NewFlow(KeyOf(p), p.timestamp), OfKey(k));
    var tracked := Tracking(swept, KeyOf(p), p.timestamp).flows;
    var i := IndexOf(swept.flows, KeyOf(p));
    if Ending(p) {
      RemovingKeepsOtherKeys(tracked, i, k);
    } else {
      ReplacingKeepsOtherKeys(tracked, i, Grown(swept.flows, p), k);
    }
  }

  lemma {:induction false} ReturnedOfKey(closed: seq<Closed>, c: Closed, k: Key)
    ensures Returned(Filter(closed + [c], ClosedOf(k))) ==
            if c.flow.key == k then Returned(Filter(closed, ClosedOf(k))) + [c.flow.packets]
            else Returned(Filter(closed, ClosedOf(k)))
  {
    FilterAppend(closed, c, ClosedOf(k));
    var before := Filter(closed, ClosedOf(k));
    assert Front(before + [c]) == before;
    assert before + [] == before;
  }

  /** What has been returned for `k` after a packet is taken. */
  lemma {:induction false} TakenReturned(policy: Policy, k: Key, closed: seq<Closed>, swept: Table, due: seq<Closed>,
                                         p: Packet)
    requires Sound(policy, swept) && swept.lastEvent == Some(p.timestamp)
    requires !Overflows(policy, swept.flows, p)
    ensures
      var result := Take(policy, swept, due, p).1;
      && result.Ok?
      && Returned(Filter(closed + result.value, ClosedOf(k))) ==
         if KeyOf(p) == k && Ending(p)
         then Returned(Filter(closed + due, ClosedOf(k))) + [Grown(swept.flows, p).packets]
         else Returned(Filter(closed + due, ClosedOf(k)))
  {
    TakeOutcome(policy, swept, due, p);
    if Ending(p) {
      var c := Closed(Grown(swept.flows, p), if "RST" in p.flags then Rst else Fin);
      ReturnedOfKey(closed + due, c, k);
      ConcatIsAssociative(closed, due, [c]);
    }
  }

  /** A conversation whose segments are all over starts a new one. */
  lemma {:induction false} CutStarts(policy: Policy, packets: seq<Packet>, p: Packet, done: seq<seq<Packet>>)
    requires Cut(policy, packets) == done
    requires done != [] && Last(done) != [] ==> Over(policy, Last(done), p.timestamp)
    ensures Cut(policy, packets + [p]) == done + [[p]]
  {
    CutAppend(policy, packets, p);
  }

  /** A conversation whose last segment is not over extends it. */
  lemma {:induction false} CutExtends(policy: Policy, packets: seq<Packet>, p: Packet, done: seq<seq<Packet>>,
                                      segment: seq<Packet>)
    requires Cut(policy, packets) == done + [segment]
    requires segment != [] && !Over(policy, segment, p.timestamp)
    ensures Cut(policy, packets + [p]) == done + [segment + [p]]
  {
    CutAppend(policy, packets, p);
    assert Front(done + [segment]) == done && Last(done + [segment]) == segment;
  }

  /** The packet's key: its segments before and after. */
  lemma {:induction false} GrownSegments(policy: Policy, k: Key, closed: seq<Closed>, flows: seq<Flow>,
                                         accepted: seq<Packet>, p: Packet)
    requires InCreationOrder(flows) && k == KeyOf(p)
    requires Follows(policy, k, closed, flows, accepted, Some(p.timestamp)) && Current(policy, k, flows, p.timestamp)
    ensures
      Cut(policy, Filter(accepted + [p], InKey(k))) ==
        Returned(Filter(closed, ClosedOf(k))) + [Grown(flows, p).packets]
  {
    var done := Returned(Filter(closed, ClosedOf(k)));
    var mine := Filter(accepted, InKey(k));
    FilterAppend(accepted, p, InKey(k));
    SegmentsBefore(policy, k, closed, flows, accepted, p);
    var i := IndexOf(flows, k);
    if i < |flows| {
      CutExtends(policy, mine, p, done, flows[i].packets);
    } else {
      CutStarts(policy, mine, p, done);
    }
  }

  lemma {:induction false} SegmentsBefore(policy: Policy, k: Key, closed: seq<Closed>, flows: seq<Flow>,
                                          accepted: seq<Packet>, p: Packet)
    requires InCreationOrder(flows) && k == KeyOf(p)
    requires Follows(policy, k, closed, flows, accepted, Some(p.timestamp)) && Current(policy, k, flows, p.timestamp)
    ensures
      var done := Returned(Filter(closed, ClosedOf(k)));
      var segments := Cut(policy, Filter(accepted, InKey(k)));
      var i := IndexOf(flows, k);
      if i < |flows| then segments == done + [flows[i].packets] && flows[i].packets != [] && !Over(policy, flows[i].packets, p.timestamp)
      else segments == done && (segments != [] ==> Over(policy, Last(segments), p.timestamp))
  {
    var done := Returned(Filter(closed, ClosedOf(k)));
    HistoriesOfOne(Filter(flows, OfKey(k)));
    IndexFindsKey(flows, k);
    var i := IndexOf(flows, k);
    if i < |flows| {
      OnlyFlowOfKey(flows, i, k);
    } else {
      NoFlowOfKey(flows, k);
      assert done + [] == done;
    }
  }

  lemma {:induction false} OwnPacketKeepsShare(policy: Policy, done: seq<seq<Packet>>, f: Flow, p: Packet)
    requires f.packets != [] && Last(f.packets) == p
    ensures Ending(p) ==> Share(policy, done + [f.packets], [], done + [f.packets], Some(p.timestamp))
    ensures Share(policy, done, [f], done + [f.packets], Some(p.timestamp))
  {
    HistoriesOfOne([]);
    HistoriesOfOne([f]);
    assert done + [f.packets] + [] == done + [f.packets];
    assert Last(done + [f.packets]) == f.packets;
  }

  lemma {:induction false} PacketFollows(policy: Policy, k: Key, closed: seq<Closed>, swept: Table, due: seq<Closed>,
                                         accepted: seq<Packet>, p: Packet)
    requires Sound(policy, swept) && swept.lastEvent == Some(p.timestamp)
    requires Follows(policy, k, closed + due, swept.flows, accepted, Some(p.timestamp))
    requires Current(policy, k, swept.flows, p.timestamp)
    requires !Overflows(policy, swept.flows, p)
    ensures
      var (after, result) := Take(policy, swept, due, p);
      result.Ok? && Follows(policy, k, closed + result.value, after.flows, accepted + [p], Some(p.timestamp))
  {
    TakenLive(policy, k, swept, due, p);
    TakenReturned(policy, k, closed, swept, due, p);
    GrownIsSummary(swept.flows, p);
    if KeyOf(p) == k {
      GrownSegments(policy, k, closed + due, swept.flows, accepted, p);
      OwnPacketKeepsShare(policy, Returned(Filter(closed + due, ClosedOf(k))), Grown(swept.flows, p), p);
    } else {
      FilterAppend(accepted, p, InKey(k));
      assert Filter(accepted, InKey(k)) + [] == Filter(accepted, InKey(k));
    }
  }

  ghost predicate SessionFollows(policy: Policy, k: Key, s: Session) {
    Follows(policy, k, s.closed, s.table.flows, s.accepted, s.table.lastEvent)
  }

  lemma {:induction false} AcceptableEventFollows(policy: Policy, k: Key, s: Session, p: Packet)
    requires Sound(policy, s.table) && SessionFollows(policy, k, s)
    requires s.table.lastEvent.Some? ==> s.table.lastEvent.value <= p.timestamp
    ensures
      var (swept, due) := CloseDue(policy, s.table.(lastEvent := Some(p.timestamp)), p.timestamp);
      var (after, result) := Take(policy, swept, due, p);
      && after.lastEvent == Some(p.timestamp)
      && (result.Ok? ==> Follows(policy, k, s.closed + result.value, after.flows, s.accepted + [p], Some(p.timestamp)))
      && (result.Err? ==> Follows(policy, k, s.closed, after.flows, s.accepted, Some(p.timestamp)))
  {
    SweepKeepsSound(policy, s.table, p.timestamp);
    SweepFollows(policy, k, s.closed, s.table.flows, s.accepted, s.table.lastEvent, p.timestamp);
    var (swept, due) := CloseDue(policy, s.table.(lastEvent := Some(p.timestamp)), p.timestamp);
    TakeKeepsSound(policy, swept, due, p);
    if Overflows(policy, swept.flows, p) {
      TakeOutcome(policy, swept, due, p);
      assert due == [] && s.closed + due == s.closed;
    } else {
      TakenLive(policy, k, swept, due, p);
      PacketFollows(policy, k, s.closed, swept, due, s.accepted, p);
    }
  }

  lemma {:induction false} EventFollows(policy: Policy, k: Key, s: Session, raw: RawEvent)
    requires Sound(policy, s.table) && SessionFollows(policy, k, s)
    ensures SessionFollows(policy, k, Resume(policy, s, raw))
  {
    var table := s.table;
    if Normalize(raw).Ok? {
      var p := Normalize(raw).value;
      if !(table.lastEvent.Some? && p.timestamp < table.lastEvent.value) {
        AcceptableEventFollows(policy, k, s, p);
        FeedSweepsAndTakes(policy, table, raw, p);
      }
    }
  }

  // ---- Sessions ----

  ghost predicate AllSummarized(closed: seq<Closed>) {
    forall i :: 0 <= i < |closed| ==> Summarizes(closed[i].flow)
  }

  /** What holds of a builder after any events: a sound table, every returned flow a summary of its
      packets, and as many flows returned as counted closed. */
  ghost predicate Kept(policy: Policy, s: Session) {
    && Sound(policy, s.table)
    && AllSummarized(s.closed)
    && |s.closed| == s.table.closed
  }

  lemma {:induction false} TimedIsSummarized(policy: Policy, flows: seq<Flow>, now: int, before: Option<int>)
    requires AllTracked(flows, before)
    ensures AllSummarized(Timed(policy, flows, now)) && AllSummarized(Flushing(flows))
  {
    if flows != [] {
      assert Tracked(Last(flows), before);
      TimedIsSummarized(policy, Front(flows), now, before);
    }
  }

  lemma {:induction false} SweepIsSummarized(policy: Policy, table: Table, now: int)
    requires AllTracked(table.flows, table.lastEvent)
    ensures AllSummarized(CloseDue(policy, table.(lastEvent := Some(now)), now).1)
  {
    FilterKeepsTracked(table.flows, IsDue(policy, now), table.lastEvent);
    TimedIsSummarized(policy, Filter(table.flows, IsDue(policy, now)), now, table.lastEvent);
  }

  lemma {:induction false} TakeKeepsSummarized(policy: Policy, swept: Table, due: seq<Closed>, p: Packet)
    requires AllTracked(swept.flows, Some(p.timestamp)) && AllSummarized(due)
    ensures
      var (after, result) := Take(policy, swept, due, p);
      && (result.Ok? ==> AllSummarized(result.value) && after.closed == swept.closed + |result.value| - |due|)
      && (result.Err? ==> after == swept)
  {
    TakeOutcome(policy, swept, due, p);
    GrownIsSummary(swept.flows, p);
  }

  lemma {:induction false} AcceptableEventKeeps(policy: Policy, s: Session, p: Packet)
    requires Kept(policy, s)
    requires s.table.lastEvent.Some? ==> s.table.lastEvent.value <= p.timestamp
    ensures
      var (swept, due) := CloseDue(policy, s.table.(lastEvent := Some(p.timestamp)), p.timestamp);
      var (after, result) := Take(policy, swept, due, p);
      && Sound(policy, after)
      && (result.Ok? ==> AllSummarized(result.value) && after.closed == s.table.closed + |result.value|)
      && (result.Err? ==> after.closed == s.table.closed)
  {
    SweepKeepsSound(policy, s.table, p.timestamp);
    SweepCounts(policy, s.table.(lastEvent := Some(p.timestamp)), p.timestamp);
    SweepIsSummarized(policy, s.table, p.timestamp);
    var (swept, due) := CloseDue(policy, s.table.(lastEvent := Some(p.timestamp)), p.timestamp);
    TakeKeepsSound(policy, swept, due, p);
    TakeKeepsSummarized(policy, swept, due, p);
    if Take(policy, swept, due, p).1.Err? {
      TakeOutcome(policy, swept, due, p);
    }
  }

  lemma {:induction false} EventKeeps(policy: Policy, s: Session, raw: RawEvent)
    requires Kept(policy, s)
    ensures Kept(policy, Resume(policy, s, raw))
  {
    if Normalize(raw).Ok? {
      var p := Normalize(raw).value;
      if !(s.table.lastEvent.Some? && p.timestamp < s.table.lastEvent.value) {
        AcceptableEventKeeps(policy, s, p);
      }
    }
  }

  /** In every reachable state of the builder, after any events whatever, flows created are flows
      closed plus flows tracked, no more are tracked than allowed, their first timestamps are in
      the order of the table, and every record returned is the summary of its own packets. */
  lemma {:induction false} BuilderStaysSound(policy: Policy, events: seq<RawEvent>)
    ensures Kept(policy, Run(policy, events))
  {
    if events != [] {
      BuilderStaysSound(policy, Front(events));
      EventKeeps(policy, Run(policy, Front(events)), Last(events));
    }
  }

  lemma {:induction false} RunFollows(policy: Policy, events: seq<RawEvent>, k: Key)
    ensures SessionFollows(policy, k, Run(policy, events))
  {
    if events != [] {
      BuilderStaysSound(policy, Front(events));
      RunFollows(policy, Front(events), k);
      EventFollows(policy, k, Run(policy, Front(events)), Last(events));
    }
  }

  /** All records of a session that ends with a flush. */
  function Records(s: Session): seq<Closed> {
    s.closed + Flush(s.table).1
  }

  /** For any stream of events, chronological or not, overflowing or not: the records of each key
      are the segments of that key's own accepted packets. Sweeps caused by other keys, and events
      refused, never change where a conversation is cut. */
  lemma {:induction false} RecordsAreSegments(policy: Policy, events: seq<RawEvent>, k: Key)
    ensures
      var s := Run(policy, events);
      Returned(Filter(Records(s), ClosedOf(k))) == Cut(policy, Filter(s.accepted, InKey(k)))
  {
    var s := Run(policy, events);
    RunFollows(policy, events, k);
    FilterConcat(s.closed, Flushing(s.table.flows), ClosedOf(k));
    FlushingOfKey(s.table.flows, k);
    var live := Filter(s.table.flows, OfKey(k));
    ReturnedByClosing(policy, live, 0);
    ReturnedConcat(Filter(s.closed, ClosedOf(k)), Flushing(live));
  }

  /** No packet is lost, doubled or reordered within its conversation. */
  lemma {:induction false} PacketsAreConserved(policy: Policy, events: seq<RawEvent>, k: Key)
    ensures
      var s := Run(policy, events);
      Flatten(Returned(Filter(Records(s), ClosedOf(k)))) == Filter(s.accepted, InKey(k))
  {
    RecordsAreSegments(policy, events, k);
    CutLosesNothing(policy, Filter(Run(policy, events).accepted, InKey(k)));
  }

  // ---- A builder that sees one conversation only ----

  /** The events of `k` that the builder accepts. */
  function Own(policy: Policy, events: seq<RawEvent>, k: Key): seq<RawEvent> {
    if events == [] then []
    else
      var raw := Last(events);
      var rest := Own(policy, Front(events), k);
      if Feed(policy, Run(policy, Front(events)).table, raw).1.Ok? && InKey(k)(Normalize(raw).value)
      then rest + [raw] else rest
  }

  ghost predicate OnlyKey(flows: seq<Flow>, k: Key) {
    forall i :: 0 <= i < |flows| ==> flows[i].key == k
  }

  lemma {:induction false} FilterKeepsOnlyKey(flows: seq<Flow>, keep: Flow -> bool, k: Key)
    requires OnlyKey(flows, k)
    ensures OnlyKey(Filter(flows, keep), k)
  {
    var kept := Filter(flows, keep);
    forall i | 0 <= i < |kept|
      ensures kept[i].key == k
    {
      FilterKeepsExactly(flows, keep, kept[i]);
    }
  }

  lemma {:induction false} OnlyKeyTakes(policy: Policy, swept: Table, due: seq<Closed>, p: Packet)
    requires Positive(policy) && Sound(policy, swept) && swept.lastEvent == Some(p.timestamp)
    requires OnlyKey(swept.flows, KeyOf(p))
    ensures
      var (after, result) := Take(policy, swept, due, p);
      result.Ok? && OnlyKey(after.flows, KeyOf(p)) && after.lastEvent == Some(p.timestamp)
  {
    IndexFindsKey(swept.flows, KeyOf(p));
    assert !Overflows(policy, swept.flows, p);
    TakeOutcome(policy, swept, due, p);
    GrownIsSummary(swept.flows, p);
    var k := KeyOf(p);
    OnlyKeyStays(Tracking(swept, k, p.timestamp).flows, IndexOf(swept.flows, k), Grown(swept.flows, p), k);
  }

  lemma {:induction false} OnlyKeyStays(flows: seq<Flow>, i: nat, f: Flow, k: Key)
    requires OnlyKey(flows, k) && i < |flows| && f.key == k
    ensures OnlyKey(Removed(flows, i), k) && OnlyKey(flows[i := f], k)
  {
  }

  /** A builder with flows of one key only takes every later packet of that key. */
  lemma {:induction false} OwnTableTakes(policy: Policy, table: Table, p: Packet)
    requires Positive(policy) && Sound(policy, table) && OnlyKey(table.flows, KeyOf(p))
    requires table.lastEvent.Some? ==> table.lastEvent.value <= p.timestamp
    ensures
      var (swept, due) := CloseDue(policy, table.(lastEvent := Some(p.timestamp)), p.timestamp);
      var (after, result) := Take(policy, swept, due, p);
      result.Ok? && OnlyKey(after.flows, KeyOf(p)) && after.lastEvent == Some(p.timestamp)
  {
    SweepKeepsSound(policy, table, p.timestamp);
    var (swept, due) := CloseDue(policy, table.(lastEvent := Some(p.timestamp)), p.timestamp);
    FilterKeepsOnlyKey(table.flows, IsLive(policy, p.timestamp), KeyOf(p));
    OnlyKeyTakes(policy, swept, due, p);
  }

  ghost predicate Shadows(policy: Policy, own: Session, all: Session, k: Key) {
    && own.accepted == Filter(all.accepted, InKey(k))
    && OnlyKey(own.table.flows, k)
    && (own.table.lastEvent.Some? ==> all.table.lastEvent.Some? && own.table.lastEvent.value <= all.table.lastEvent.value)
  }

  /** An acceptable event is swept and taken. */
  lemma {:induction false} FeedSweepsAndTakes(policy: Policy, table: Table, raw: RawEvent, p: Packet)
    requires Normalize(raw) == Ok(p) && (table.lastEvent.Some? ==> table.lastEvent.value <= p.timestamp)
    ensures
      var (swept, due) := CloseDue(policy, table.(lastEvent := Some(p.timestamp)), p.timestamp);
      Feed(policy, table, raw) == Take(policy, swept, due, p)
  {
  }

  lemma {:induction false} TakeKeepsTime(policy: Policy, swept: Table, due: seq<Closed>, p: Packet)
    requires AllTracked(swept.flows, Some(p.timestamp))
    ensures Take(policy, swept, due, p).0.lastEvent == swept.lastEvent
  {
    TakeOutcome(policy, swept, due, p);
  }

  lemma {:induction false} FeedMovesForward(policy: Policy, table: Table, raw: RawEvent)
    requires Sound(policy, table)
    ensures
      var (after, result) := Feed(policy, table, raw);
      && (table.lastEvent.Some? ==> after.lastEvent.Some? && table.lastEvent.value <= after.lastEvent.value)
      && (result.Ok? ==> Normalize(raw).Ok? && after.lastEvent == Some(Normalize(raw).value.timestamp)
                         && (table.lastEvent.Some? ==> table.lastEvent.value <= Normalize(raw).value.timestamp))
  {
    if Normalize(raw).Ok? {
      var p := Normalize(raw).value;
      if !(table.lastEvent.Some? && p.timestamp < table.lastEvent.value) {
        SweepKeepsSound(policy, table, p.timestamp);
        var (swept, due) := CloseDue(policy, table.(lastEvent := Some(p.timestamp)), p.timestamp);
        FeedSweepsAndTakes(policy, table, raw, p);
        TakeKeepsTime(policy, swept, due, p);
      }
    }
  }

  lemma {:induction false} OwnRunShadows(policy: Policy, events: seq<RawEvent>, k: Key)
    requires Positive(policy)
    ensures Shadows(policy, Run(policy, Own(policy, events, k)), Run(policy, events), k)
  {
    if events != [] {
      var before, raw := Run(policy, Front(events)), Last(events);
      var rest := Own(policy, Front(events), k);
      OwnRunShadows(policy, Front(events), k);
      BuilderStaysSound(policy, Front(events));
      BuilderStaysSound(policy, rest);
      FeedMovesForward(policy, before.table, raw);
      if Feed(policy, before.table, raw).1.Ok? {
        var p := Normalize(raw).value;
        FilterAppend(before.accepted, p, InKey(k));
        if KeyOf(p) == k {
          OwnTableTakes(policy, Run(policy, rest).table, p);
          assert Front(rest + [raw]) == rest;
        }
      }
    }
  }

  function FlowsOf(closed: seq<Closed>): seq<Flow> {
    if closed == [] then [] else FlowsOf(Front(closed)) + [Last(closed).flow]
  }

  lemma {:induction false} SummariesAreDetermined(xs: seq<Closed>, ys: seq<Closed>, k: Key)
    requires AllSummarized(xs) && AllSummarized(ys)
    requires forall i :: 0 <= i < |xs| ==> xs[i].flow.key == k
    requires forall i :: 0 <= i < |ys| ==> ys[i].flow.key == k
    requires Returned(xs) == Returned(ys)
    ensures FlowsOf(xs) == FlowsOf(ys)
  {
    if xs != [] && ys != [] {
      var x, y := Last(xs).flow, Last(ys).flow;
      assert Last(Returned(xs)) == x.packets && Last(Returned(ys)) == y.packets;
      assert Front(Returned(xs)) == Returned(Front(xs)) && Front(Returned(ys)) == Returned(Front(ys));
      SummariesAreDetermined(Front(xs), Front(ys), k);
      assert Summarizes(x) && Summarizes(y);
    }
  }

  lemma {:induction false} RecordsAreSummaries(policy: Policy, events: seq<RawEvent>, k: Key)
    ensures
      var mine := Filter(Records(Run(policy, events)), ClosedOf(k));
      AllSummarized(mine) && forall i :: 0 <= i < |mine| ==> mine[i].flow.key == k
  {
    var s := Run(policy, events);
    BuilderStaysSound(policy, events);
    TimedIsSummarized(policy, s.table.flows, 0, s.table.lastEvent);
    var mine := Filter(Records(s), ClosedOf(k));
    forall i | 0 <= i < |mine|
      ensures Summarizes(mine[i].flow) && mine[i].flow.key == k
    {
      FilterKeepsExactly(Records(s), ClosedOf(k), mine[i]);
    }
  }

  /** The eager sweep refines per-key segmentation: each key's records, apart from their close
      reasons, are those of a builder fed only the events of that key. */
  lemma {:induction false} EagerSweepChangesNoRecord(policy: Policy, events: seq<RawEvent>, k: Key)
    requires Positive(policy)
    ensures
      FlowsOf(Filter(Records(Run(policy, events)), ClosedOf(k))) ==
      FlowsOf(Filter(Records(Run(policy, Own(policy, events, k))), ClosedOf(k)))
  {
    var own := Own(policy, events, k);
    OwnRunShadows(policy, events, k);
    RecordsAreSegments(policy, events, k);
    RecordsAreSegments(policy, own, k);
    KeyFilterIsStable(Run(policy, events).accepted, k);
    RecordsAreSummaries(policy, events, k);
    RecordsAreSummaries(policy, own, k);
    SummariesAreDetermined(Filter(Records(Run(policy, events)), ClosedOf(k)),
                           Filter(Records(Run(policy, own)), ClosedOf(k)), k);
  }

  lemma {:induction false} KeyFilterIsStable(packets: seq<Packet>, k: Key)
    ensures Filter(Filter(packets, InKey(k)), InKey(k)) == Filter(packets, InKey(k))
  {
    if packets != [] {
      KeyFilterIsStable(Front(packets), k);
      var before := Filter(Front(packets), InKey(k));
      FilterAppend(before, Last(packets), InKey(k));
      assert Filter(packets, InKey(k)) == if InKey(k)(Last(packets)) then before + [Last(packets)] else before;
      assert before + [] == before;
    }
  }

  // ---- Bounds of every record ----

  lemma {:induction false} DirectionsAddUp(packets: seq<Packet>, a: Address)
    ensures Count(packets, From(a)) + Count(packets, NotFrom(a)) == |packets|
    ensures Size(packets, From(a)) + Size(packets, NotFrom(a)) == Size(packets, Always())
  {
    if packets != [] {
      DirectionsAddUp(Front(packets), a);
    }
  }

  lemma {:induction false} GapsAddUp(packets: seq<Packet>, bound: int)
    requires packets != [] && InTimeOrder(packets)
    requires forall i :: 0 <= i < |packets| - 1 ==> packets[i + 1].timestamp - packets[i].timestamp < bound
    ensures Sum(Gaps(packets)) == Last(packets).timestamp - packets[0].timestamp
    ensures forall i :: 0 <= i < |Gaps(packets)| ==> 0 < Gaps(packets)[i] < bound
  {
    if |packets| > 1 {
      GapsAddUp(Front(packets), bound);
      var gap := Last(packets).timestamp - packets[|packets| - 2].timestamp;
      assert packets[|packets| - 2].timestamp <= packets[|packets| - 1].timestamp;
      if gap > 0 {
        assert Front(Gaps(Front(packets)) + [gap]) == Gaps(Front(packets));
      } else {
        assert Gaps(packets) == Gaps(Front(packets));
      }
    }
  }

  lemma {:induction false} ReturnedContains(closed: seq<Closed>, c: Closed)
    requires c in closed
    ensures c.flow.packets in Returned(closed)
  {
    if c != Last(closed) {
      assert closed == Front(closed) + [Last(closed)];
      ReturnedContains(Front(closed), c);
    }
  }

  /** Every record: both directions add up to the totals, the inter-arrival times are positive,
      below the idle timeout and add up to the duration, the duration is below the active timeout,
      and RST or FIN can only be in the last packet. */
  lemma {:induction false} RecordsAreBounded(policy: Policy, events: seq<RawEvent>, c: Closed)
    requires Positive(policy) && c in Records(Run(policy, events))
    ensures
      var f := c.flow;
      && f.fwdCount + f.bwdCount == f.packetCount == |f.packets|
      && f.fwdBytes + f.bwdBytes == f.byteCount
      && Sum(f.gaps) == f.last - f.first
      && (forall i :: 0 <= i < |f.gaps| ==> 0 < f.gaps[i] < policy.idleSeconds * SECOND)
      && 0 <= f.last - f.first < policy.activeSeconds * SECOND
      && (forall i :: 0 <= i < |f.packets| - 1 ==> !Ending(f.packets[i]))
  {
    var s, k := Run(policy, events), c.flow.key;
    var mine := Filter(Records(s), ClosedOf(k));
    FilterKeepsExactly(Records(s), ClosedOf(k), c);
    RecordsAreSummaries(policy, events, k);
    ReturnedContains(mine, c);
    RecordsAreSegments(policy, events, k);
    SegmentsAreCompact(policy, Filter(s.accepted, InKey(k)));
    assert Summarizes(c.flow) by {
      var i :| 0 <= i < |mine| && mine[i] == c;
    }
    assert Compact(policy, c.flow.packets);
    DirectionsAddUp(c.flow.packets, k.forward);
    GapsAddUp(c.flow.packets, policy.idleSeconds * SECOND);
  }
}
