/** Delivery ledger of the central service (src/sensors/registry.py): sequence admission,
    the per-sensor request window, and the transaction that commits a batch. */
module SensorRegistries {
  import opened Prelude
  import opened Telemetry
  import opened RateLimit

  /** The delivery fields of one sensor record; the stored batch hash is the batch itself. */
  datatype Sensor = Sensor(lastSequence: nat, lastBatch: Option<Batch>, lastSent: nat, lastAcknowledged: nat)

  datatype Registry = Registry(sensors: map<string, Sensor>, requestTimes: map<string, seq<int>>)

  datatype Verdict = Fresh | Duplicate | Conflict

  datatype Outcome = Accepted | DuplicateBatch | SequenceConflict | RateLimited | SensorNotFound

  /** The ordering rule: only the last committed batch may come again, and only later sequences are new. */
  function Judge(sensor: Sensor, b: Batch): Verdict {
    if b.sequence == sensor.lastSequence && sensor.lastBatch == Some(b) then Duplicate
    else if b.sequence <= sensor.lastSequence then Conflict
    else Fresh
  }

  /** One request's effect on a sensor's request window. */
  function Touch(reg: Registry, id: string, limit: nat, now: int, consume: bool): Registry {
    reg.(requestTimes := reg.requestTimes[id := AfterRequest(HistoryOf(reg.requestTimes, id), limit, now, consume)])
  }

  predicate RateAllows(reg: Registry, id: string, limit: nat, now: int) {
    HasRoom(HistoryOf(reg.requestTimes, id), limit, now)
  }

  function CheckTelemetry(reg: Registry, id: string, b: Batch): Option<Verdict> {
    if id in reg.sensors then Some(Judge(reg.sensors[id], b)) else None
  }

  function CheckRate(reg: Registry, limit: nat, id: string, now: int): (Registry, Outcome) {
    if id !in reg.sensors then (reg, SensorNotFound)
    else (Touch(reg, id, limit, now, false), if RateAllows(reg, id, limit, now) then Accepted else RateLimited)
  }

  function Commit(sensor: Sensor, b: Batch): Sensor {
    sensor.(lastSequence := b.sequence, lastAcknowledged := b.sequence, lastBatch := Some(b))
  }

  function AcceptTelemetry(reg: Registry, limit: nat, id: string, b: Batch, now: int): (Registry, Outcome) {
    if id !in reg.sensors then (reg, SensorNotFound)
    else
      var touched := Touch(reg, id, limit, now, true);
      if !RateAllows(reg, id, limit, now) then (touched, RateLimited)
      else
        match Judge(reg.sensors[id], b)
        case Duplicate => (touched, DuplicateBatch)
        case Conflict => (touched, SequenceConflict)
        case Fresh => (touched.(sensors := reg.sensors[id := Commit(reg.sensors[id], b)]), Accepted)
  }

  function AcceptHeartbeat(reg: Registry, limit: nat, id: string, now: int, lastSent: nat, lastAcknowledged: nat)
    : (Registry, Outcome)
  {
    if id !in reg.sensors then (reg, SensorNotFound)
    else
      var touched := Touch(reg, id, limit, now, true);
      if !RateAllows(reg, id, limit, now) then (touched, RateLimited)
      else
        var s := reg.sensors[id];
        var beat := s.(lastSent := Max(s.lastSent, lastSent), lastAcknowledged := Max(s.lastAcknowledged, lastAcknowledged));
        (touched.(sensors := reg.sensors[id := beat]), Accepted)
  }

  /** Within one transaction a batch that was judged fresh and found room is always committed,
      whatever the two clock readings are. */
  lemma {:induction false} CheckedBatchIsCommitted(reg: Registry, limit: nat, id: string, b: Batch, first: int, second: int)
    requires CheckTelemetry(reg, id, b) == Some(Fresh)
    requires CheckRate(reg, limit, id, first).1 == Accepted
    ensures
      var checked := CheckRate(reg, limit, id, first).0;
      var (after, outcome) := AcceptTelemetry(checked, limit, id, b, second);
      && checked.sensors == reg.sensors
      && outcome == Accepted
      && after.sensors == reg.sensors[id := Commit(reg.sensors[id], b)]
  {
    RoomSurvivesPruning(HistoryOf(reg.requestTimes, id), limit, first, second);
  }

  /** The registry's window is the limiter's: whatever mix of looking and consuming requests
      came before, a consuming request is allowed exactly when the 60 seconds up to it hold
      fewer than `limit` admissions of the sensor. */
  lemma {:induction false} RegistryWindowIsExact(reg: Registry, requests: seq<Request>, limit: nat, id: string, now: int)
    requires limit > 0 && Tracks(reg.requestTimes, requests, limit)
    requires Chronological(requests + [Request(id, now, true)])
    ensures DecidesExactly(requests, Request(id, now, true), limit, RateAllows(reg, id, limit, now))
  {
    RoomDecidesExactly(requests, Request(id, now, true), limit);
  }

  // ---- The registry object ----

  class SensorRegistry {
    const rateLimitPerMinute: nat
    var sensors: map<string, Sensor>
    var requestTimes: map<string, seq<int>>
    // Every request that reached a rate check since the service started.
    ghost var requests: seq<Request>

    ghost predicate Valid()
      reads this
    {
      rateLimitPerMinute > 0 && Tracks(requestTimes, requests, rateLimitPerMinute)
    }

    ghost function Model(): Registry
      reads this
    {
      Registry(sensors, requestTimes)
    }

    /** Loads the stored sensors; request windows start empty. */
    constructor (rateLimit: nat, loaded: map<string, Sensor>)
      requires rateLimit > 0
      ensures Valid() && Model() == Registry(loaded, map[])
      ensures rateLimitPerMinute == rateLimit && requests == []
    {
      rateLimitPerMinute := rateLimit;
      sensors, requestTimes := loaded, map[];
      requests := [];
    }

    /** The window check; it takes a slot only if asked to. */
    method CheckWindow(id: string, now: int, consume: bool) returns (allowed: bool)
      requires Valid()
      modifies this`requestTimes, this`requests
      ensures Valid() && requests == old(requests) + [Request(id, now, consume)]
      ensures Model() == Touch(old(Model()), id, rateLimitPerMinute, now, consume)
      ensures allowed == RateAllows(old(Model()), id, rateLimitPerMinute, now)
    {
      var history := DropExpired(HistoryOf(requestTimes, id), now - WINDOW);
      allowed := |history| < rateLimitPerMinute;
      if allowed && consume {
        history := history + [now];
      }
      requestTimes := requestTimes[id := history];
      ghost var r := Request(id, now, consume);
      requests := requests + [r];
      StillTracks(old(requestTimes), old(requests), rateLimitPerMinute, r);
    }

    method CheckDelivery(id: string, b: Batch) returns (verdict: Option<Verdict>)
      ensures verdict == CheckTelemetry(Model(), id, b)
    {
      if id !in sensors {
        return None;
      }
      var sensor := sensors[id];
      if b.sequence == sensor.lastSequence && sensor.lastBatch == Some(b) {
        return Some(Duplicate);
      }
      verdict := Some(if b.sequence <= sensor.lastSequence then Conflict else Fresh);
    }

    method CheckCapacity(id: string, now: int) returns (outcome: Outcome)
      requires Valid()
      modifies this`requestTimes, this`requests
      ensures Valid() && (Model(), outcome) == CheckRate(old(Model()), rateLimitPerMinute, id, now)
    {
      if id !in sensors {
        return SensorNotFound;
      }
      var allowed := CheckWindow(id, now, false);
      outcome := if allowed then Accepted else RateLimited;
    }

    method AcceptBatch(id: string, b: Batch, now: int) returns (outcome: Outcome)
      requires Valid()
      modifies this
      ensures Valid() && (Model(), outcome) == AcceptTelemetry(old(Model()), rateLimitPerMinute, id, b, now)
    {
      if id !in sensors {
        return SensorNotFound;
      }
      var allowed := CheckWindow(id, now, true);
      if !allowed {
        return RateLimited;
      }
      var verdict := CheckDelivery(id, b);
      if verdict == Some(Duplicate) {
        return DuplicateBatch;
      }
      if verdict == Some(Conflict) {
        return SequenceConflict;
      }
      sensors := sensors[id := Commit(sensors[id], b)];
      outcome := Accepted;
    }

    method AcceptBeat(id: string, now: int, lastSent: nat, lastAcknowledged: nat) returns (outcome: Outcome)
      requires Valid()
      modifies this
      ensures Valid()
      ensures (Model(), outcome) ==
              AcceptHeartbeat(old(Model()), rateLimitPerMinute, id, now, lastSent, lastAcknowledged)
    {
      if id !in sensors {
        return SensorNotFound;
      }
      var allowed := CheckWindow(id, now, true);
      if !allowed {
        return RateLimited;
      }
      var s := sensors[id];
      sensors := sensors[id := s.(lastSent := Max(s.lastSent, lastSent),
                                  lastAcknowledged := Max(s.lastAcknowledged, lastAcknowledged))];
      outcome := Accepted;
    }
  }
}
