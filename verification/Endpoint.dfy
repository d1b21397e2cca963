/** The telemetry endpoint of the central service (src/api/app.py): admission, ingestion and
    commit of one batch inside the registry's transaction. */
module Endpoint {
  import opened Prelude
  import opened Telemetry
  import opened StateBuffers
  import opened SensorRuntime
  import opened RateLimit
  import opened SensorRegistries

  datatype Settings = Settings(rateLimit: nat, maxSensors: nat, maxSourcesPerWindow: nat, infer: Inference)

  datatype Central = Central(registry: Registry, runtimes: map<string, Runtime>)

  datatype Reply =
    | AcceptedReply
    | DuplicateAcknowledged
    | SchemaError
    | Unauthenticated
    | IdentityMismatch
    | ContractError
    | ConflictReply
    | RateLimitedReply
    | SourceLimitExceeded
    | FailedAtCommit

  predicate Acknowledges(reply: Reply) {
    reply == AcceptedReply || reply == DuplicateAcknowledged
  }

  /** The HTTP status of a refusal; a commit that fails by rate answers like any other rate refusal. */
  function StatusCode(reply: Reply): nat {
    match reply
    case AcceptedReply => 200
    case DuplicateAcknowledged => 200
    case SchemaError => 422
    case Unauthenticated => 401
    case IdentityMismatch => 403
    case ContractError => 422
    case ConflictReply => 409
    case RateLimitedReply => 429
    case SourceLimitExceeded => 422
    case FailedAtCommit => 429
  }

  /** What request validation demands of a batch before any handler code runs. */
  predicate SchemaValid(b: Batch) {
    && b.sequence >= 1
    && 1 <= |b.states| <= MAX_BATCH_STATES
    && |b.sourceIntervals| <= MAX_SOURCE_ROWS
    && forall i :: 0 <= i < |b.states| ==> |b.states[i].features| == FEATURE_COUNT
  }

  /** States stay on their claimed day and follow each other every ten seconds. */
  predicate Coherent(states: seq<StatePoint>) {
    && (forall i :: 0 <= i < |states| ==> states[i].timestamp / DAY == states[i].captureDay)
    && (forall i :: 0 <= i < |states| - 1 ==> Linked(states[i], states[i + 1]))
  }

  predicate SourcesWithin(intervals: seq<int>, limit: nat) {
    forall i :: 0 <= i < |intervals| ==> multiset(intervals)[intervals[i]] <= limit
  }

  /** What central demands of a batch whatever it keeps itself. */
  predicate Acceptable(b: Batch, sourceLimit: nat) {
    SchemaValid(b) && Coherent(b.states) && SourcesWithin(b.sourceIntervals, sourceLimit)
  }

  /** The refusals that need no delivery state. */
  function Validate(sensors: map<string, Sensor>, authenticated: string, b: Batch): Option<Reply> {
    if !SchemaValid(b) then Some(SchemaError)
    else if authenticated !in sensors then Some(Unauthenticated)
    else if b.sensorId != authenticated then Some(IdentityMismatch)
    else if !Coherent(b.states) then Some(ContractError)
    else None
  }

  function Handle(cfg: Settings, c: Central, authenticated: string, b: Batch, nowCheck: int, nowCommit: int): (Central, Reply) {
    var refusal := Validate(c.registry.sensors, authenticated, b);
    if refusal.Some? then (c, refusal.value) else Respond(cfg, c, authenticated, b, nowCheck, nowCommit)
  }

  /** What follows validation, by the delivery state of the sensor. */
  function Respond(cfg: Settings, c: Central, id: string, b: Batch, nowCheck: int, nowCommit: int): (Central, Reply)
    requires id in c.registry.sensors
  {
    match Judge(c.registry.sensors[id], b)
    case Conflict => (c, ConflictReply)
    case Duplicate => Acknowledge(cfg, c, id)
    case Fresh => Admit(cfg, c, id, b, nowCheck, nowCommit)
  }

  /** A repeated batch is only acknowledged, with the sensor's snapshot. */
  function Acknowledge(cfg: Settings, c: Central, id: string): (Central, Reply) {
    match WithRuntime(c.runtimes, id, cfg.maxSensors)
    case None => (c, ContractError)
    case Some(ready) => (c.(runtimes := ready), DuplicateAcknowledged)
  }

  /** A fresh batch: rate check, ingestion, commit. */
  function Admit(cfg: Settings, c: Central, id: string, b: Batch, nowCheck: int, nowCommit: int): (Central, Reply) {
    var (checked, room) := CheckRate(c.registry, cfg.rateLimit, id, nowCheck);
    if room != Accepted then (c.(registry := checked), RateLimitedReply)
    else Process(cfg, c.(registry := checked), id, b, nowCommit)
  }

  /** What follows the rate check: the sensor's runtime, the source limit, then ingestion. */
  function Process(cfg: Settings, c: Central, id: string, b: Batch, nowCommit: int): (Central, Reply) {
    match WithRuntime(c.runtimes, id, cfg.maxSensors)
    case None => (c, ContractError)
    case Some(ready) =>
      if !SourcesWithin(b.sourceIntervals, cfg.maxSourcesPerWindow) then (c.(runtimes := ready), SourceLimitExceeded)
      else IngestAndCommit(cfg, c.(runtimes := ready), id, b, nowCommit)
  }

  function IngestAndCommit(cfg: Settings, c: Central, id: string, b: Batch, nowCommit: int): (Central, Reply) {
    var (ingested, error) := StoreIngest(c.runtimes, id, b.states, cfg.maxSensors, cfg.infer);
    if error.Some? then (c.(runtimes := ingested), ContractError)
    else
      var (committed, outcome) := AcceptTelemetry(c.registry, cfg.rateLimit, id, b, nowCommit);
      (Central(committed, ingested), if outcome == Accepted then AcceptedReply else FailedAtCommit)
  }

  // ---- One request ----

  /** The states a sensor's runtime has accepted; a sensor without a runtime has accepted none. */
  function LogOf(runtimes: map<string, Runtime>, id: string): seq<StatePoint> {
    if id in runtimes then runtimes[id].log else []
  }

  /** Everything the sensor's deliveries have left at the service. */
  ghost predicate SameDeliveries(before: Central, after: Central, id: string) {
    && (id in after.registry.sensors <==> id in before.registry.sensors)
    && (id in before.registry.sensors ==> after.registry.sensors[id] == before.registry.sensors[id])
    && LogOf(after.runtimes, id) == LogOf(before.runtimes, id)
  }

  /** Check-then-commit never fails between check and commit, and it is all or nothing: an
      accepted batch is in the registry and, whole, in the runtime; any other reply leaves the
      sensor's registry record and accepted states as they were. */
  lemma {:induction false} AdmissionIsAtomic(cfg: Settings, c: Central, id: string, b: Batch, nowCheck: int, nowCommit: int)
    requires id in c.registry.sensors && SchemaValid(b) && Coherent(b.states)
    requires Judge(c.registry.sensors[id], b) == Fresh
    ensures
      var (after, reply) := Admit(cfg, c, id, b, nowCheck, nowCommit);
      && reply != FailedAtCommit
      && (reply == AcceptedReply ==>
            && id in after.runtimes
            && after.registry.sensors == c.registry.sensors[id := Commit(c.registry.sensors[id], b)]
            && after.runtimes[id].log == LogOf(c.runtimes, id) + b.states)
      && (reply != AcceptedReply ==> SameDeliveries(c, after, id))
  {
    if CheckRate(c.registry, cfg.rateLimit, id, nowCheck).1 == Accepted {
      CheckedBatchIsCommitted(c.registry, cfg.rateLimit, id, b, nowCheck, nowCommit);
      match WithRuntime(c.runtimes, id, cfg.maxSensors) {
        case None =>
        case Some(ready) =>
          assert ready[id].log == LogOf(c.runtimes, id);
          WholeBatchOrNothing(ready[id], b.states, cfg.infer);
      }
    }
  }

  lemma {:induction false} AcceptedIsAcceptable(cfg: Settings, c: Central, id: string, b: Batch, nowCheck: int,
                                                nowCommit: int)
    requires Handle(cfg, c, id, b, nowCheck, nowCommit).1 == AcceptedReply
    ensures Acceptable(b, cfg.maxSourcesPerWindow)
  {
  }

  lemma {:induction false} NewRuntimeTakes(id: string, states: seq<StatePoint>, infer: Inference)
    requires states != [] && Coherent(states) && forall i :: 0 <= i < |states| ==> |states[i].features| == FEATURE_COUNT
    ensures Ingest(NewRuntime(id), states, infer).1 == None
  {
    WholeBatchOrNothing(NewRuntime(id), states, infer);
  }

  lemma {:induction false} NewServiceProcesses(cfg: Settings, c: Central, id: string, b: Batch, nowCommit: int)
    requires c.runtimes == map[] && cfg.maxSensors >= 1 && Acceptable(b, cfg.maxSourcesPerWindow)
    requires AcceptTelemetry(c.registry, cfg.rateLimit, id, b, nowCommit).1 == Accepted
    ensures Process(cfg, c, id, b, nowCommit).1 == AcceptedReply
  {
    NewRuntimeTakes(id, b.states, cfg.infer);
  }

  /** A service that keeps no runtime and no request times accepts every acceptable new batch,
      whatever its two clock readings are. */
  lemma {:induction false} NewServiceAccepts(cfg: Settings, c: Central, id: string, b: Batch, nowCheck: int, nowCommit: int)
    requires c.runtimes == map[] && c.registry.requestTimes == map[] && id in c.registry.sensors
    requires cfg.rateLimit >= 1 && cfg.maxSensors >= 1
    requires b.sensorId == id && b.sequence > c.registry.sensors[id].lastSequence && Acceptable(b, cfg.maxSourcesPerWindow)
    ensures Handle(cfg, c, id, b, nowCheck, nowCommit).1 == AcceptedReply
  {
    assert Judge(c.registry.sensors[id], b) == Fresh;
    CheckedBatchIsCommitted(c.registry, cfg.rateLimit, id, b, nowCheck, nowCommit);
    NewServiceProcesses(cfg, c.(registry := CheckRate(c.registry, cfg.rateLimit, id, nowCheck).0), id, b, nowCommit);
  }

  /** Nothing the service keeps about a sensor has changed. */
  ghost predicate Untouched(before: Central, after: Central, id: string) {
    && SameDeliveries(before, after, id)
    && HistoryOf(after.registry.requestTimes, id) == HistoryOf(before.registry.requestTimes, id)
    && (id in after.runtimes <==> id in before.runtimes)
    && (id in before.runtimes ==> after.runtimes[id] == before.runtimes[id])
  }

  lemma {:induction false} IngestingLeavesOthersUntouched(cfg: Settings, c: Central, id: string, b: Batch,
                                                          nowCommit: int, other: string)
    requires other != id
    ensures Untouched(c, IngestAndCommit(cfg, c, id, b, nowCommit).0, other)
  {
  }

  lemma {:induction false} OpeningLeavesOthersUntouched(cfg: Settings, c: Central, id: string, other: string)
    requires other != id
    ensures match WithRuntime(c.runtimes, id, cfg.maxSensors)
            case None => true
            case Some(ready) => Untouched(c, c.(runtimes := ready), other)
  {
  }

  lemma {:induction false} CheckingLeavesOthersUntouched(cfg: Settings, c: Central, id: string, now: int, other: string)
    requires other != id
    ensures Untouched(c, c.(registry := CheckRate(c.registry, cfg.rateLimit, id, now).0), other)
  {
  }

  lemma {:induction false} UntouchedTwice(a: Central, b: Central, c: Central, id: string)
    requires Untouched(a, b, id) && Untouched(b, c, id)
    ensures Untouched(a, c, id)
  {
  }

  lemma {:induction false} ProcessingLeavesOthersUntouched(cfg: Settings, c: Central, id: string, b: Batch,
                                                           nowCommit: int, other: string)
    requires other != id
    ensures Untouched(c, Process(cfg, c, id, b, nowCommit).0, other)
  {
    OpeningLeavesOthersUntouched(cfg, c, id, other);
    match WithRuntime(c.runtimes, id, cfg.maxSensors) {
      case None =>
      case Some(ready) =>
        var held := c.(runtimes := ready);
        IngestingLeavesOthersUntouched(cfg, held, id, b, nowCommit, other);
        UntouchedTwice(c, held, IngestAndCommit(cfg, held, id, b, nowCommit).0, other);
    }
  }

  lemma {:induction false} AdmittingLeavesOthersUntouched(cfg: Settings, c: Central, id: string, b: Batch,
                                                          nowCheck: int, nowCommit: int, other: string)
    requires other != id
    ensures Untouched(c, Admit(cfg, c, id, b, nowCheck, nowCommit).0, other)
  {
    var checked := c.(registry := CheckRate(c.registry, cfg.rateLimit, id, nowCheck).0);
    CheckingLeavesOthersUntouched(cfg, c, id, nowCheck, other);
    ProcessingLeavesOthersUntouched(cfg, checked, id, b, nowCommit, other);
    UntouchedTwice(c, checked, Process(cfg, checked, id, b, nowCommit).0, other);
  }

  /** A request authenticated as one sensor touches nothing of any other. */
  lemma {:induction false} OtherSensorsAreUntouched(cfg: Settings, c: Central, id: string, b: Batch,
                                                    nowCheck: int, nowCommit: int, other: string)
    requires other != id
    ensures Untouched(c, Handle(cfg, c, id, b, nowCheck, nowCommit).0, other)
  {
    OpeningLeavesOthersUntouched(cfg, c, id, other);
    AdmittingLeavesOthersUntouched(cfg, c, id, b, nowCheck, nowCommit, other);
  }

  /** What one request does to its own sensor, whatever the reply. */
  lemma {:induction false} RequestCommitsOrLeavesAlone(cfg: Settings, c: Central, id: string, b: Batch,
                                                       nowCheck: int, nowCommit: int)
    ensures
      var (after, reply) := Handle(cfg, c, id, b, nowCheck, nowCommit);
      && reply != FailedAtCommit
      && (reply == AcceptedReply ==>
            && id in c.registry.sensors && id in after.registry.sensors
            && b.sequence > c.registry.sensors[id].lastSequence
            && after.registry.sensors[id].lastSequence == b.sequence
            && after.registry.sensors[id].lastBatch == Some(b)
            && LogOf(after.runtimes, id) == LogOf(c.runtimes, id) + b.states)
      && (reply != AcceptedReply ==> SameDeliveries(c, after, id))
      && (reply == DuplicateAcknowledged ==>
            && id in c.registry.sensors
            && c.registry.sensors[id].lastSequence == b.sequence
            && c.registry.sensors[id].lastBatch == Some(b))
      && (reply == ConflictReply ==>
            && id in c.registry.sensors
            && b.sequence <= c.registry.sensors[id].lastSequence
            && !(b.sequence == c.registry.sensors[id].lastSequence && c.registry.sensors[id].lastBatch == Some(b)))
  {
    if SchemaValid(b) && id in c.registry.sensors && Coherent(b.states) && Judge(c.registry.sensors[id], b) == Fresh {
      AdmissionIsAtomic(cfg, c, id, b, nowCheck, nowCommit);
    }
  }

  // ---- The endpoint object ----

  method CheckCoherence(states: seq<StatePoint>) returns (ok: bool)
    ensures ok == Coherent(states)
  {
    var previous: Option<StatePoint> := None;
    for i := 0 to |states|
      invariant Coherent(states[..i])
      invariant previous == if i == 0 then None else Some(states[i - 1])
    {
      var s := states[i];
      if s.timestamp / DAY != s.captureDay {
        return false;
      }
      if previous.Some? && !Linked(previous.value, s) {
        assert !Linked(states[i - 1], states[(i - 1) + 1]);
        return false;
      }
      assert states[..i + 1] == states[..i] + [s];
      previous := Some(s);
    }
    assert states[..|states|] == states;
    ok := true;
  }

  /** How many source rows each interval start has. */
  method CountRows(intervals: seq<int>) returns (counts: map<int, nat>)
    ensures forall i :: 0 <= i < |intervals| ==>
              intervals[i] in counts && counts[intervals[i]] == multiset(intervals)[intervals[i]]
  {
    counts := map[];
    for i := 0 to |intervals|
      invariant forall x :: x in counts <==> x in intervals[..i]
      invariant forall x :: x in counts ==> counts[x] == multiset(intervals[..i])[x]
    {
      var x := intervals[i];
      assert intervals[..i + 1] == intervals[..i] + [x];
      counts := counts[x := (if x in counts then counts[x] else 0) + 1];
    }
    assert intervals[..|intervals|] == intervals;
    forall i | 0 <= i < |intervals|
      ensures intervals[i] in counts && counts[intervals[i]] == multiset(intervals)[intervals[i]]
    {
      var x := intervals[i];
      assert x in intervals[..|intervals|];
      assert x in counts && counts[x] == multiset(intervals)[x];
    }
  }

  method CheckSources(intervals: seq<int>, limit: nat) returns (ok: bool)
    ensures ok == SourcesWithin(intervals, limit)
  {
    var counts := CountRows(intervals);
    for i := 0 to |intervals|
      invariant forall j :: 0 <= j < i ==> multiset(intervals)[intervals[j]] <= limit
    {
      if counts[intervals[i]] > limit {
        return false;
      }
    }
    ok := true;
  }

  class TelemetryService {
    const settings: Settings
    const registry: SensorRegistry
    const store: RemoteSensorRuntimeStore

    ghost predicate Valid()
      reads registry, store, store.Repr
    {
      && registry.Valid() && store.Valid()
      && registry as object !in store.Repr
      && registry as object != store as object
      && registry.rateLimitPerMinute == settings.rateLimit
      && store.maxSensors == settings.maxSensors && store.infer == settings.infer
    }

    ghost function Model(): Central
      requires Valid()
      reads registry, store, store.Repr
    {
      Central(registry.Model(), store.Model())
    }

    constructor (settings: Settings, loaded: map<string, Sensor>)
      requires settings.rateLimit > 0 && settings.maxSensors > 0
      ensures Valid() && Model() == Central(Registry(loaded, map[]), map[])
      ensures this.settings == settings
    {
      this.settings := settings;
      registry := new SensorRegistry(settings.rateLimit, loaded);
      store := new RemoteSensorRuntimeStore(settings.maxSensors, settings.infer);
    }

    method IngestAndCommitBatch(id: string, b: Batch, nowCommit: int) returns (reply: Reply)
      requires Valid()
      modifies registry, store, store.Repr
      ensures Valid() && fresh(store.Repr - old(store.Repr))
      ensures (Model(), reply) == IngestAndCommit(settings, old(Model()), id, b, nowCommit)
    {
      var error := store.IngestFor(id, b.states);
      if error.Some? {
        return ContractError;
      }
      var outcome := registry.AcceptBatch(id, b, nowCommit);
      reply := if outcome == Accepted then AcceptedReply else FailedAtCommit;
    }

    method ProcessBatch(id: string, b: Batch, nowCommit: int) returns (reply: Reply)
      requires Valid()
      modifies registry, store, store.Repr
      ensures Valid() && fresh(store.Repr - old(store.Repr))
      ensures (Model(), reply) == Process(settings, old(Model()), id, b, nowCommit)
    {
      var found := store.RuntimeFor(id);
      if !found {
        return ContractError;
      }
      var sourcesOk := CheckSources(b.sourceIntervals, settings.maxSourcesPerWindow);
      if !sourcesOk {
        return SourceLimitExceeded;
      }
      reply := IngestAndCommitBatch(id, b, nowCommit);
    }

    /** The part after the duplicate test. */
    method AdmitBatch(id: string, b: Batch, nowCheck: int, nowCommit: int) returns (reply: Reply)
      requires Valid() && id in registry.sensors
      modifies registry, store, store.Repr
      ensures Valid() && fresh(store.Repr - old(store.Repr))
      ensures (Model(), reply) == Admit(settings, old(Model()), id, b, nowCheck, nowCommit)
    {
      var room := registry.CheckCapacity(id, nowCheck);
      if room != Accepted {
        return RateLimitedReply;
      }
      reply := ProcessBatch(id, b, nowCommit);
    }

    method ValidateRequest(authenticated: string, b: Batch) returns (refusal: Option<Reply>)
      ensures refusal == Validate(registry.sensors, authenticated, b)
    {
      if !SchemaValid(b) {
        return Some(SchemaError);
      }
      if authenticated !in registry.sensors {
        return Some(Unauthenticated);
      }
      if b.sensorId != authenticated {
        return Some(IdentityMismatch);
      }
      var coherent := CheckCoherence(b.states);
      refusal := if coherent then None else Some(ContractError);
    }

    method AcknowledgeAgain(id: string) returns (reply: Reply)
      requires Valid()
      modifies store
      ensures Valid() && fresh(store.Repr - old(store.Repr))
      ensures (Model(), reply) == Acknowledge(settings, old(Model()), id)
    {
      var found := store.RuntimeFor(id);
      reply := if found then DuplicateAcknowledged else ContractError;
    }

    /** The part after validation. */
    method DeliverBatch(id: string, b: Batch, nowCheck: int, nowCommit: int) returns (reply: Reply)
      requires Valid() && id in registry.sensors
      modifies registry, store, store.Repr
      ensures Valid() && fresh(store.Repr - old(store.Repr))
      ensures (Model(), reply) == Respond(settings, old(Model()), id, b, nowCheck, nowCommit)
    {
      var verdict := registry.CheckDelivery(id, b);
      match verdict.value {
        case Conflict => reply := ConflictReply;
        case Duplicate => reply := AcknowledgeAgain(id);
        case Fresh => reply := AdmitBatch(id, b, nowCheck, nowCommit);
      }
    }

    method IngestRemoteTelemetry(authenticated: string, b: Batch, nowCheck: int, nowCommit: int) returns (reply: Reply)
      requires Valid()
      modifies registry, store, store.Repr
      ensures Valid() && fresh(store.Repr - old(store.Repr))
      ensures (Model(), reply) == Handle(settings, old(Model()), authenticated, b, nowCheck, nowCommit)
    {
      var refusal := ValidateRequest(authenticated, b);
      if refusal.Some? {
        return refusal.value;
      }
      reply := DeliverBatch(authenticated, b, nowCheck, nowCommit);
    }
  }
}
