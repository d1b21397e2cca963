/** Whole runs of the central service: any interleaving of telemetry requests and heartbeats of
    any sensors, accepted or refused, and of service restarts. */
module CentralRuns {
  import opened Prelude
  import opened Telemetry
  import opened SensorRuntime
  import opened SensorRegistries
  import opened Endpoint

  datatype Event =
    | Deliver(id: string, batch: Batch, nowCheck: int, nowCommit: int)
    | Beat(id: string, now: int, lastSent: nat, lastAcknowledged: nat)
    | Restart

  /** The registry is on disk; request windows and runtimes are not. */
  function Reload(c: Central): Central {
    Central(Registry(c.registry.sensors, map[]), map[])
  }

  function Step(cfg: Settings, c: Central, e: Event): Central {
    match e
    case Deliver(id, b, nowCheck, nowCommit) => Handle(cfg, c, id, b, nowCheck, nowCommit).0
    case Beat(id, now, lastSent, lastAcknowledged) =>
      c.(registry := AcceptHeartbeat(c.registry, cfg.rateLimit, id, now, lastSent, lastAcknowledged).0)
    case Restart => Reload(c)
  }

  predicate Commits(cfg: Settings, c: Central, e: Event, id: string) {
    e.Deliver? && e.id == id && Handle(cfg, c, id, e.batch, e.nowCheck, e.nowCommit).1 == AcceptedReply
  }

  /** The service after a run, with the batches of one sensor it answered ACCEPTED to: `ever`
      since the run began, `live` since the last restart. */
  datatype Trail = Trail(central: Central, ever: seq<Batch>, live: seq<Batch>)

  function Follow(cfg: Settings, start: Central, events: seq<Event>, id: string): Trail {
    if events == [] then Trail(start, [], [])
    else
      var t := Follow(cfg, start, Front(events), id);
      Advance(cfg, t, Last(events), id)
  }

  function Advance(cfg: Settings, t: Trail, e: Event, id: string): Trail {
    var c := Step(cfg, t.central, e);
    if Commits(cfg, t.central, e, id) then Trail(c, t.ever + [e.batch], t.live + [e.batch])
    else Trail(c, t.ever, if e.Restart? then [] else t.live)
  }

  function StatesOf(batches: seq<Batch>): seq<StatePoint> {
    if batches == [] then [] else StatesOf(Front(batches)) + Last(batches).states
  }

  ghost predicate Increasing(batches: seq<Batch>, above: nat) {
    && (forall i :: 0 <= i < |batches| ==> batches[i].sequence > above)
    && (forall i, j :: 0 <= i < j < |batches| ==> batches[i].sequence < batches[j].sequence)
  }

  /** The registry's record of a sensor is its last accepted batch. */
  ghost predicate Records(sensor: Sensor, first: Sensor, ever: seq<Batch>) {
    if ever == [] then sensor.lastSequence == first.lastSequence && sensor.lastBatch == first.lastBatch
    else sensor.lastSequence == Last(ever).sequence && sensor.lastBatch == Some(Last(ever))
  }

  /** A sensor's record and accepted states are those of its commits. */
  ghost predicate Explained(first: Sensor, sensor: Sensor, log: seq<StatePoint>, ever: seq<Batch>, live: seq<Batch>) {
    && Increasing(ever, first.lastSequence)
    && Records(sensor, first, ever)
    && |live| <= |ever| && live == ever[|ever| - |live|..]
    && log == StatesOf(live)
  }

  ghost predicate Consistent(start: Central, t: Trail, id: string)
    requires id in start.registry.sensors
  {
    && id in t.central.registry.sensors
    && Explained(start.registry.sensors[id], t.central.registry.sensors[id], LogOf(t.central.runtimes, id), t.ever, t.live)
  }

  /** What a step may change in a sensor's deliveries when it commits nothing for it. */
  lemma {:induction false} OtherStepsKeepDeliveries(cfg: Settings, c: Central, e: Event, id: string)
    requires id in c.registry.sensors && !Commits(cfg, c, e, id)
    ensures
      var after := Step(cfg, c, e);
      && id in after.registry.sensors
      && after.registry.sensors[id].lastSequence == c.registry.sensors[id].lastSequence
      && after.registry.sensors[id].lastBatch == c.registry.sensors[id].lastBatch
      && LogOf(after.runtimes, id) == if e.Restart? then [] else LogOf(c.runtimes, id)
  {
    if e.Deliver? {
      if e.id == id {
        RequestCommitsOrLeavesAlone(cfg, c, id, e.batch, e.nowCheck, e.nowCommit);
      } else {
        OtherSensorsAreUntouched(cfg, c, e.id, e.batch, e.nowCheck, e.nowCommit, id);
      }
    }
  }

  lemma {:induction false} IncreasingGrows(batches: seq<Batch>, above: nat, b: Batch)
    requires Increasing(batches, above)
    requires b.sequence > if batches == [] then above else Last(batches).sequence
    ensures Increasing(batches + [b], above)
  {
    forall i | 0 <= i < |batches|
      ensures batches[i].sequence < b.sequence
    {
      assert batches[i].sequence <= Last(batches).sequence;
    }
  }

  lemma {:induction false} SuffixGrows(s: seq<Batch>, t: seq<Batch>, b: Batch)
    requires |t| <= |s| && t == s[|s| - |t|..]
    ensures t + [b] == (s + [b])[|s| - |t|..]
  {
  }

  lemma {:induction false} CommitIsExplained(first: Sensor, sensor: Sensor, log: seq<StatePoint>,
                                             ever: seq<Batch>, live: seq<Batch>, b: Batch, committed: Sensor)
    requires Explained(first, sensor, log, ever, live)
    requires b.sequence > sensor.lastSequence
    requires committed.lastSequence == b.sequence && committed.lastBatch == Some(b)
    ensures Explained(first, committed, log + b.states, ever + [b], live + [b])
  {
    assert Front(live + [b]) == live && Last(live + [b]) == b && Last(ever + [b]) == b;
    SuffixGrows(ever, live, b);
    IncreasingGrows(ever, first.lastSequence, b);
  }

  lemma {:induction false} StepStaysConsistent(cfg: Settings, start: Central, t: Trail, e: Event, id: string)
    requires id in start.registry.sensors && Consistent(start, t, id)
    ensures Consistent(start, Advance(cfg, t, e, id), id)
  {
    if Commits(cfg, t.central, e, id) {
      RequestCommitsOrLeavesAlone(cfg, t.central, id, e.batch, e.nowCheck, e.nowCommit);
      CommitIsExplained(start.registry.sensors[id], t.central.registry.sensors[id], LogOf(t.central.runtimes, id),
                        t.ever, t.live, e.batch, Step(cfg, t.central, e).registry.sensors[id]);
    } else {
      OtherStepsKeepDeliveries(cfg, t.central, e, id);
    }
  }

  /** Over every run from a freshly started service: a sensor's committed sequences strictly
      increase, so each is committed at most once; the registry holds the last of them; and the
      states its runtime has accepted are exactly the states of the batches committed since the
      last restart, in order, whatever other sensors and refused requests did meanwhile. */
  lemma {:induction false} RuntimesHoldExactlyTheCommits(cfg: Settings, start: Central, events: seq<Event>, id: string)
    requires start.runtimes == map[] && id in start.registry.sensors
    ensures Consistent(start, Follow(cfg, start, events, id), id)
  {
    if events == [] {
      assert StatesOf([]) == [];
    } else {
      RuntimesHoldExactlyTheCommits(cfg, start, Front(events), id);
      StepStaysConsistent(cfg, start, Follow(cfg, start, Front(events), id), Last(events), id);
    }
  }

  // ---- Forecasts over runs ----

  /** The runtime a request of `id` works on. */
  function RuntimeOf(c: Central, id: string): Runtime {
    if id in c.runtimes then c.runtimes[id] else NewRuntime(id)
  }

  /** A request leaves its sensor's runtime alone or has it ingest the batch. */
  lemma {:induction false} RequestIngestsOrLeavesAlone(cfg: Settings, c: Central, id: string, b: Batch,
                                                       nowCheck: int, nowCommit: int)
    ensures
      var after := Handle(cfg, c, id, b, nowCheck, nowCommit).0;
      || RuntimeOf(after, id) == RuntimeOf(c, id)
      || RuntimeOf(after, id) == Ingest(RuntimeOf(c, id), b.states, cfg.infer).0
  {
  }

  /** Any step leaves a sensor's runtime alone, has it ingest one batch, or replaces it by a new one. */
  lemma {:induction false} StepIngestsOrLeavesAlone(cfg: Settings, c: Central, e: Event, id: string)
    ensures
      var after := RuntimeOf(Step(cfg, c, e), id);
      || after == RuntimeOf(c, id)
      || after == NewRuntime(id)
      || (e.Deliver? && after == Ingest(RuntimeOf(c, id), e.batch.states, cfg.infer).0)
  {
    if e.Deliver? {
      if e.id == id {
        RequestIngestsOrLeavesAlone(cfg, c, id, e.batch, e.nowCheck, e.nowCommit);
      } else {
        OtherSensorsAreUntouched(cfg, c, e.id, e.batch, e.nowCheck, e.nowCommit, id);
      }
    }
  }

  lemma {:induction false} StepKeepsAgreement(cfg: Settings, c: Central, e: Event, id: string)
    requires AgreesWithLog(RuntimeOf(c, id), cfg.infer)
    ensures AgreesWithLog(RuntimeOf(Step(cfg, c, e), id), cfg.infer)
  {
    var before, after := RuntimeOf(c, id), RuntimeOf(Step(cfg, c, e), id);
    StepIngestsOrLeavesAlone(cfg, c, e, id);
    if after != before {
      NewRuntimeAgrees(id, cfg.infer);
      if after != NewRuntime(id) {
        IngestFromKeepsAgreement(before, e.batch.states, cfg.infer);
      }
    }
  }

  /** Over every run, each sensor's cached forecast is present exactly when its last ten accepted
      states are gap-free on one day, and is the forecast of exactly those ten. */
  lemma {:induction false} ForecastsFollowTheCommits(cfg: Settings, start: Central, events: seq<Event>, id: string)
    requires start.runtimes == map[]
    ensures AgreesWithLog(RuntimeOf(Follow(cfg, start, events, id).central, id), cfg.infer)
  {
    if events == [] {
      NewRuntimeAgrees(id, cfg.infer);
    } else {
      ForecastsFollowTheCommits(cfg, start, Front(events), id);
      StepKeepsAgreement(cfg, Follow(cfg, start, Front(events), id).central, Last(events), id);
    }
  }

  lemma {:induction false} StepMovesForward(cfg: Settings, c: Central, e: Event, id: string)
    requires AgreesWithLog(RuntimeOf(c, id), cfg.infer) && TimesIncrease(RuntimeOf(c, id).log)
    ensures TimesIncrease(RuntimeOf(Step(cfg, c, e), id).log)
  {
    var before, after := RuntimeOf(c, id), RuntimeOf(Step(cfg, c, e), id);
    StepIngestsOrLeavesAlone(cfg, c, e, id);
    if after != before && after != NewRuntime(id) {
      IngestFromMovesForward(before, e.batch.states, cfg.infer);
    }
  }

  lemma {:induction false} FollowStep(cfg: Settings, start: Central, events: seq<Event>, id: string)
    requires events != []
    ensures Follow(cfg, start, events, id).central == Step(cfg, Follow(cfg, start, Front(events), id).central, Last(events))
  {
  }

  /** Over every run, the states a runtime has accepted move forward in time, so it never accepts
      the same state twice. */
  lemma {:induction false} AcceptedStatesMoveForward(cfg: Settings, start: Central, events: seq<Event>, id: string)
    requires start.runtimes == map[]
    ensures TimesIncrease(RuntimeOf(Follow(cfg, start, events, id).central, id).log)
  {
    if events == [] {
      assert RuntimeOf(start, id).log == [];
    } else {
      ForecastsFollowTheCommits(cfg, start, Front(events), id);
      AcceptedStatesMoveForward(cfg, start, Front(events), id);
      StepMovesForward(cfg, Follow(cfg, start, Front(events), id).central, Last(events), id);
      FollowStep(cfg, start, events, id);
    }
  }
}
