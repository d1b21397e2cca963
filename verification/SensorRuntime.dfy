/** Per-sensor history and cached forecast at the central service (src/sensors/runtime.py). */
module SensorRuntime {
  import opened Prelude
  import opened Telemetry
  import opened StateBuffers

  /** The model is a total function of ten states; its arithmetic is not part of this model. */
  type Inference = seq<StatePoint> -> seq<real>

  datatype Forecast = Forecast(sensorId: string, scores: seq<real>)

  datatype IngestError = EmptyBatch | MalformedState | StateRefused(reason: Refusal) | TooManySensors

  /** `log` is every state ever accepted, in order; the service itself keeps its length and
      its last 128 rows. */
  datatype Runtime = Runtime(sensorId: string, buffer: History, log: seq<StatePoint>, historyLength: nat,
                             forecast: Option<Forecast>, forecastUpdates: nat, rejectedStates: nat)

  function NewRuntime(sensorId: string): Runtime {
    Runtime(sensorId, EMPTY_HISTORY, [], 0, None, 0, 0)
  }

  function Accept(rt: Runtime, s: StatePoint, infer: Inference): Result<Runtime, Runtime> {
    var (buffer, update) := Push(rt.buffer, s);
    match update
    case Refused(_) => Err(rt.(rejectedStates := rt.rejectedStates + 1))
    case WaitingForNextValidState =>
      Ok(rt.(buffer := Push(Reset(buffer), s).0, log := rt.log + [s], historyLength := 1, forecast := None))
    case DayBoundaryReset =>
      Ok(rt.(buffer := buffer, log := rt.log + [s], historyLength := 1, forecast := None))
    case Buffering =>
      Ok(rt.(buffer := buffer, log := rt.log + [s], historyLength := Min(10, rt.historyLength + 1)))
    case Ready(sequence) =>
      Ok(rt.(buffer := buffer, log := rt.log + [s], historyLength := Min(10, rt.historyLength + 1),
             forecast := Some(Forecast(rt.sensorId, infer(sequence))), forecastUpdates := rt.forecastUpdates + 1))
  }

  /** States are taken one by one; the first that fails stops the batch where it stands. */
  function IngestFrom(rt: Runtime, states: seq<StatePoint>, infer: Inference): (Runtime, Option<IngestError>)
    decreases |states|
  {
    if states == [] then (rt, None)
    else if !WellFormed(states[0]) then (rt, Some(MalformedState))
    else
      match Accept(rt, states[0], infer)
      case Err(after) => (after, Some(StateRefused(Push(rt.buffer, states[0]).1.reason)))
      case Ok(after) => IngestFrom(after, states[1..], infer)
  }

  function Ingest(rt: Runtime, states: seq<StatePoint>, infer: Inference): (Runtime, Option<IngestError>) {
    if states == [] then (rt, Some(EmptyBatch)) else IngestFrom(rt, states, infer)
  }

  // ---- History and forecast against the log ----

  /** The length of the longest gap-free same-day suffix of the log. */
  function RunLength(log: seq<StatePoint>): nat {
    if |log| <= 1 then |log|
    else if Linked(log[|log| - 2], Last(log)) then 1 + RunLength(Front(log))
    else 1
  }

  ghost predicate GapFree(states: seq<StatePoint>) {
    forall i :: 0 <= i < |states| - 1 ==> Linked(states[i], states[i + 1])
  }

  /** RunLength is what its name says: a suffix is gap-free exactly up to that length. */
  lemma {:induction false} RunLengthIsLongest(log: seq<StatePoint>, k: nat)
    requires k <= |log|
    ensures GapFree(log[|log| - k..]) <==> k <= RunLength(log)
  {
    var n := |log|;
    RunLengthBounds(log);
    if k >= 2 {
      var tail := log[n - k..];
      RunLengthIsLongest(Front(log), k - 1);
      assert Front(tail) == Front(log)[n - k..];
      assert tail[k - 2] == log[n - 2] && Last(tail) == Last(log);
    }
  }

  lemma {:induction false} RunLengthBounds(log: seq<StatePoint>)
    ensures RunLength(log) <= |log|
    ensures log != [] ==> RunLength(log) >= 1
  {
    if |log| >= 2 {
      RunLengthBounds(Front(log));
    }
  }

  /** The last states of the log that may enter one model input: at most ten, gap-free. */
  function Window(log: seq<StatePoint>): seq<StatePoint> {
    var k := Min(SEQUENCE_LENGTH, RunLength(log));
    if k <= |log| then log[|log| - k..] else log
  }

  lemma {:induction false} WindowEndsTheLog(log: seq<StatePoint>)
    ensures |Window(log)| == Min(SEQUENCE_LENGTH, RunLength(log)) <= |log|
    ensures log != [] ==> Window(log) != [] && Last(Window(log)) == Last(log)
  {
    RunLengthBounds(log);
  }

  lemma {:induction false} RunLengthGrows(log: seq<StatePoint>, s: StatePoint)
    ensures RunLength(log + [s]) == if log == [] || !Linked(Last(log), s) then 1 else 1 + RunLength(log)
  {
    var longer := log + [s];
    assert Last(longer) == s && Front(longer) == log;
    assert log != [] ==> longer[|longer| - 2] == Last(log);
  }

  lemma {:induction false} SuffixGrows(log: seq<StatePoint>, s: StatePoint, k: nat)
    requires k <= |log|
    ensures (log + [s])[|log| - k..] == log[|log| - k..] + [s]
    ensures k > 0 ==> (log + [s])[|log| + 1 - k..] == (log[|log| - k..] + [s])[1..]
  {
  }

  lemma {:induction false} WindowSlides(log: seq<StatePoint>, s: StatePoint)
    ensures
      var grown := Window(log) + [s];
      Window(log + [s]) ==
        if log == [] || !Linked(Last(log), s) then [s]
        else if |grown| > SEQUENCE_LENGTH then grown[1..]
        else grown
  {
    RunLengthBounds(log);
    RunLengthGrows(log, s);
    var k := RunLength(log);
    if log == [] || !Linked(Last(log), s) {
      SuffixGrows(log, s, 0);
    } else if k < SEQUENCE_LENGTH {
      SuffixGrows(log, s, k);
    } else {
      SuffixGrows(log, s, SEQUENCE_LENGTH);
    }
  }

  /** The cached length, buffer and forecast are those of `window`. */
  ghost predicate Caches(rt: Runtime, window: seq<StatePoint>, infer: Inference) {
    && rt.buffer.states == window
    && rt.buffer.acceptedCount == |rt.log|
    && (rt.log != [] ==> rt.buffer.day == Some(Last(rt.log).captureDay))
    && rt.historyLength == |window|
    && rt.forecast == if |window| == SEQUENCE_LENGTH then Some(Forecast(rt.sensorId, infer(window))) else None
  }

  ghost predicate AgreesWithLog(rt: Runtime, infer: Inference) {
    Caches(rt, Window(rt.log), infer)
  }

  /** The runtime after `s` began a new history. */
  function Restarted(rt: Runtime, s: StatePoint): Runtime {
    rt.(buffer := History([s], rt.buffer.acceptedCount + 1, Some(s.captureDay)), log := rt.log + [s],
        historyLength := 1, forecast := None)
  }

  /** The runtime after `s` was appended, giving the buffered states `window`. */
  function Extended(rt: Runtime, s: StatePoint, window: seq<StatePoint>, infer: Inference): Runtime {
    var grown := rt.(buffer := History(window, rt.buffer.acceptedCount + 1, Some(s.captureDay)),
                     log := rt.log + [s], historyLength := Min(10, rt.historyLength + 1));
    if |window| == SEQUENCE_LENGTH
    then grown.(forecast := Some(Forecast(rt.sensorId, infer(window))), forecastUpdates := rt.forecastUpdates + 1)
    else grown
  }

  function Slide(states: seq<StatePoint>, s: StatePoint): seq<StatePoint> {
    var grown := states + [s];
    if |grown| > SEQUENCE_LENGTH then grown[1..] else grown
  }

  /** A state either follows the buffered ones without a gap and extends them, or starts over,
      or is refused for not being later. */
  lemma {:induction false} AcceptExtendsOrRestarts(rt: Runtime, s: StatePoint, infer: Inference)
    requires rt.buffer.states != [] ==> rt.buffer.day == Some(Last(rt.buffer.states).captureDay)
    ensures
      var h := rt.buffer;
      Accept(rt, s, infer) ==
        if h.states == [] || Linked(Last(h.states), s) then Ok(Extended(rt, s, Slide(h.states, s), infer))
        else if s.timestamp > Last(h.states).timestamp then Ok(Restarted(rt, s))
        else Err(rt.(rejectedStates := rt.rejectedStates + 1))
  {
    assert [] + [s] == [s];
  }

  lemma {:induction false} RestartAgrees(rt: Runtime, s: StatePoint, infer: Inference)
    requires AgreesWithLog(rt, infer) && rt.log != [] && !Linked(Last(rt.log), s)
    ensures AgreesWithLog(Restarted(rt, s), infer)
  {
    WindowSlides(rt.log, s);
    assert Last(rt.log + [s]) == s;
  }

  lemma {:induction false} SlideIsWindow(log: seq<StatePoint>, s: StatePoint)
    requires log == [] || Linked(Last(log), s)
    ensures Slide(Window(log), s) == Window(log + [s])
    ensures |Slide(Window(log), s)| == Min(SEQUENCE_LENGTH, |Window(log)| + 1)
  {
    WindowEndsTheLog(log);
    WindowSlides(log, s);
    assert [] + [s] == [s];
  }

  lemma {:induction false} ExtensionAgrees(rt: Runtime, s: StatePoint, infer: Inference)
    requires AgreesWithLog(rt, infer) && (rt.log == [] || Linked(Last(rt.log), s))
    ensures AgreesWithLog(Extended(rt, s, Slide(rt.buffer.states, s), infer), infer)
  {
    SlideIsWindow(rt.log, s);
  }

  lemma {:induction false} AcceptKeepsAgreement(rt: Runtime, s: StatePoint, infer: Inference)
    requires AgreesWithLog(rt, infer)
    ensures match Accept(rt, s, infer)
            case Ok(after) => AgreesWithLog(after, infer)
            case Err(after) => AgreesWithLog(after, infer)
  {
    WindowEndsTheLog(rt.log);
    AcceptExtendsOrRestarts(rt, s, infer);
    if rt.log == [] || Linked(Last(rt.log), s) {
      ExtensionAgrees(rt, s, infer);
    } else {
      RestartAgrees(rt, s, infer);
    }
  }

  ghost predicate TimesIncrease(log: seq<StatePoint>) {
    forall i, j :: 0 <= i < j < |log| ==> log[i].timestamp < log[j].timestamp
  }

  lemma {:induction false} LaterStateKeepsOrder(log: seq<StatePoint>, s: StatePoint)
    requires TimesIncrease(log) && (log != [] ==> Last(log).timestamp < s.timestamp)
    ensures TimesIncrease(log + [s])
  {
    forall i | 0 <= i < |log|
      ensures log[i].timestamp < s.timestamp
    {
      assert log[i].timestamp <= Last(log).timestamp;
    }
  }

  lemma {:induction false} AcceptedStateIsLater(rt: Runtime, s: StatePoint, infer: Inference)
    requires AgreesWithLog(rt, infer)
    ensures match Accept(rt, s, infer)
            case Ok(after) => after.log == rt.log + [s] && (rt.log != [] ==> Last(rt.log).timestamp < s.timestamp)
            case Err(after) => after.log == rt.log
  {
    WindowEndsTheLog(rt.log);
    AcceptExtendsOrRestarts(rt, s, infer);
  }

  /** A runtime accepts no state twice: whatever it is sent, its log moves forward in time. */
  lemma {:induction false} IngestFromMovesForward(rt: Runtime, states: seq<StatePoint>, infer: Inference)
    requires AgreesWithLog(rt, infer) && TimesIncrease(rt.log)
    ensures TimesIncrease(IngestFrom(rt, states, infer).0.log)
    decreases |states|
  {
    if states != [] && WellFormed(states[0]) {
      AcceptedStateIsLater(rt, states[0], infer);
      AcceptKeepsAgreement(rt, states[0], infer);
      match Accept(rt, states[0], infer) {
        case Err(_) =>
        case Ok(after) =>
          LaterStateKeepsOrder(rt.log, states[0]);
          IngestFromMovesForward(after, states[1..], infer);
      }
    }
  }

  lemma {:induction false} IngestFromKeepsAgreement(rt: Runtime, states: seq<StatePoint>, infer: Inference)
    requires AgreesWithLog(rt, infer)
    ensures AgreesWithLog(IngestFrom(rt, states, infer).0, infer)
    decreases |states|
  {
    if states != [] && WellFormed(states[0]) {
      AcceptKeepsAgreement(rt, states[0], infer);
      match Accept(rt, states[0], infer) {
        case Err(_) =>
        case Ok(after) => IngestFromKeepsAgreement(after, states[1..], infer);
      }
    }
  }

  lemma {:induction false} NewRuntimeAgrees(sensorId: string, infer: Inference)
    ensures AgreesWithLog(NewRuntime(sensorId), infer)
  {
  }

  /** The runtime a new sensor reaches after any sequence of ingest calls, failed ones included. */
  function RuntimeAfter(sensorId: string, batches: seq<seq<StatePoint>>, infer: Inference): Runtime {
    if batches == [] then NewRuntime(sensorId)
    else Ingest(RuntimeAfter(sensorId, Front(batches), infer), Last(batches), infer).0
  }

  /** Over every run: the history length is the length of the longest gap-free same-day suffix
      of the accepted states, capped at ten; a forecast is present exactly when that is ten,
      and is the one computed from exactly the last ten accepted states. */
  lemma {:induction false} HistoryAndForecastFollowLog(sensorId: string, batches: seq<seq<StatePoint>>, infer: Inference)
    ensures AgreesWithLog(RuntimeAfter(sensorId, batches, infer), infer)
  {
    if batches == [] {
      NewRuntimeAgrees(sensorId, infer);
    } else {
      HistoryAndForecastFollowLog(sensorId, Front(batches), infer);
      IngestFromKeepsAgreement(RuntimeAfter(sensorId, Front(batches), infer), Last(batches), infer);
    }
  }

  // ---- Whole batches ----

  /** The first state of a batch would be accepted. */
  predicate Extends(rt: Runtime, s: StatePoint) {
    rt.buffer.states == [] || s.timestamp > Last(rt.buffer.states).timestamp
  }

  lemma {:induction false} TailIsGapFree(previous: StatePoint, states: seq<StatePoint>)
    requires states != [] && GapFree([previous] + states)
    ensures Linked(previous, states[0]) && GapFree([states[0]] + states[1..])
  {
    var all := [previous] + states;
    assert Linked(all[0], all[1]);
    assert [states[0]] + states[1..] == states;
    forall i | 0 <= i < |states| - 1
      ensures Linked(states[i], states[i + 1])
    {
      assert Linked(all[i + 1], all[i + 2]);
    }
  }

  /** Taking the first state and then the rest is taking them all. */
  lemma {:induction false} FirstThenRest(rt: Runtime, after: Runtime, states: seq<StatePoint>, infer: Inference)
    requires states != [] && WellFormed(states[0]) && Accept(rt, states[0], infer) == Ok(after)
    requires after.log == rt.log + [states[0]]
    requires IngestFrom(after, states[1..], infer).1 == None
    requires IngestFrom(after, states[1..], infer).0.log == after.log + states[1..]
    ensures IngestFrom(rt, states, infer).1 == None
    ensures IngestFrom(rt, states, infer).0.log == rt.log + states
  {
    assert rt.log + [states[0]] + states[1..] == rt.log + states;
  }

  lemma {:induction false} GapFreeTailIsTaken(rt: Runtime, previous: StatePoint, states: seq<StatePoint>, infer: Inference)
    requires rt.buffer.states != [] && Last(rt.buffer.states) == previous
    requires rt.buffer.day == Some(previous.captureDay)
    requires GapFree([previous] + states)
    requires forall i :: 0 <= i < |states| ==> WellFormed(states[i])
    ensures IngestFrom(rt, states, infer).1 == None
    ensures IngestFrom(rt, states, infer).0.log == rt.log + states
    decreases |states|
  {
    if states == [] {
      assert rt.log + states == rt.log;
    } else {
      TailIsGapFree(previous, states);
      AcceptExtendsOrRestarts(rt, states[0], infer);
      var after := Extended(rt, states[0], Slide(rt.buffer.states, states[0]), infer);
      assert Accept(rt, states[0], infer) == Ok(after);
      GapFreeTailIsTaken(after, states[0], states[1..], infer);
      FirstThenRest(rt, after, states, infer);
    }
  }

  /** A well-formed gap-free batch is taken whole or leaves everything but the rejection counter
      alone, and it is taken exactly when its first state is later than the last one buffered. */
  lemma {:induction false} WholeBatchOrNothing(rt: Runtime, states: seq<StatePoint>, infer: Inference)
    requires states != [] && GapFree(states)
    requires forall i :: 0 <= i < |states| ==> WellFormed(states[i])
    ensures
      var (after, error) := Ingest(rt, states, infer);
      if Extends(rt, states[0])
      then error == None && after.log == rt.log + states
      else error.Some? && error.value.StateRefused? && after == rt.(rejectedStates := rt.rejectedStates + 1)
  {
    if Extends(rt, states[0]) {
      var after := Accept(rt, states[0], infer).value;
      assert [states[0]] + states[1..] == states;
      GapFreeTailIsTaken(after, states[0], states[1..], infer);
      FirstThenRest(rt, after, states, infer);
    }
  }

  // ---- The runtime objects ----

  const STATE_ROWS_KEPT: nat := 128

  /** The rows a bounded deque still holds of everything appended to it. */
  function Recent(log: seq<StatePoint>): seq<StatePoint> {
    if |log| <= STATE_ROWS_KEPT then log else log[|log| - STATE_ROWS_KEPT..]
  }

  class RemoteSensorRuntime {
    const sensorId: string
    const infer: Inference
    const buffer: StateBuffer
    var stateRows: seq<StatePoint>
    var latestForecast: Option<Forecast>
    var acceptedStates: nat
    var historyLength: nat
    var forecastUpdates: nat
    var rejectedStates: nat
    ghost var log: seq<StatePoint>

    ghost predicate Valid()
      reads this
    {
      && acceptedStates == |log|
      && stateRows == Recent(log)
    }

    ghost function Model(): Runtime
      reads this, buffer
    {
      Runtime(sensorId, buffer.Model(), log, historyLength, latestForecast, forecastUpdates, rejectedStates)
    }

    constructor (sensorId: string, infer: Inference)
      ensures Valid() && Model() == NewRuntime(sensorId)
      ensures this.sensorId == sensorId && this.infer == infer
      ensures fresh(buffer) && buffer.owner == sensorId
    {
      this.sensorId := sensorId;
      this.infer := infer;
      buffer := new StateBuffer(sensorId);
      stateRows, latestForecast := [], None;
      acceptedStates, historyLength, forecastUpdates, rejectedStates := 0, 0, 0, 0;
      log := [];
    }

    method Remember(s: StatePoint)
      requires Valid()
      modifies this`acceptedStates, this`log, this`stateRows
      ensures Valid() && log == old(log) + [s]
    {
      acceptedStates := acceptedStates + 1;
      log := log + [s];
      stateRows := stateRows + [s];
      if |stateRows| > STATE_ROWS_KEPT {
        stateRows := stateRows[1..];
      }
    }

    method AcceptState(s: StatePoint) returns (refusal: Option<Refusal>)
      requires Valid()
      modifies this, buffer
      ensures Valid()
      ensures match Accept(old(Model()), s, infer)
              case Ok(after) => refusal == None && Model() == after
              case Err(after) => refusal == Some(Push(old(Model()).buffer, s).1.reason) && Model() == after
    {
      var update := buffer.PushState(s);
      if update.Refused? {
        rejectedStates := rejectedStates + 1;
        return Some(update.reason);
      }
      if update == WaitingForNextValidState {
        buffer.ResetBuffer();
        update := buffer.PushState(s);
        historyLength := 1;
        latestForecast := None;
      } else if update == DayBoundaryReset {
        historyLength := 1;
        latestForecast := None;
      } else {
        historyLength := Min(10, historyLength + 1);
      }
      Remember(s);
      if update.Ready? {
        latestForecast := Some(Forecast(sensorId, infer(update.sequence)));
        forecastUpdates := forecastUpdates + 1;
      }
      refusal := None;
    }

    method IngestStates(states: seq<StatePoint>) returns (error: Option<IngestError>)
      requires Valid()
      modifies this, buffer
      ensures Valid() && (Model(), error) == Ingest(old(Model()), states, infer)
    {
      if states == [] {
        return Some(EmptyBatch);
      }
      var i := 0;
      while i < |states|
        invariant 0 <= i <= |states| && Valid()
        invariant IngestFrom(Model(), states[i..], infer) == IngestFrom(old(Model()), states, infer)
      {
        if !WellFormed(states[i]) {
          return Some(MalformedState);
        }
        var refusal := AcceptState(states[i]);
        if refusal.Some? {
          return Some(StateRefused(refusal.value));
        }
        assert states[i..][1..] == states[i + 1..];
        i := i + 1;
      }
      error := None;
    }
  }

  // ---- The store of runtimes ----

  /** The stored runtimes once `id` has one; nothing when the store is full. */
  function WithRuntime(runtimes: map<string, Runtime>, id: string, maxSensors: nat): Option<map<string, Runtime>> {
    if id in runtimes then Some(runtimes)
    else if |runtimes| >= maxSensors then None
    else Some(runtimes[id := NewRuntime(id)])
  }

  function StoreIngest(runtimes: map<string, Runtime>, id: string, states: seq<StatePoint>, maxSensors: nat,
                       infer: Inference): (map<string, Runtime>, Option<IngestError>)
  {
    match WithRuntime(runtimes, id, maxSensors)
    case None => (runtimes, Some(TooManySensors))
    case Some(ready) =>
      var (after, error) := Ingest(ready[id], states, infer);
      (ready[id := after], error)
  }

  class RemoteSensorRuntimeStore {
    const infer: Inference
    const maxSensors: nat
    var runtimes: map<string, RemoteSensorRuntime>
    ghost var Repr: set<object>

    /** Every sensor has a runtime and a buffer of its own. */
    ghost predicate Owned()
      reads this
    {
      && this !in Repr
      && forall id :: id in runtimes ==>
           && runtimes[id] in Repr && runtimes[id].buffer in Repr
           && runtimes[id].sensorId == id == runtimes[id].buffer.owner
           && runtimes[id].infer == infer
    }

    ghost predicate Valid()
      reads this, Repr
    {
      Owned() && forall id :: id in runtimes ==> runtimes[id].Valid()
    }

    ghost function Model(): map<string, Runtime>
      requires Owned()
      reads this, Repr
    {
      map id | id in runtimes :: runtimes[id].Model()
    }

    constructor (maxSensors: nat, infer: Inference)
      requires maxSensors > 0
      ensures Valid() && Model() == map[] && Repr == {}
      ensures this.maxSensors == maxSensors && this.infer == infer
    {
      this.maxSensors := maxSensors;
      this.infer := infer;
      runtimes := map[];
      Repr := {};
    }

    method Put(id: string, runtime: RemoteSensorRuntime)
      requires Valid() && id !in runtimes && runtime.Valid()
      requires runtime.sensorId == id == runtime.buffer.owner && runtime.infer == infer
      modifies this
      ensures Valid() && Repr == old(Repr) + {runtime, runtime.buffer}
      ensures id in runtimes && Model() == old(Model())[id := runtime.Model()]
    {
      ghost var before := Model();
      runtimes := runtimes[id := runtime];
      Repr := Repr + {runtime, runtime.buffer};
      assert Owned();
      assert Model() == before[id := runtime.Model()];
    }

    method AddRuntime(id: string)
      requires Valid() && id !in runtimes
      modifies this
      ensures Valid() && fresh(Repr - old(Repr))
      ensures id in runtimes && Model() == old(Model())[id := NewRuntime(id)]
    {
      ghost var before := Model();
      var runtime := new RemoteSensorRuntime(id, infer);
      assert Model() == before;
      Put(id, runtime);
    }

    method RuntimeFor(id: string) returns (found: bool)
      requires Valid()
      modifies this
      ensures Valid() && fresh(Repr - old(Repr))
      ensures match WithRuntime(old(Model()), id, maxSensors)
              case None => !found && Model() == old(Model())
              case Some(ready) => found && Model() == ready && id in runtimes
    {
      found := true;
      if id !in runtimes {
        SameSize(Model(), runtimes);
        if |runtimes| >= maxSensors {
          return false;
        }
        AddRuntime(id);
      }
    }

    method IngestInto(id: string, states: seq<StatePoint>) returns (error: Option<IngestError>)
      requires Valid() && id in runtimes
      modifies Repr
      ensures Valid() && Repr == old(Repr)
      ensures var (after, problem) := Ingest(old(Model())[id], states, infer);
              error == problem && Model() == old(Model())[id := after]
    {
      ghost var before := Model();
      var runtime := runtimes[id];
      error := runtime.IngestStates(states);
      assert Model() == before[id := runtime.Model()];
    }

    method IngestFor(id: string, states: seq<StatePoint>) returns (error: Option<IngestError>)
      requires Valid()
      modifies this, Repr
      ensures Valid() && fresh(Repr - old(Repr))
      ensures (Model(), error) == StoreIngest(old(Model()), id, states, maxSensors, infer)
    {
      var found := RuntimeFor(id);
      if !found {
        return Some(TooManySensors);
      }
      error := IngestInto(id, states);
    }
  }

  lemma {:induction false} SameSize<A, B>(m: map<string, A>, n: map<string, B>)
    requires m.Keys == n.Keys
    ensures |m| == |n|
  {
    assert |m| == |m.Keys| && |n| == |n.Keys|;
  }
}
