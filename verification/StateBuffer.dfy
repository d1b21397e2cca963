/** The rolling buffer of the last ten states (src/streaming/state_buffer.py). */
module StateBuffers {
  import opened Prelude
  import opened Telemetry

  const SEQUENCE_LENGTH: nat := 10
  const FEATURE_COUNT: nat := 17

  datatype Refusal = DayNotAdvancing | DuplicateTimestamp | OutOfOrderTimestamp

  datatype Update =
    | Buffering
    | Ready(sequence: seq<StatePoint>)
    | DayBoundaryReset
    | WaitingForNextValidState
    | Refused(reason: Refusal)

  /** `day` is the capture day of the buffered states, if there are any. */
  datatype History = History(states: seq<StatePoint>, acceptedCount: nat, day: Option<int>)

  const EMPTY_HISTORY: History := History([], 0, None)

  /** Whether a state row passes schema validation. */
  predicate WellFormed(s: StatePoint) {
    s.timestamp / DAY == s.captureDay && |s.features| == FEATURE_COUNT
  }

  /** `b` is the state that follows `a` without a gap on the same capture day. */
  predicate Linked(a: StatePoint, b: StatePoint) {
    a.captureDay == b.captureDay && b.timestamp - a.timestamp == STATE_INTERVAL
  }

  function Reset(h: History): History {
    h.(states := [], day := None)
  }

  function Append(h: History, s: StatePoint): (History, Update) {
    var grown := h.states + [s];
    var states := if |grown| > SEQUENCE_LENGTH then grown[1..] else grown;
    (History(states, h.acceptedCount + 1, Some(s.captureDay)),
     if |states| == SEQUENCE_LENGTH then Ready(states) else Buffering)
  }

  function Push(h: History, s: StatePoint): (History, Update) {
    if h.states == [] then Append(h, s)
    else
      var previous := Last(h.states).timestamp;
      if h.day != Some(s.captureDay) then
        if s.timestamp <= previous then (h, Refused(DayNotAdvancing))
        else (History([s], h.acceptedCount + 1, Some(s.captureDay)), DayBoundaryReset)
      else if s.timestamp == previous then (h, Refused(DuplicateTimestamp))
      else if s.timestamp < previous then (h, Refused(OutOfOrderTimestamp))
      else if s.timestamp - previous != STATE_INTERVAL then (h, WaitingForNextValidState)
      else Append(h, s)
  }

  class StateBuffer {
    ghost const owner: string
    var states: seq<StatePoint>
    var acceptedCount: nat
    var captureDay: Option<int>

    ghost function Model(): History
      reads this
    {
      History(states, acceptedCount, captureDay)
    }

    constructor (ghost owner: string)
      ensures Model() == EMPTY_HISTORY && this.owner == owner
    {
      this.owner := owner;
      states, acceptedCount, captureDay := [], 0, None;
    }

    method ResetBuffer()
      modifies this
      ensures Model() == Reset(old(Model()))
    {
      states := [];
      captureDay := None;
    }

    method PushState(s: StatePoint) returns (update: Update)
      modifies this
      ensures (Model(), update) == Push(old(Model()), s)
    {
      if states != [] && captureDay != Some(s.captureDay) {
        if s.timestamp <= Last(states).timestamp {
          return Refused(DayNotAdvancing);
        }
        ResetBuffer();
        captureDay := Some(s.captureDay);
        states := [s];
        acceptedCount := acceptedCount + 1;
        return DayBoundaryReset;
      }
      if states != [] {
        var delta := s.timestamp - Last(states).timestamp;
        if delta == 0 {
          return Refused(DuplicateTimestamp);
        }
        if delta < 0 {
          return Refused(OutOfOrderTimestamp);
        }
        if delta != STATE_INTERVAL {
          return WaitingForNextValidState;
        }
      } else {
        captureDay := Some(s.captureDay);
      }
      states := states + [s];
      acceptedCount := acceptedCount + 1;
      if |states| > SEQUENCE_LENGTH {
        states := states[1..];
      }
      update := if |states| == SEQUENCE_LENGTH then Ready(states) else Buffering;
    }
  }
}
