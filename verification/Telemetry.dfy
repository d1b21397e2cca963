/** State points, telemetry envelopes and the batcher that numbers them (src/agent/telemetry.py). */
module Telemetry {
  import opened Prelude

  const MAX_BATCH_STATES: nat := 60
  const MAX_SOURCE_ROWS: nat := 120

  /** One completed 10-second state. `captureDay` is the day the sender claims for it. */
  datatype StatePoint = StatePoint(timestamp: int, captureDay: int, features: seq<real>)

  /** A telemetry envelope. `sourceIntervals` holds the interval start of each source-activity
      row that rides along, `encodedBytes` is the length of the envelope's JSON form. */
  datatype Batch = Batch(sensorId: string, sequence: nat, sentAt: int, states: seq<StatePoint>,
                         sourceIntervals: seq<int>, encodedBytes: nat)

  /** The parts of an envelope that come from outside the batcher. */
  datatype Stamp = Stamp(sentAt: int, sourceIntervals: seq<int>, encodedBytes: nat)

  function Envelope(sensorId: string, sequence: nat, states: seq<StatePoint>, stamp: Stamp): Batch {
    Batch(sensorId, sequence, stamp.sentAt, states, stamp.sourceIntervals, stamp.encodedBytes)
  }

  /** At most 120 of the waiting source-activity rows ride along. */
  function Riding(waiting: Stamp): Stamp {
    waiting.(sourceIntervals := waiting.sourceIntervals[..Min(MAX_SOURCE_ROWS, |waiting.sourceIntervals|)])
  }

  class TelemetryBatcher {
    const sensorId: string
    const batchSize: nat
    var nextSequence: nat
    // What the persistence callback has been told last, and survives a restart.
    var persistedSequence: nat

    constructor (sensorId: string, sequenceStart: nat, batchSize: nat)
      requires sequenceStart >= 1 && 1 <= batchSize <= MAX_BATCH_STATES
      ensures this.sensorId == sensorId && this.batchSize == batchSize
      ensures nextSequence == persistedSequence == sequenceStart
    {
      this.sensorId := sensorId;
      this.batchSize := batchSize;
      nextSequence := sequenceStart;
      persistedSequence := sequenceStart;
    }

    /** Numbers one envelope. A refused batch takes no number. */
    method Build(states: seq<StatePoint>, stamp: Stamp) returns (built: Option<Batch>)
      modifies this
      ensures built.None? <==>
                || states == [] || |states| > batchSize || |states| > MAX_BATCH_STATES
                || |stamp.sourceIntervals| > MAX_SOURCE_ROWS
      ensures built.None? ==> nextSequence == old(nextSequence) && persistedSequence == old(persistedSequence)
      ensures built.Some? ==> built.value == Envelope(sensorId, old(nextSequence), states, stamp)
      ensures built.Some? ==> nextSequence == persistedSequence == old(nextSequence) + 1
    {
      if states == [] || |states| > batchSize || |states| > MAX_BATCH_STATES {
        return None;
      }
      if |stamp.sourceIntervals| > MAX_SOURCE_ROWS {
        return None;
      }
      var sequence := nextSequence;
      built := Some(Envelope(sensorId, sequence, states, stamp));
      nextSequence := nextSequence + 1;
      persistedSequence := nextSequence;
    }
  }
}
