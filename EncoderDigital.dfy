/** The two-state digital wheel encoder of balance_bot/encoder_sensor_digital.py.
    Every edge of the slotted disc, rising or falling, moves the recorded
    position by half a slot in the direction the motor is driven and appends
    it to the kinematic history. The sensor's callbacks are the two `Handler`
    fields; the wall clock and the motor's value are passed in. */
module EncoderDigital {
  import opened Wrappers
  import opened EncoderGeneral

  /** What a sensor edge runs. */
  datatype Handler = NoHandler | HalfSlot

  /** `_dist_per_half_slot`: half a slot's share of a revolution, signed by
      the motor's direction. */
  function DistPerHalfSlot(slotsPerRev: nat, motorValue: real): (d: real)
    requires slotsPerRev >= 1
    ensures d > 0.0 <==> MovingForward(motorValue)
    ensures d * 2.0 * (slotsPerRev as real) == if MovingForward(motorValue) then 1.0 else -1.0
  {
    if MovingForward(motorValue) then 1.0 / (slotsPerRev as real) / 2.0
    else -1.0 / (slotsPerRev as real) / 2.0
  }

  class EncoderDigital {
    const slotsPerRev: nat
    /** The inherited kinematic history (the Python class extends it). */
    const history: EncoderGeneral
    var running: bool
    var whenLine: Handler
    var whenNoLine: Handler
    /** Declared by the constructor but first assigned by a move. */
    var position: Option<real>

    ghost predicate Valid()
      reads this, history, history.positionHistory
    {
      slotsPerRev >= 1 && history.Valid()
    }

    /** Builds the history and starts the encoder. */
    constructor (slotsPerRev: nat := 20, maxNoPositionPoints: nat := 10_000, averageDuration: real := 1.0)
      requires slotsPerRev >= 1 && maxNoPositionPoints >= 1
      ensures Valid() && fresh(history) && fresh(history.positionHistory)
      ensures this.slotsPerRev == slotsPerRev
      ensures history.maxNoPositionPoints == maxNoPositionPoints && history.averageDuration == averageDuration
      ensures running && whenLine == HalfSlot && whenNoLine == HalfSlot
      ensures history.samples == [Sample(0.0, 0.0)] && history.currentHistoryLen == 1
      ensures position == None
    {
      this.slotsPerRev := slotsPerRev;
      history := new EncoderGeneral(maxNoPositionPoints, averageDuration);
      whenLine, whenNoLine := NoHandler, NoHandler;
      position := None;
      new;
      Start();
    }

    /** `_move_a_half_slot` at wall-clock time `now` while the motor is
        driven at `motorValue`. */
    method MoveAHalfSlot(now: real, motorValue: real)
      requires Valid()
      modifies this`position, history`currentHistoryLen, history`samples, history.positionHistory
      ensures Valid()
      ensures !running ==>
                && position == old(position) && history.samples == old(history.samples)
                && history.currentHistoryLen == old(history.currentHistoryLen)
                && unchanged(history.positionHistory)
      ensures running ==>
                && position == Some(old(history.LastPosition()) + DistPerHalfSlot(slotsPerRev, motorValue))
                && history.samples == old(history.samples) + [Sample(now, position.value)]
                && history.LastPosition() == position.value && history.LastTime() == now
    {
      if !running {
        return;
      }
      var moved := history.positionHistory[history.currentHistoryLen - 1, PosCol] + DistPerHalfSlot(slotsPerRev, motorValue);
      position := Some(moved);
      history.AddPosition(now, moved);
    }

    /** The sensor reports an edge: it runs the handler bound to it. */
    method OnEdge(line: bool, now: real, motorValue: real)
      requires Valid()
      modifies this`position, history`currentHistoryLen, history`samples, history.positionHistory
      ensures Valid()
      ensures (if line then whenLine else whenNoLine) == NoHandler || !running ==>
                && position == old(position) && history.samples == old(history.samples)
                && unchanged(history.positionHistory)
      ensures (if line then whenLine else whenNoLine) == HalfSlot && running ==>
                && position == Some(old(history.LastPosition()) + DistPerHalfSlot(slotsPerRev, motorValue))
                && history.samples == old(history.samples) + [Sample(now, position.value)]
    {
      var handler := if line then whenLine else whenNoLine;
      if handler == HalfSlot {
        MoveAHalfSlot(now, motorValue);
      }
    }

    /** `start`: both edges run the half-slot move, the encoder runs, and
        the history restarts from the zero origin. */
    method Start()
      requires slotsPerRev >= 1 && history.maxNoPositionPoints >= 1
      modifies this`whenLine, this`whenNoLine, this`running,
               history`positionHistory, history`currentHistoryLen, history`samples
      ensures Valid() && fresh(history.positionHistory)
      ensures running && whenLine == HalfSlot && whenNoLine == HalfSlot
      ensures history.samples == [Sample(0.0, 0.0)] && history.currentHistoryLen == 1
    {
      whenLine := HalfSlot;
      whenNoLine := HalfSlot;
      running := true;
      history.ResetHistory();
    }

    /** `stop`: no edge runs anything and the encoder stops; the history is
        kept. */
    method Stop()
      modifies this`whenLine, this`whenNoLine, this`running
      ensures !running && whenLine == NoHandler && whenNoLine == NoHandler
    {
      whenLine := NoHandler;
      whenNoLine := NoHandler;
      running := false;
    }
  }

  /** After `stop`, an edge of either kind changes neither the position nor
      the history. */
  method StoppedEncoderIgnoresEdges(e: EncoderDigital, line: bool, now: real, motorValue: real)
    requires e.Valid()
    modifies e, e.history, e.history.positionHistory
    ensures e.Valid() && !e.running
    ensures e.position == old(e.position) && e.history.samples == old(e.history.samples)
  {
    e.Stop();
    e.OnEdge(line, now, motorValue);
  }
}
