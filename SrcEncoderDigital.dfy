/** The later digital wheel encoder of src/encoder/encoder_sensor_digital.py.
    Besides the half-slot move it has a full-slot move, which `start` never
    binds to an edge, and `close` saves the history without its empty rows.
    Its parent, src/encoder/encoder_sensor_general.py, is not part of this
    model; the history of balance_bot/encoder_sensor_general.py stands in for
    it. */
module SrcEncoderDigital {
  import opened Wrappers
  import opened EncoderGeneral
  import Digital = EncoderDigital

  /** What a sensor edge runs. */
  datatype Handler = NoHandler | HalfSlot | FullSlot

  /** `_revs_per_slot`: a slot's share of a revolution, signed by the
      motor's direction. */
  function RevsPerSlot(slotsPerRev: nat, motorValue: real): (d: real)
    requires slotsPerRev >= 1
    ensures d > 0.0 <==> MovingForward(motorValue)
    ensures d * (slotsPerRev as real) == if MovingForward(motorValue) then 1.0 else -1.0
  {
    if MovingForward(motorValue) then 1.0 / (slotsPerRev as real) else -1.0 / (slotsPerRev as real)
  }

  /** Two half-slot moves cover exactly one full-slot move. The half-slot
      step, `_revs_per_half_slot`, is the same signed 1/(2 * slots) step as
      the balance_bot encoder's `_dist_per_half_slot`. */
  lemma TwoHalvesMakeASlot(slotsPerRev: nat, motorValue: real)
    requires slotsPerRev >= 1
    ensures 2.0 * Digital.DistPerHalfSlot(slotsPerRev, motorValue) == RevsPerSlot(slotsPerRev, motorValue)
  {
    var s := slotsPerRev as real;
    assert Digital.DistPerHalfSlot(slotsPerRev, motorValue) * 2.0 * s == RevsPerSlot(slotsPerRev, motorValue) * s;
  }

  /** A history row is empty when every cell of it is zero. */
  predicate AllZero(row: seq<real>)
  {
    forall j :: 0 <= j < |row| ==> row[j] == 0.0
  }

  /** The mask `~np.all(h == 0, axis=1)` applied to the rows of `h`: the
      rows that are not empty, in their order. */
  function KeepNonZeroRows(rows: seq<seq<real>>): (kept: seq<seq<real>>)
    ensures |kept| <= |rows|
    ensures forall r :: r in kept ==> r in rows && !AllZero(r)
    ensures forall r :: r in rows && !AllZero(r) ==> r in kept
  {
    if rows == [] then []
    else if AllZero(rows[0]) then KeepNonZeroRows(rows[1..])
    else [rows[0]] + KeepNonZeroRows(rows[1..])
  }

  /** The filter works row by row: filtering a concatenation concatenates
      the filtered parts, so kept rows stay in their order. */
  lemma {:induction false} KeepDistributes(a: seq<seq<real>>, b: seq<seq<real>>)
    ensures KeepNonZeroRows(a + b) == KeepNonZeroRows(a) + KeepNonZeroRows(b)
  {
    if a == [] {
      assert a + b == b;
    } else {
      assert (a + b)[0] == a[0];
      assert (a + b)[1..] == a[1..] + b;
      KeepDistributes(a[1..], b);
    }
  }

  /** Filtering twice keeps what filtering once kept. */
  lemma {:induction false} KeepIdempotent(rows: seq<seq<real>>)
    ensures KeepNonZeroRows(KeepNonZeroRows(rows)) == KeepNonZeroRows(rows)
  {
    if rows != [] {
      KeepIdempotent(rows[1..]);
    }
  }

  /** The rows of `h`, top to bottom. */
  function GridRows(h: array2<real>): (rows: seq<seq<real>>)
    reads h
    ensures |rows| == h.Length0
    ensures forall i :: 0 <= i < h.Length0 ==> |rows[i]| == h.Length1
  {
    seq(h.Length0, i requires 0 <= i < h.Length0 reads h =>
      seq(h.Length1, j requires 0 <= j < h.Length1 reads h => h[i, j]))
  }

  class EncoderDigital {
    const slotsPerRev: nat
    /** The inherited kinematic history (the Python class extends it). */
    const history: EncoderGeneral
    var running: bool
    var whenLine: Handler
    var whenNoLine: Handler
    /** Declared by the constructor but first assigned by a move. */
    var position: Option<real>

    ghost predicate Valid()
      reads this, history, history.positionHistory
    {
      slotsPerRev >= 1 && history.Valid()
    }

    /** Builds the history; unlike the balance_bot encoder it does not start.
        `running` starts false here, where the source leaves it unassigned
        until `start`: a half-slot move before `start` raises AttributeError
        in the source and changes nothing in this model. */
    constructor (slotsPerRev: nat := 20, maxNoPositionPoints: nat := 10_000, averageDuration: real := 1.0)
      requires slotsPerRev >= 1 && maxNoPositionPoints >= 1
      ensures Valid() && fresh(history)
      ensures this.slotsPerRev == slotsPerRev
      ensures history.maxNoPositionPoints == maxNoPositionPoints && history.averageDuration == averageDuration
      ensures !running && whenLine == NoHandler && whenNoLine == NoHandler
      ensures history.samples == [Sample(0.0, 0.0)] && position == None
    {
      this.slotsPerRev := slotsPerRev;
      history := new EncoderGeneral(maxNoPositionPoints, averageDuration);
      running := false;
      whenLine, whenNoLine := NoHandler, NoHandler;
      position := None;
    }

    /** Records the last live position plus `step` at time `now`, when
        running. */
    method Advance(now: real, step: real)
      requires Valid()
      modifies this`position, history`currentHistoryLen, history`samples, history.positionHistory
      ensures Valid()
      ensures !running ==>
                && position == old(position) && history.samples == old(history.samples)
                && history.currentHistoryLen == old(history.currentHistoryLen)
                && unchanged(history.positionHistory)
      ensures running ==>
                && position == Some(old(history.LastPosition()) + step)
                && history.samples == old(history.samples) + [Sample(now, position.value)]
                && history.LastPosition() == position.value && history.LastTime() == now
    {
      if !running {
        return;
      }
      var moved := history.positionHistory[history.currentHistoryLen - 1, PosCol] + step;
      position := Some(moved);
      history.AddPosition(now, moved);
    }

    /** `_move_a_half_slot`. */
    method MoveAHalfSlot(now: real, motorValue: real)
      requires Valid()
      modifies this`position, history`currentHistoryLen, history`samples, history.positionHistory
      ensures Valid()
      ensures !running ==>
                position == old(position) && history.samples == old(history.samples) && unchanged(history.positionHistory)
      ensures running ==>
                && position == Some(old(history.LastPosition()) + Digital.DistPerHalfSlot(slotsPerRev, motorValue))
                && history.samples == old(history.samples) + [Sample(now, position.value)]
    {
      Advance(now, Digital.DistPerHalfSlot(slotsPerRev, motorValue));
    }

    /** `_move_a_full_slot`. */
    method MoveAFullSlot(now: real, motorValue: real)
      requires Valid()
      modifies this`position, history`currentHistoryLen, history`samples, history.positionHistory
      ensures Valid()
      ensures !running ==>
                position == old(position) && history.samples == old(history.samples) && unchanged(history.positionHistory)
      ensures running ==>
                && position == Some(old(history.LastPosition()) + RevsPerSlot(slotsPerRev, motorValue))
                && history.samples == old(history.samples) + [Sample(now, position.value)]
    {
      Advance(now, RevsPerSlot(slotsPerRev, motorValue));
    }

    /** The sensor reports an edge: it runs the handler bound to it. */
    method OnEdge(line: bool, now: real, motorValue: real)
      requires Valid()
      modifies this`position, history`currentHistoryLen, history`samples, history.positionHistory
      ensures Valid()
      ensures (if line then whenLine else whenNoLine) == NoHandler || !running ==>
                position == old(position) && history.samples == old(history.samples) && unchanged(history.positionHistory)
      ensures (if line then whenLine else whenNoLine) == HalfSlot && running ==>
                && position == Some(old(history.LastPosition()) + Digital.DistPerHalfSlot(slotsPerRev, motorValue))
                && history.samples == old(history.samples) + [Sample(now, position.value)]
      ensures (if line then whenLine else whenNoLine) == FullSlot && running ==>
                && position == Some(old(history.LastPosition()) + RevsPerSlot(slotsPerRev, motorValue))
                && history.samples == old(history.samples) + [Sample(now, position.value)]
    {
      var handler := if line then whenLine else whenNoLine;
      if handler == HalfSlot {
        MoveAHalfSlot(now, motorValue);
      } else if handler == FullSlot {
        MoveAFullSlot(now, motorValue);
      }
    }

    /** `start`: both edges run the HALF-slot move, the encoder runs, and the
        history restarts from the zero origin. */
    method Start()
      requires slotsPerRev >= 1 && history.maxNoPositionPoints >= 1
      modifies this`whenLine, this`whenNoLine, this`running,
               history`positionHistory, history`currentHistoryLen, history`samples
      ensures Valid() && fresh(history.positionHistory)
      ensures running && whenLine == HalfSlot && whenNoLine == HalfSlot
      ensures history.samples == [Sample(0.0, 0.0)] && history.currentHistoryLen == 1
    {
      whenLine := HalfSlot;
      whenNoLine := HalfSlot;
      running := true;
      history.ResetHistory();
    }

    /** `stop`: no edge runs anything and the encoder stops. */
    method Stop()
      modifies this`whenLine, this`whenNoLine, this`running
      ensures !running && whenLine == NoHandler && whenNoLine == NoHandler
    {
      whenLine := NoHandler;
      whenNoLine := NoHandler;
      running := false;
    }

    /** `close`: the history rows handed to the saver, empty rows dropped. */
    method Close() returns (saved: seq<seq<real>>)
      requires Valid()
      ensures saved == KeepNonZeroRows(GridRows(history.positionHistory))
      ensures forall r :: r in saved ==> |r| == Columns && !AllZero(r)
    {
      saved := KeepNonZeroRows(GridRows(history.positionHistory));
    }
  }
}
