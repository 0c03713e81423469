/** The older list-based encoder of balance_bot/encoder_sensor.py. It keeps a
    list of (time, position) records and measures speed, acceleration and
    jerk between the newest record and one about `averageDuration` seconds
    older. The wall clock is passed in as `now`. */
module RotationEncoder {
  import opened Wrappers

  datatype Record = Record(time: real, position: real)

  /** What a getter hands back: a value, or the error Python raises. With
      fewer than three records the scan loop never binds its variable
      (UnboundLocalError); a zero duration divides by zero. */
  datatype Outcome = Ok(value: real) | UnboundLocal | ZeroDivision

  /** `_rev_per_half_slot`: half a slot's share of a revolution, signed by
      `direction` (FORWARD is true). */
  function RevPerHalfSlot(slotsPerRev: nat, direction: bool): (d: real)
    requires slotsPerRev >= 1
    ensures d > 0.0 <==> direction
    ensures d * 2.0 * (slotsPerRev as real) == if direction then 1.0 else -1.0
  {
    if direction then 1.0 / (slotsPerRev as real) / 2.0 else -1.0 / (slotsPerRev as real) / 2.0
  }

  /** The truncation as written, `history[-k]`: an index, not a slice. It
      raises IndexError (None) unless there are at least k records, and
      otherwise yields ONE record where a list of records is expected. */
  function TruncateAsWritten(history: seq<Record>, k: nat): (r: Option<Record>)
    requires history != []
    ensures r == None <==> k > |history|
    ensures r.Some? ==> r.value in history
  {
    if k > |history| then None
    else if k == 0 then Some(history[0])
    else Some(history[|history| - k])
  }

  /** With the default 200 samples per second over 60 seconds, every move
      before the 12000th record raises. */
  lemma DefaultTruncationRaises(history: seq<Record>)
    requires 1 <= |history| < 200 * 60
    ensures TruncateAsWritten(history, 200 * 60) == None
  {
  }

  /** The evidently intended truncation, the slice `history[-k:]`: the
      newest k records (all of them when k is 0). */
  function KeepNewest(history: seq<Record>, k: nat): (r: seq<Record>)
    ensures |r| == if k == 0 || |history| <= k then |history| else k
    ensures r == history[|history| - |r|..]
    ensures history != [] ==> r != [] && r[|r| - 1] == history[|history| - 1]
  {
    if k == 0 || k >= |history| then history else history[|history| - k..]
  }

  /** Appending one record to a history no longer than k and truncating
      keeps it no longer than k, and keeps every earlier newest record. */
  lemma KeepNewestBounded(history: seq<Record>, x: Record, k: nat)
    requires 1 <= k && |history| <= k
    ensures |KeepNewest(history + [x], k)| <= k
    ensures KeepNewest(history + [x], k) == (if |history| < k then history else history[1..]) + [x]
  {
    if |history| == k {
      assert (history + [x])[|history| + 1 - k..] == history[1..] + [x];
    }
  }

  /** How long before the newest record record `j` was taken. */
  function Age(history: seq<Record>, j: nat): real
    requires j < |history|
  {
    history[|history| - 1].time - history[j].time
  }

  /** Scanning indices k, k-1, .. 1: the first that is older than
      `averageDuration`, or 1. */
  function ScanDown(history: seq<Record>, averageDuration: real, k: nat): (i: nat)
    requires 1 <= k < |history|
    ensures 1 <= i <= k
    ensures i == 1 || Age(history, i) > averageDuration
    ensures forall j :: i < j <= k ==> Age(history, j) <= averageDuration
  {
    if k == 1 || Age(history, k) > averageDuration then k else ScanDown(history, averageDuration, k - 1)
  }

  /** The record the getters measure from: the newest one among indices
      1 .. len-2 that is more than `averageDuration` older than the newest
      record, else index 1. Index 0 is never used. */
  function MeasureIndex(history: seq<Record>, averageDuration: real): (i: nat)
    requires |history| >= 3
    ensures 1 <= i <= |history| - 2
    ensures i == 1 || Age(history, i) > averageDuration
    ensures forall j :: i < j <= |history| - 2 ==> Age(history, j) <= averageDuration
  {
    ScanDown(history, averageDuration, |history| - 2)
  }

  /** Only one index satisfies the scan's exit condition. */
  lemma MeasureIndexUnique(history: seq<Record>, averageDuration: real, i: nat)
    requires 1 <= i <= |history| - 2
    requires i == 1 || Age(history, i) > averageDuration
    requires forall j :: i < j <= |history| - 2 ==> Age(history, j) <= averageDuration
    ensures i == MeasureIndex(history, averageDuration)
  {
  }

  /** `speed`: distance over duration between the measured record and the
      newest. */
  function SpeedOf(history: seq<Record>, averageDuration: real): (r: Outcome)
    requires history != []
    ensures r == UnboundLocal <==> |history| < 3
    ensures r.Ok? ==> var i := MeasureIndex(history, averageDuration);
                      r.value * Age(history, i) == history[|history| - 1].position - history[i].position
  {
    if |history| < 3 then UnboundLocal
    else
      var i := MeasureIndex(history, averageDuration);
      var d := Age(history, i);
      if d == 0.0 then ZeroDivision
      else Ok((history[|history| - 1].position - history[i].position) / d)
  }

  /** `accel`: twice the distance over the squared duration. Over the reals
      the square is zero exactly when the duration is, and dividing by it is
      dividing by the duration twice. */
  function AccelOf(history: seq<Record>, averageDuration: real): (r: Outcome)
    requires history != []
    ensures r == UnboundLocal <==> |history| < 3
  {
    if |history| < 3 then UnboundLocal
    else
      var i := MeasureIndex(history, averageDuration);
      var d := Age(history, i);
      if d == 0.0 then ZeroDivision
      else Ok(2.0 * (history[|history| - 1].position - history[i].position) / d / d)
  }

  /** `jerk`: six times the distance over the cubed duration. */
  function JerkOf(history: seq<Record>, averageDuration: real): (r: Outcome)
    requires history != []
    ensures r == UnboundLocal <==> |history| < 3
  {
    if |history| < 3 then UnboundLocal
    else
      var i := MeasureIndex(history, averageDuration);
      var d := Age(history, i);
      if d == 0.0 then ZeroDivision
      else Ok(6.0 * (history[|history| - 1].position - history[i].position) / d / d / d)
  }

  /** The three getters fail together and, over the same records, are tied
      by `accel * d == 2 * speed` and `jerk * d == 3 * accel`. */
  lemma GettersAgree(history: seq<Record>, averageDuration: real)
    requires history != []
    ensures SpeedOf(history, averageDuration).Ok? <==> AccelOf(history, averageDuration).Ok?
    ensures SpeedOf(history, averageDuration).Ok? <==> JerkOf(history, averageDuration).Ok?
    ensures SpeedOf(history, averageDuration).Ok? ==>
              var d := Age(history, MeasureIndex(history, averageDuration));
              && AccelOf(history, averageDuration).value * d == 2.0 * SpeedOf(history, averageDuration).value
              && JerkOf(history, averageDuration).value * d == 3.0 * AccelOf(history, averageDuration).value
  {
    if |history| >= 3 {
      var i := MeasureIndex(history, averageDuration);
      var d := Age(history, i);
      var p := history[|history| - 1].position - history[i].position;
      if d != 0.0 {
        PowerRatios(p, d);
        assert SpeedOf(history, averageDuration) == Ok(p / d);
        assert AccelOf(history, averageDuration) == Ok(2.0 * p / d / d);
        assert JerkOf(history, averageDuration) == Ok(6.0 * p / d / d / d);
      }
    }
  }

  /** The three getters' formulas over one distance `p` and duration `d`. */
  lemma PowerRatios(p: real, d: real)
    requires d != 0.0
    ensures (2.0 * p / d / d) * d == 2.0 * (p / d)
    ensures (6.0 * p / d / d / d) * d == 3.0 * (2.0 * p / d / d)
  {
    ScaleDiv(2.0, p, d);
    var a1 := 2.0 * p / d;
    ScaleDiv(1.0, a1, d);
    var x := 2.0 * p;
    ScaleDiv(3.0, x, d);
    assert 6.0 * p == 3.0 * x;
    assert 6.0 * p / d == 3.0 * a1;
    ScaleDiv(3.0, a1, d);
    var j2 := 6.0 * p / d / d;
    assert j2 == 3.0 * (a1 / d);
    ScaleDiv(1.0, j2, d);
  }

  /** A constant factor passes through a division, and multiplying back by
      the divisor cancels it. */
  lemma ScaleDiv(c: real, x: real, d: real)
    requires d != 0.0
    ensures (c * x) / d == c * (x / d)
    ensures (x / d) * d == x
  {
    var q := x / d;
    assert q * d == x;
    assert (c * q) * d == c * x;
  }

  /** Records at strictly increasing times on the line `p0 + v * t`: `speed`
      reports `v`. */
  lemma UniformMotionSpeed(history: seq<Record>, averageDuration: real, p0: real, v: real)
    requires |history| >= 3
    requires forall j :: 0 < j < |history| ==> history[j - 1].time < history[j].time
    requires forall j :: 0 <= j < |history| ==> history[j].position == p0 + v * history[j].time
    ensures SpeedOf(history, averageDuration) == Ok(v)
  {
    var i := MeasureIndex(history, averageDuration);
    var n := |history| - 1;
    assert history[i].time < history[n].time by {
      StrictlyIncreasing(history, i, n);
    }
    assert history[n].position - history[i].position == v * (history[n].time - history[i].time);
  }

  lemma {:induction false} StrictlyIncreasing(history: seq<Record>, i: nat, j: nat)
    requires i < j < |history|
    requires forall k :: 0 < k < |history| ==> history[k - 1].time < history[k].time
    ensures history[i].time < history[j].time
    decreases j - i
  {
    if i + 1 < j {
      StrictlyIncreasing(history, i, j - 1);
    }
  }

  class RotationEncoder {
    const sampleFreq: nat
    const historyLen: nat
    const averageDuration: real
    const slotsPerRev: nat
    var position: real
    var history: seq<Record>
    /** FORWARD is true, REARWARD false. */
    var direction: bool

    ghost predicate Valid()
      reads this
    {
      history != []
    }

    /** A new encoder at position 0 with one record taken at `now`, moving
        FORWARD. */
    constructor (now: real, slotsPerRev: nat := 20, sampleFreq: nat := 200, historyLen: nat := 60,
                 averageDuration: real := 1.0)
      ensures Valid()
      ensures position == 0.0 && history == [Record(now, 0.0)] && direction
      ensures this.slotsPerRev == slotsPerRev && this.sampleFreq == sampleFreq
      ensures this.historyLen == historyLen && this.averageDuration == averageDuration
    {
      this.sampleFreq := sampleFreq;
      this.historyLen := historyLen;
      this.averageDuration := averageDuration;
      this.slotsPerRev := slotsPerRev;
      position := 0.0;
      history := [Record(now, 0.0)];
      direction := true;
    }

    /** An edge of the sensor. The registered lambdas return the bound move
        without calling it, so nothing changes. */
    method OnEdge()
      ensures position == old(position) && history == old(history)
    {
    }

    /** `_move_a_half_slot` at time `now`, with the intended truncation to
        the newest `sampleFreq * historyLen` records. */
    method MoveAHalfSlot(now: real)
      requires Valid() && slotsPerRev >= 1
      modifies this`position, this`history
      ensures Valid()
      ensures position == old(position) + RevPerHalfSlot(slotsPerRev, direction)
      ensures history == KeepNewest(old(history) + [Record(now, position)], sampleFreq * historyLen)
      ensures history[|history| - 1] == Record(now, position)
    {
      position := position + RevPerHalfSlot(slotsPerRev, direction);
      history := history + [Record(now, position)];
      history := KeepNewest(history, sampleFreq * historyLen);
    }

    /** The backward scan shared by the three getters: None when the loop
        body never runs. */
    method MeasurePoint() returns (measured: Option<nat>)
      requires Valid()
      ensures measured == if |history| < 3 then None else Some(MeasureIndex(history, averageDuration))
    {
      var endTime := history[|history| - 1].time;
      measured := None;
      var k: int := |history| - 2;
      while k > 0
        invariant -1 <= k <= |history| - 2
        invariant measured == None <==> k == |history| - 2
        invariant measured != None ==> measured.value == k + 1 && 1 <= k + 1 <= |history| - 2
        invariant measured != None ==> Age(history, k + 1) <= averageDuration
        invariant forall j :: k < j <= |history| - 2 ==> Age(history, j) <= averageDuration
      {
        measured := Some(k);
        if endTime - history[k].time > averageDuration {
          break;
        }
        k := k - 1;
      }
      if measured != None {
        MeasureIndexUnique(history, averageDuration, measured.value);
      }
    }

    /** `speed`. */
    method Speed() returns (r: Outcome)
      requires Valid()
      ensures r == SpeedOf(history, averageDuration)
    {
      var measured := MeasurePoint();
      if measured == None {
        return UnboundLocal;
      }
      var i := measured.value;
      var actualDuration := history[|history| - 1].time - history[i].time;
      var distTraveled := history[|history| - 1].position - history[i].position;
      if actualDuration == 0.0 {
        return ZeroDivision;
      }
      r := Ok(distTraveled / actualDuration);
    }

    /** `accel`. */
    method Accel() returns (r: Outcome)
      requires Valid()
      ensures r == AccelOf(history, averageDuration)
    {
      var measured := MeasurePoint();
      if measured == None {
        return UnboundLocal;
      }
      var i := measured.value;
      var actualDuration := history[|history| - 1].time - history[i].time;
      var distTraveled := history[|history| - 1].position - history[i].position;
      if actualDuration == 0.0 {
        return ZeroDivision;
      }
      r := Ok(2.0 * distTraveled / actualDuration / actualDuration);
    }

    /** `jerk`. */
    method Jerk() returns (r: Outcome)
      requires Valid()
      ensures r == JerkOf(history, averageDuration)
    {
      var measured := MeasurePoint();
      if measured == None {
        return UnboundLocal;
      }
      var i := measured.value;
      var actualDuration := history[|history| - 1].time - history[i].time;
      var distTraveled := history[|history| - 1].position - history[i].position;
      if actualDuration == 0.0 {
        return ZeroDivision;
      }
      r := Ok(6.0 * distTraveled / actualDuration / actualDuration / actualDuration);
    }

    /** `clear_history`: position 0 and a single record taken at `now`. */
    method ClearHistory(now: real)
      modifies this`position, this`history
      ensures Valid() && position == 0.0 && history == [Record(now, 0.0)]
    {
      position := 0.0;
      history := [Record(now, 0.0)];
    }
  }
}
