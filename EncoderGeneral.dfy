/** The fixed-capacity kinematic history shared by every wheel encoder
    (balance_bot/encoder_sensor_general.py).

    The history is an N x 6 array of reals whose columns are
    time, step duration, position, speed, acceleration and jerk. Rows
    0 .. len-1 are live; the rest stay zero. Once N rows are live, each new
    sample shifts the time and position columns one row toward the front and
    lands in row N-1. The getters fill the derived columns of the rows in the
    averaging window and return a column mean. */
module EncoderGeneral {
  import opened Numeric

  const TimeCol: nat := 0
  const StepCol: nat := 1
  const PosCol: nat := 2
  const SpeedCol: nat := 3
  const AccelCol: nat := 4
  const JerkCol: nat := 5
  const Columns: nat := 6

  /** One recorded (time, position) pair. */
  datatype Sample = Sample(time: real, position: real)

  /** What a getter hands back. `NaN` is numpy's mean of an empty slice;
      `ShapeMismatch` is the ValueError numpy raises when a slice assignment
      cannot broadcast. */
  datatype Reading = Value(value: real) | NaN | ShapeMismatch

  /** `moving_forward`: the motor's signed output is not negative. */
  predicate MovingForward(motorValue: real)
  {
    motorValue >= 0.0
  }

  /** Every motor value counts as moving forward or as moving rearward, and
      only a stopped motor counts both ways round: stopped is forward. */
  lemma MotorDirection(motorValue: real)
    ensures MovingForward(motorValue) || MovingForward(-motorValue)
    ensures MovingForward(motorValue) && MovingForward(-motorValue) <==> motorValue == 0.0
    ensures !MovingForward(motorValue) ==> motorValue < 0.0
  {
  }

  function MinNat(a: nat, b: nat): nat { if a <= b then a else b }

  /** Column `j` of `h`, top to bottom. */
  ghost function ColumnOf(h: array2<real>, j: nat): (c: seq<real>)
    reads h
    requires j < h.Length1
    ensures |c| == h.Length0
  {
    seq(h.Length0, i requires 0 <= i < h.Length0 reads h => h[i, j])
  }

  /** `np.argmax(times >= bound)` before numpy's all-false case: the index of
      the first entry at or above `bound`, or `|times|` when there is none. */
  function FirstAtLeast(times: seq<real>, bound: real): (k: nat)
    ensures k <= |times|
    ensures forall j :: 0 <= j < k ==> times[j] < bound
    ensures k < |times| ==> times[k] >= bound
  {
    if times == [] then 0
    else if times[0] >= bound then 0
    else 1 + FirstAtLeast(times[1..], bound)
  }

  /** Any index with only smaller entries before it and an entry at or above
      `bound` at it (or at the end) is the one `FirstAtLeast` finds. */
  lemma FirstAtLeastIsFirst(times: seq<real>, bound: real, k: nat)
    requires k <= |times|
    requires forall j :: 0 <= j < k ==> times[j] < bound
    requires k < |times| ==> times[k] >= bound
    ensures k == FirstAtLeast(times, bound)
  {
  }

  /** The number of history lines a getter uses: the first row whose time has
      reached the averaging duration; when argmax yields 0 (row 0 qualifies,
      or no row does) the whole live length. */
  function WindowEnd(times: seq<real>, averageDuration: real, len: nat): (lines: nat)
    requires len <= |times|
    ensures lines <= |times|
    ensures lines == len || (0 < lines < |times| && times[lines] >= averageDuration)
    ensures lines != len ==> forall j :: 0 <= j < lines ==> times[j] < averageDuration
    ensures (exists j :: 0 <= j < |times| && times[j] >= averageDuration) && times[0] < averageDuration
            ==> lines == FirstAtLeast(times, averageDuration)
  {
    var k := FirstAtLeast(times, averageDuration);
    if k == 0 || k == |times| then len else k
  }

  /** Speed of row i: position change over time change since row i-1. */
  function SpeedTerm(times: seq<real>, pos: seq<real>, i: nat): real
    requires 1 <= i < |times| == |pos|
  {
    Quot(pos[i] - pos[i - 1], times[i] - times[i - 1])
  }

  /** Acceleration of row i: speed change over the row's step duration. */
  function AccelTerm(times: seq<real>, pos: seq<real>, i: nat): real
    requires 2 <= i < |times| == |pos|
  {
    Quot(SpeedTerm(times, pos, i) - SpeedTerm(times, pos, i - 1), times[i] - times[i - 1])
  }

  /** Jerk of row i: acceleration change over the row's step duration. */
  function JerkTerm(times: seq<real>, pos: seq<real>, i: nat): real
    requires 3 <= i < |times| == |pos|
  {
    Quot(AccelTerm(times, pos, i) - AccelTerm(times, pos, i - 1), times[i] - times[i - 1])
  }

  /** Speeds of rows first .. lines-2 (the numpy slice `[first : lines - 1]`). */
  function SpeedWindow(times: seq<real>, pos: seq<real>, first: nat, lines: nat): (w: seq<real>)
    requires 1 <= first && lines <= |times| == |pos|
    ensures |w| == if lines - 1 <= first then 0 else lines - 1 - first
  {
    if lines - 1 <= first then []
    else seq(lines - 1 - first, k requires 0 <= k < lines - 1 - first => SpeedTerm(times, pos, first + k))
  }

  /** Accelerations of rows first .. lines-2. */
  function AccelWindow(times: seq<real>, pos: seq<real>, first: nat, lines: nat): (w: seq<real>)
    requires 2 <= first && lines <= |times| == |pos|
    ensures |w| == if lines - 1 <= first then 0 else lines - 1 - first
  {
    if lines - 1 <= first then []
    else seq(lines - 1 - first, k requires 0 <= k < lines - 1 - first => AccelTerm(times, pos, first + k))
  }

  /** Jerks of rows first .. lines-2. */
  function JerkWindow(times: seq<real>, pos: seq<real>, first: nat, lines: nat): (w: seq<real>)
    requires 3 <= first && lines <= |times| == |pos|
    ensures |w| == if lines - 1 <= first then 0 else lines - 1 - first
  {
    if lines - 1 <= first then []
    else seq(lines - 1 - first, k requires 0 <= k < lines - 1 - first => JerkTerm(times, pos, first + k))
  }

  /** What `speed` returns for time column `times`, position column `pos` and
      live length `len`. */
  function SpeedOf(times: seq<real>, pos: seq<real>, len: nat, averageDuration: real): (r: Reading)
    requires 1 <= len <= |times| == |pos|
    ensures len < 2 ==> r == Value(0.0)
  {
    if len < 2 then Value(0.0)
    else
      var lines := WindowEnd(times, averageDuration, len);
      if lines == 1 && |times| > 2 then ShapeMismatch
      else if lines <= 2 then NaN
      else Value(Mean(SpeedWindow(times, pos, 1, lines)))
  }

  /** What `accel` returns as written: the mean of the SPEED column over rows
      2 .. lines-2, although it has just filled the acceleration column. */
  function AccelOf(times: seq<real>, pos: seq<real>, len: nat, averageDuration: real): (r: Reading)
    requires 1 <= len <= |times| == |pos|
    ensures len < 3 ==> r == Value(0.0)
  {
    if len < 3 then Value(0.0)
    else
      var lines := WindowEnd(times, averageDuration, len);
      if lines == 1 then ShapeMismatch
      else if lines <= 3 then NaN
      else Value(Mean(SpeedWindow(times, pos, 2, lines)))
  }

  /** What `accel` evidently means to return: the mean of the acceleration
      column it fills. */
  function IntendedAccelOf(times: seq<real>, pos: seq<real>, len: nat, averageDuration: real): (r: Reading)
    requires 1 <= len <= |times| == |pos|
    ensures len < 3 ==> r == Value(0.0)
  {
    if len < 3 then Value(0.0)
    else
      var lines := WindowEnd(times, averageDuration, len);
      if lines == 1 then ShapeMismatch
      else if lines <= 3 then NaN
      else Value(Mean(AccelWindow(times, pos, 2, lines)))
  }

  /** What `jerk` returns as written: the mean of the ACCELERATION column over
      rows 3 .. lines-2. */
  function JerkOf(times: seq<real>, pos: seq<real>, len: nat, averageDuration: real): (r: Reading)
    requires 1 <= len <= |times| == |pos|
    ensures len < 4 ==> r == Value(0.0)
  {
    if len < 4 then Value(0.0)
    else
      var lines := WindowEnd(times, averageDuration, len);
      if lines == 1 then ShapeMismatch
      else if lines <= 4 then NaN
      else Value(Mean(AccelWindow(times, pos, 3, lines)))
  }

  /** What `jerk` evidently means to return: the mean of the jerk column. */
  function IntendedJerkOf(times: seq<real>, pos: seq<real>, len: nat, averageDuration: real): (r: Reading)
    requires 1 <= len <= |times| == |pos|
    ensures len < 4 ==> r == Value(0.0)
  {
    if len < 4 then Value(0.0)
    else
      var lines := WindowEnd(times, averageDuration, len);
      if lines == 1 then ShapeMismatch
      else if lines <= 4 then NaN
      else Value(Mean(JerkWindow(times, pos, 3, lines)))
  }

  /** With the idle rows at zero, the window never reaches past the live rows. */
  lemma WindowWithinLive(times: seq<real>, averageDuration: real, len: nat)
    requires 1 <= len <= |times|
    requires forall i :: len <= i < |times| ==> times[i] == 0.0
    ensures 1 <= WindowEnd(times, averageDuration, len) <= len
  {
    if len < |times| {
      if averageDuration <= 0.0 {
        assert times[len] >= averageDuration;
      } else {
        assert forall j :: len <= j < |times| ==> times[j] < averageDuration;
      }
    }
  }

  /** `speed` raises the broadcast error exactly when there are at least two
      live rows, more than two rows of capacity, and row 1 is the first row
      whose time reaches the averaging duration. After a reset row 0 holds
      time 0, so a first sample stamped with a wall-clock time of at least
      `averageDuration` seconds makes every `speed` call fail until row 0 is
      shifted out. */
  lemma SpeedMismatchIff(times: seq<real>, pos: seq<real>, len: nat, averageDuration: real)
    requires 1 <= len <= |times| == |pos| && 2 <= |times|
    ensures SpeedOf(times, pos, len, averageDuration) == ShapeMismatch
            <==> 2 <= len && 2 < |times| && times[0] < averageDuration <= times[1]
  {
    if 2 <= len && times[0] < averageDuration <= times[1] {
      FirstAtLeastIsFirst(times, averageDuration, 1);
    }
  }

  /** One speed term of motion at constant speed `v`. */
  lemma UniformStep(t0: real, t1: real, p0: real, v: real)
    requires t0 < t1
    ensures Quot((p0 + v * t1) - (p0 + v * t0), t1 - t0) == v
  {
    assert (p0 + v * t1) - (p0 + v * t0) == v * (t1 - t0);
  }

  /** Live rows at strictly increasing times whose positions lie on the line
      `p0 + v * t` have speed term `v` in every row 1 .. len-1. */
  lemma UniformMotionTerms(times: seq<real>, pos: seq<real>, len: nat, p0: real, v: real)
    requires len <= |times| == |pos|
    requires forall i :: 1 <= i < len ==> times[i - 1] < times[i]
    requires forall i :: 0 <= i < len ==> pos[i] == p0 + v * times[i]
    ensures forall i :: 1 <= i < len ==> SpeedTerm(times, pos, i) == v
  {
    forall i | 1 <= i < len
      ensures SpeedTerm(times, pos, i) == v
    {
      UniformStep(times[i - 1], times[i], p0, v);
    }
  }

  /** Motion at constant speed `v`: `speed` reports `v` once its window
      holds at least one speed term. */
  lemma UniformMotionSpeed(times: seq<real>, pos: seq<real>, len: nat, averageDuration: real, p0: real, v: real)
    requires 1 <= len <= |times| == |pos|
    requires forall i :: len <= i < |times| ==> times[i] == 0.0
    requires forall i :: 1 <= i < len ==> times[i - 1] < times[i]
    requires forall i :: 0 <= i < len ==> pos[i] == p0 + v * times[i]
    requires WindowEnd(times, averageDuration, len) >= 3
    ensures SpeedOf(times, pos, len, averageDuration) == Value(v)
  {
    var lines := WindowEnd(times, averageDuration, len);
    WindowWithinLive(times, averageDuration, len);
    UniformMotionTerms(times, pos, len, p0, v);
    MeanOfConstant(SpeedWindow(times, pos, 1, lines), v);
  }

  /** As written, `accel` averages speed terms: under a constant speed `v`
      it reports `v`. */
  lemma AccelOfReportsSpeed(times: seq<real>, pos: seq<real>, len: nat, averageDuration: real, v: real)
    requires 3 <= len <= |times| == |pos|
    requires WindowEnd(times, averageDuration, len) >= 4
    requires forall i :: 1 <= i <= WindowEnd(times, averageDuration, len) - 2 ==> SpeedTerm(times, pos, i) == v
    ensures AccelOf(times, pos, len, averageDuration) == Value(v)
  {
    var lines := WindowEnd(times, averageDuration, len);
    MeanOfConstant(SpeedWindow(times, pos, 2, lines), v);
  }

  /** The intended `accel` averages acceleration terms: under a constant
      speed it reports 0. */
  lemma IntendedAccelOfConstantSpeed(times: seq<real>, pos: seq<real>, len: nat, averageDuration: real, v: real)
    requires 3 <= len <= |times| == |pos|
    requires WindowEnd(times, averageDuration, len) >= 4
    requires forall i :: 1 <= i <= WindowEnd(times, averageDuration, len) - 2 ==> SpeedTerm(times, pos, i) == v
    ensures IntendedAccelOf(times, pos, len, averageDuration) == Value(0.0)
  {
    var lines := WindowEnd(times, averageDuration, len);
    var w := AccelWindow(times, pos, 2, lines);
    forall k | 0 <= k < |w|
      ensures w[k] == 0.0
    {
      assert w[k] == AccelTerm(times, pos, 2 + k);
    }
    MeanOfConstant(w, 0.0);
  }

  /** Uniform motion at speed 1 shows the two apart: as written `accel`
      reports 1, the intended one 0. */
  lemma UniformMotionAccel(times: seq<real>, pos: seq<real>, len: nat, averageDuration: real, p0: real)
    requires 1 <= len <= |times| == |pos|
    requires forall i :: len <= i < |times| ==> times[i] == 0.0
    requires forall i :: 1 <= i < len ==> times[i - 1] < times[i]
    requires forall i :: 0 <= i < len ==> pos[i] == p0 + 1.0 * times[i]
    requires WindowEnd(times, averageDuration, len) >= 4
    ensures AccelOf(times, pos, len, averageDuration) == Value(1.0)
    ensures IntendedAccelOf(times, pos, len, averageDuration) == Value(0.0)
  {
    WindowWithinLive(times, averageDuration, len);
    UniformMotionTerms(times, pos, len, p0, 1.0);
    AccelOfReportsSpeed(times, pos, len, averageDuration, 1.0);
    IntendedAccelOfConstantSpeed(times, pos, len, averageDuration, 1.0);
  }

  /** As written, `jerk` averages acceleration terms: under a constant
      acceleration `a` it reports `a`. */
  lemma JerkOfReportsAccel(times: seq<real>, pos: seq<real>, len: nat, averageDuration: real, a: real)
    requires 4 <= len <= |times| == |pos|
    requires WindowEnd(times, averageDuration, len) >= 5
    requires forall i :: 2 <= i <= WindowEnd(times, averageDuration, len) - 2 ==> AccelTerm(times, pos, i) == a
    ensures JerkOf(times, pos, len, averageDuration) == Value(a)
  {
    var lines := WindowEnd(times, averageDuration, len);
    MeanOfConstant(AccelWindow(times, pos, 3, lines), a);
  }

  /** The intended `jerk` averages jerk terms: under a constant acceleration
      it reports 0. */
  lemma IntendedJerkOfConstantAccel(times: seq<real>, pos: seq<real>, len: nat, averageDuration: real, a: real)
    requires 4 <= len <= |times| == |pos|
    requires WindowEnd(times, averageDuration, len) >= 5
    requires forall i :: 2 <= i <= WindowEnd(times, averageDuration, len) - 2 ==> AccelTerm(times, pos, i) == a
    ensures IntendedJerkOf(times, pos, len, averageDuration) == Value(0.0)
  {
    var lines := WindowEnd(times, averageDuration, len);
    var w := JerkWindow(times, pos, 3, lines);
    forall k | 0 <= k < |w|
      ensures w[k] == 0.0
    {
      assert w[k] == JerkTerm(times, pos, 3 + k);
    }
    MeanOfConstant(w, 0.0);
  }

  /** Positions 0, 1, 4, 9, 16, 25 at times 0 .. 5 (acceleration 2): as
      written `jerk` reports 2, the intended one 0. */
  lemma SquaresJerk()
    ensures JerkOf([0.0, 1.0, 2.0, 3.0, 4.0, 5.0], [0.0, 1.0, 4.0, 9.0, 16.0, 25.0], 6, 10.0) == Value(2.0)
    ensures IntendedJerkOf([0.0, 1.0, 2.0, 3.0, 4.0, 5.0], [0.0, 1.0, 4.0, 9.0, 16.0, 25.0], 6, 10.0) == Value(0.0)
  {
    var times := [0.0, 1.0, 2.0, 3.0, 4.0, 5.0];
    var pos := [0.0, 1.0, 4.0, 9.0, 16.0, 25.0];
    FirstAtLeastIsFirst(times, 10.0, 6);
    assert WindowEnd(times, 10.0, 6) == 6;
    forall i | 2 <= i <= 4
      ensures AccelTerm(times, pos, i) == 2.0
    {
      assert SpeedTerm(times, pos, i) == pos[i] - pos[i - 1];
      assert SpeedTerm(times, pos, i - 1) == pos[i - 1] - pos[i - 2];
    }
    JerkOfReportsAccel(times, pos, 6, 10.0, 2.0);
    IntendedJerkOfConstantAccel(times, pos, 6, 10.0, 2.0);
  }

  /** Rows 1 .. lines-2 of the step-duration column hold the time differences. */
  ghost predicate StepsHold(times: seq<real>, steps: seq<real>, lines: nat)
    requires |steps| == |times|
  {
    forall i :: 1 <= i <= lines - 2 && i < |times| ==> steps[i] == times[i] - times[i - 1]
  }

  /** Row 0 of the speed column is zero and rows 1 .. lines-2 hold speeds. */
  ghost predicate SpeedsHold(times: seq<real>, pos: seq<real>, speeds: seq<real>, lines: nat)
    requires 1 <= |times| == |pos| == |speeds|
  {
    && speeds[0] == 0.0
    && forall i :: 1 <= i <= lines - 2 && i < |times| ==> speeds[i] == SpeedTerm(times, pos, i)
  }

  /** Rows 0 and 1 of the acceleration column are zero and rows 2 .. lines-2
      hold accelerations. */
  ghost predicate AccelsHold(times: seq<real>, pos: seq<real>, accels: seq<real>, lines: nat)
    requires 2 <= |times| == |pos| == |accels|
  {
    && accels[0] == 0.0 && accels[1] == 0.0
    && forall i :: 2 <= i <= lines - 2 && i < |times| ==> accels[i] == AccelTerm(times, pos, i)
  }

  /** Rows 0 .. 2 of the jerk column are zero and rows 3 .. lines-2 hold jerks. */
  ghost predicate JerksHold(times: seq<real>, pos: seq<real>, jerks: seq<real>, lines: nat)
    requires 3 <= |times| == |pos| == |jerks|
  {
    && jerks[0] == 0.0 && jerks[1] == 0.0 && jerks[2] == 0.0
    && forall i :: 3 <= i <= lines - 2 && i < |times| ==> jerks[i] == JerkTerm(times, pos, i)
  }

  /** Rows `from` onward that lie past the window's last row lines-2 are as
      they were. */
  ghost predicate SameBeyondWindow(c: seq<real>, before: seq<real>, from: nat, lines: nat)
    requires |c| == |before|
  {
    forall i :: from <= i < |c| && !(i <= lines - 2) ==> c[i] == before[i]
  }

  /** With the speed column filled, its rows 1 .. lines-2 are the speed window. */
  lemma SpeedWindowIsColumn(times: seq<real>, pos: seq<real>, speeds: seq<real>, lines: nat)
    requires 1 <= |times| == |pos| == |speeds| && 3 <= lines <= |times|
    requires SpeedsHold(times, pos, speeds, lines)
    ensures SpeedWindow(times, pos, 1, lines) == speeds[1..lines - 1]
  {
  }

  /** With the speed column filled, its rows 2 .. lines-2 are the window
      `accel` averages as written. */
  lemma SpeedWindowFromTwoIsColumn(times: seq<real>, pos: seq<real>, speeds: seq<real>, lines: nat)
    requires 1 <= |times| == |pos| == |speeds| && 4 <= lines <= |times|
    requires SpeedsHold(times, pos, speeds, lines)
    ensures SpeedWindow(times, pos, 2, lines) == speeds[2..lines - 1]
  {
  }

  /** With the acceleration column filled, its rows 3 .. lines-2 are the
      window `jerk` averages as written. */
  lemma AccelWindowFromThreeIsColumn(times: seq<real>, pos: seq<real>, accels: seq<real>, lines: nat)
    requires 2 <= |times| == |pos| == |accels| && 5 <= lines <= |times|
    requires AccelsHold(times, pos, accels, lines)
    ensures AccelWindow(times, pos, 3, lines) == accels[3..lines - 1]
  {
  }

  /** `np.roll(h[:, col], -1)` written back into column `col`. */
  method RollColumnUp(h: array2<real>, col: nat)
    requires col < h.Length1 && h.Length0 >= 1
    modifies h
    ensures ColumnOf(h, col) == old(ColumnOf(h, col))[1..] + [old(h[0, col])]
    ensures forall j :: 0 <= j < h.Length1 && j != col ==> ColumnOf(h, j) == old(ColumnOf(h, j))
  {
    ghost var before := ColumnOf(h, col);
    var first := h[0, col];
    var i := 0;
    while i < h.Length0 - 1
      invariant 0 <= i <= h.Length0 - 1
      invariant forall k :: 0 <= k < i ==> h[k, col] == old(h[k + 1, col])
      invariant forall k :: i <= k < h.Length0 ==> h[k, col] == old(h[k, col])
      invariant forall k, j :: 0 <= k < h.Length0 && 0 <= j < h.Length1 && j != col ==> h[k, j] == old(h[k, j])
    {
      h[i, col] := h[i + 1, col];
      i := i + 1;
    }
    h[h.Length0 - 1, col] := first;
    assert ColumnOf(h, col) == before[1..] + [first];
  }

  /** The array side of `add_position` over `len` live rows: one more live
      row up to the capacity, or at capacity the time and position columns
      shifted up one row; then the sample written into the last live row. */
  method AppendRow(h: array2<real>, len: nat, aTime: real, position: real) returns (newLen: nat)
    requires 1 <= len <= h.Length0 && h.Length1 == Columns
    modifies h
    ensures len < h.Length0 ==>
              && newLen == len + 1
              && ColumnOf(h, TimeCol) == old(ColumnOf(h, TimeCol))[len := aTime]
              && ColumnOf(h, PosCol) == old(ColumnOf(h, PosCol))[len := position]
    ensures len == h.Length0 ==>
              && newLen == len
              && ColumnOf(h, TimeCol) == old(ColumnOf(h, TimeCol))[1..] + [aTime]
              && ColumnOf(h, PosCol) == old(ColumnOf(h, PosCol))[1..] + [position]
    ensures forall j :: 0 <= j < Columns && j != TimeCol && j != PosCol ==> ColumnOf(h, j) == old(ColumnOf(h, j))
  {
    newLen := len + 1;
    if newLen > h.Length0 {
      newLen := h.Length0;
      RollColumnUp(h, TimeCol);
      RollColumnUp(h, PosCol);
      ghost var times, pos := ColumnOf(h, TimeCol), ColumnOf(h, PosCol);
      Store(h, newLen - 1, TimeCol, aTime);
      Store(h, newLen - 1, PosCol, position);
      assert ColumnOf(h, TimeCol) == times[newLen - 1 := aTime];
    } else {
      Store(h, newLen - 1, TimeCol, aTime);
      Store(h, newLen - 1, PosCol, position);
    }
  }

  /** `h[row, col] = v`, seen column by column. */
  method Store(h: array2<real>, row: nat, col: nat, v: real)
    requires row < h.Length0 && col < h.Length1
    modifies h
    ensures ColumnOf(h, col) == old(ColumnOf(h, col))[row := v]
    ensures forall j :: 0 <= j < h.Length1 && j != col ==> ColumnOf(h, j) == old(ColumnOf(h, j))
  {
    h[row, col] := v;
  }

  /** `h[0:n, col] = np.zeros(n)`. */
  method ZeroRows(h: array2<real>, col: nat, n: nat)
    requires col < h.Length1 && n <= h.Length0
    modifies h
    ensures forall i :: 0 <= i < h.Length0 ==> h[i, col] == if i < n then 0.0 else old(h[i, col])
    ensures forall j :: 0 <= j < h.Length1 && j != col ==> ColumnOf(h, j) == old(ColumnOf(h, j))
  {
    var i := 0;
    while i < n
      invariant i <= n
      invariant forall k :: 0 <= k < h.Length0 ==> h[k, col] == if k < i then 0.0 else old(h[k, col])
      invariant forall k, j :: 0 <= k < h.Length0 && 0 <= j < h.Length1 && j != col ==> h[k, j] == old(h[k, j])
    {
      h[i, col] := 0.0;
      i := i + 1;
    }
  }

  /** Index of the first row whose column `col` is at least `bound`, or the
      row count when none is. */
  method FirstRowAtLeast(h: array2<real>, col: nat, bound: real) returns (k: nat)
    requires col < h.Length1
    ensures k == FirstAtLeast(ColumnOf(h, col), bound)
  {
    k := 0;
    while k < h.Length0 && h[k, col] < bound
      invariant k <= h.Length0
      invariant forall j :: 0 <= j < k ==> h[j, col] < bound
    {
      k := k + 1;
    }
    FirstAtLeastIsFirst(ColumnOf(h, col), bound, k);
  }

  /** Rows lo .. hi-1 of column `dst` receive `h[i, src] - h[i-1, src]`
      (the step-duration slice assignment). */
  method WriteDifferences(h: array2<real>, dst: nat, src: nat, lo: nat, hi: int)
    requires dst < h.Length1 && src < h.Length1 && dst != src
    requires 1 <= lo <= h.Length0 && hi <= h.Length0
    modifies h
    ensures forall i :: 0 <= i < h.Length0 ==>
              h[i, dst] == if lo <= i < hi then old(h[i, src]) - old(h[i - 1, src]) else old(h[i, dst])
    ensures forall j :: 0 <= j < h.Length1 && j != dst ==> ColumnOf(h, j) == old(ColumnOf(h, j))
  {
    var i := lo;
    while i < hi
      invariant i == lo || lo <= i <= hi
      invariant forall k :: 0 <= k < h.Length0 ==>
                  h[k, dst] == if lo <= k < i then old(h[k, src]) - old(h[k - 1, src]) else old(h[k, dst])
      invariant forall k, j :: 0 <= k < h.Length0 && 0 <= j < h.Length1 && j != dst ==> h[k, j] == old(h[k, j])
    {
      h[i, dst] := h[i, src] - h[i - 1, src];
      i := i + 1;
    }
  }

  /** Rows lo .. hi-1 of column `dst` receive
      `(h[i, src] - h[i-1, src]) / h[i, StepCol]` (the rate slice assignments). */
  method WriteRates(h: array2<real>, dst: nat, src: nat, lo: nat, hi: int)
    requires dst < h.Length1 && src < h.Length1 && StepCol < h.Length1
    requires dst != src && dst != StepCol
    requires 1 <= lo <= h.Length0 && hi <= h.Length0
    modifies h
    ensures forall i :: 0 <= i < h.Length0 ==>
              h[i, dst] == if lo <= i < hi then Quot(old(h[i, src]) - old(h[i - 1, src]), old(h[i, StepCol]))
                           else old(h[i, dst])
    ensures forall j :: 0 <= j < h.Length1 && j != dst ==> ColumnOf(h, j) == old(ColumnOf(h, j))
  {
    var i := lo;
    while i < hi
      invariant i == lo || lo <= i <= hi
      invariant forall k :: 0 <= k < h.Length0 ==>
                  h[k, dst] == if lo <= k < i then Quot(old(h[k, src]) - old(h[k - 1, src]), old(h[k, StepCol]))
                               else old(h[k, dst])
      invariant forall k, j :: 0 <= k < h.Length0 && 0 <= j < h.Length1 && j != dst ==> h[k, j] == old(h[k, j])
    {
      h[i, dst] := Quot(h[i, src] - h[i - 1, src], h[i, StepCol]);
      i := i + 1;
    }
  }

  /** `np.average(h[lo:hi, col])` for a non-empty slice. */
  method AverageRows(h: array2<real>, col: nat, lo: nat, hi: nat) returns (m: real)
    requires col < h.Length1 && lo < hi <= h.Length0
    ensures m == Mean(ColumnOf(h, col)[lo..hi])
  {
    ghost var c := ColumnOf(h, col);
    var total := 0.0;
    var i := lo;
    while i < hi
      invariant lo <= i <= hi
      invariant total == Sum(c[lo..i])
    {
      assert c[lo..i + 1][..i - lo] == c[lo..i];
      total := total + h[i, col];
      i := i + 1;
    }
    m := total / ((hi - lo) as real);
  }

  /** The slice assignments of `speed` for a window of `lines` rows: step
      durations and speeds in rows 1 .. lines-2, and a zero speed in row 0. */
  method FillSpeeds(h: array2<real>, lines: nat)
    requires h.Length1 == Columns && 1 <= lines <= h.Length0
    modifies h
    ensures ColumnOf(h, TimeCol) == old(ColumnOf(h, TimeCol)) && ColumnOf(h, PosCol) == old(ColumnOf(h, PosCol))
    ensures ColumnOf(h, AccelCol) == old(ColumnOf(h, AccelCol)) && ColumnOf(h, JerkCol) == old(ColumnOf(h, JerkCol))
    ensures StepsHold(ColumnOf(h, TimeCol), ColumnOf(h, StepCol), lines)
    ensures SpeedsHold(ColumnOf(h, TimeCol), ColumnOf(h, PosCol), ColumnOf(h, SpeedCol), lines)
    ensures SameBeyondWindow(ColumnOf(h, StepCol), old(ColumnOf(h, StepCol)), 1, lines)
    ensures SameBeyondWindow(ColumnOf(h, SpeedCol), old(ColumnOf(h, SpeedCol)), 1, lines)
  {
    WriteDifferences(h, StepCol, TimeCol, 1, lines - 1);
    ZeroRows(h, SpeedCol, 1);
    WriteRates(h, SpeedCol, PosCol, 1, lines - 1);
  }

  /** The acceleration slice assignments of `accel` for a window of `lines`
      rows whose step-duration and speed columns are filled. */
  method FillAccels(h: array2<real>, lines: nat)
    requires h.Length1 == Columns && 3 <= h.Length0 && 1 <= lines <= h.Length0
    requires StepsHold(ColumnOf(h, TimeCol), ColumnOf(h, StepCol), lines)
    requires SpeedsHold(ColumnOf(h, TimeCol), ColumnOf(h, PosCol), ColumnOf(h, SpeedCol), lines)
    modifies h
    ensures ColumnOf(h, TimeCol) == old(ColumnOf(h, TimeCol)) && ColumnOf(h, PosCol) == old(ColumnOf(h, PosCol))
    ensures ColumnOf(h, StepCol) == old(ColumnOf(h, StepCol)) && ColumnOf(h, SpeedCol) == old(ColumnOf(h, SpeedCol))
    ensures ColumnOf(h, JerkCol) == old(ColumnOf(h, JerkCol))
    ensures AccelsHold(ColumnOf(h, TimeCol), ColumnOf(h, PosCol), ColumnOf(h, AccelCol), lines)
    ensures SameBeyondWindow(ColumnOf(h, AccelCol), old(ColumnOf(h, AccelCol)), 2, lines)
  {
    ghost var times, pos, steps, speeds := ColumnOf(h, TimeCol), ColumnOf(h, PosCol), ColumnOf(h, StepCol), ColumnOf(h, SpeedCol);
    ZeroRows(h, AccelCol, 2);
    WriteRates(h, AccelCol, SpeedCol, 2, lines - 1);
    ghost var accels := ColumnOf(h, AccelCol);
    forall i | 2 <= i <= lines - 2
      ensures accels[i] == AccelTerm(times, pos, i)
    {
      assert accels[i] == Quot(speeds[i] - speeds[i - 1], steps[i]);
    }
  }

  /** The jerk slice assignments of `jerk` for a window of `lines` rows whose
      step-duration and acceleration columns are filled. */
  method FillJerks(h: array2<real>, lines: nat)
    requires h.Length1 == Columns && 4 <= h.Length0 && 1 <= lines <= h.Length0
    requires StepsHold(ColumnOf(h, TimeCol), ColumnOf(h, StepCol), lines)
    requires AccelsHold(ColumnOf(h, TimeCol), ColumnOf(h, PosCol), ColumnOf(h, AccelCol), lines)
    modifies h
    ensures ColumnOf(h, TimeCol) == old(ColumnOf(h, TimeCol)) && ColumnOf(h, PosCol) == old(ColumnOf(h, PosCol))
    ensures ColumnOf(h, StepCol) == old(ColumnOf(h, StepCol)) && ColumnOf(h, SpeedCol) == old(ColumnOf(h, SpeedCol))
    ensures ColumnOf(h, AccelCol) == old(ColumnOf(h, AccelCol))
    ensures JerksHold(ColumnOf(h, TimeCol), ColumnOf(h, PosCol), ColumnOf(h, JerkCol), lines)
    ensures SameBeyondWindow(ColumnOf(h, JerkCol), old(ColumnOf(h, JerkCol)), 3, lines)
  {
    ghost var times, pos, steps, accels := ColumnOf(h, TimeCol), ColumnOf(h, PosCol), ColumnOf(h, StepCol), ColumnOf(h, AccelCol);
    ZeroRows(h, JerkCol, 3);
    WriteRates(h, JerkCol, AccelCol, 3, lines - 1);
    ghost var jerks := ColumnOf(h, JerkCol);
    forall i | 3 <= i <= lines - 2
      ensures jerks[i] == JerkTerm(times, pos, i)
    {
      assert jerks[i] == Quot(accels[i] - accels[i - 1], steps[i]);
    }
  }

  /** `speed` on the history array `h` with `len >= 2` live rows: the window
      it chose and the reading it returns. */
  method SpeedRows(h: array2<real>, len: nat, averageDuration: real) returns (r: Reading, lines: nat)
    requires h.Length1 == Columns && 2 <= len <= h.Length0
    modifies h
    ensures ColumnOf(h, TimeCol) == old(ColumnOf(h, TimeCol)) && ColumnOf(h, PosCol) == old(ColumnOf(h, PosCol))
    ensures ColumnOf(h, JerkCol) == old(ColumnOf(h, JerkCol))
    ensures ColumnOf(h, AccelCol) == old(ColumnOf(h, AccelCol))[0 := 0.0]
    ensures lines == WindowEnd(ColumnOf(h, TimeCol), averageDuration, len)
    ensures r == SpeedOf(ColumnOf(h, TimeCol), ColumnOf(h, PosCol), len, averageDuration)
    ensures r == ShapeMismatch ==>
              ColumnOf(h, StepCol) == old(ColumnOf(h, StepCol)) && ColumnOf(h, SpeedCol) == old(ColumnOf(h, SpeedCol))
    ensures r != ShapeMismatch ==>
              && StepsHold(ColumnOf(h, TimeCol), ColumnOf(h, StepCol), lines)
              && SpeedsHold(ColumnOf(h, TimeCol), ColumnOf(h, PosCol), ColumnOf(h, SpeedCol), lines)
              && SameBeyondWindow(ColumnOf(h, StepCol), old(ColumnOf(h, StepCol)), 1, lines)
              && SameBeyondWindow(ColumnOf(h, SpeedCol), old(ColumnOf(h, SpeedCol)), 1, lines)
  {
    var first := FirstRowAtLeast(h, TimeCol, averageDuration);
    // np.argmax of an all-false mask is 0
    lines := if first < h.Length0 then first else 0;
    if lines == 0 {
      // not enough history for the averaging duration: use all of it
      lines := len;
    }
    ZeroRows(h, AccelCol, 1);
    assert ColumnOf(h, AccelCol) == old(ColumnOf(h, AccelCol))[0 := 0.0];
    if lines == 1 && h.Length0 > 2 {
      // h[1:0] - h[:-1] cannot broadcast
      return ShapeMismatch, lines;
    }
    FillSpeeds(h, lines);
    if lines <= 2 {
      return NaN, lines;
    }
    var mean := AverageRows(h, SpeedCol, 1, lines - 1);
    SpeedWindowIsColumn(ColumnOf(h, TimeCol), ColumnOf(h, PosCol), ColumnOf(h, SpeedCol), lines);
    r := Value(mean);
  }

  /** `accel` on the history array `h` with `len >= 3` live rows: runs
      `speed`, fills the acceleration column of the window and returns the
      mean of the SPEED column over rows 2 .. lines-2. */
  method AccelRows(h: array2<real>, len: nat, averageDuration: real) returns (r: Reading, lines: nat)
    requires h.Length1 == Columns && 3 <= len <= h.Length0
    modifies h
    ensures ColumnOf(h, TimeCol) == old(ColumnOf(h, TimeCol)) && ColumnOf(h, PosCol) == old(ColumnOf(h, PosCol))
    ensures ColumnOf(h, JerkCol) == old(ColumnOf(h, JerkCol))
    ensures lines == WindowEnd(ColumnOf(h, TimeCol), averageDuration, len)
    ensures r == AccelOf(ColumnOf(h, TimeCol), ColumnOf(h, PosCol), len, averageDuration)
    ensures r == ShapeMismatch ==>
              && ColumnOf(h, StepCol) == old(ColumnOf(h, StepCol)) && ColumnOf(h, SpeedCol) == old(ColumnOf(h, SpeedCol))
              && ColumnOf(h, AccelCol) == old(ColumnOf(h, AccelCol))[0 := 0.0]
    ensures r != ShapeMismatch ==>
              && StepsHold(ColumnOf(h, TimeCol), ColumnOf(h, StepCol), lines)
              && SpeedsHold(ColumnOf(h, TimeCol), ColumnOf(h, PosCol), ColumnOf(h, SpeedCol), lines)
              && AccelsHold(ColumnOf(h, TimeCol), ColumnOf(h, PosCol), ColumnOf(h, AccelCol), lines)
              && SameBeyondWindow(ColumnOf(h, StepCol), old(ColumnOf(h, StepCol)), 1, lines)
              && SameBeyondWindow(ColumnOf(h, SpeedCol), old(ColumnOf(h, SpeedCol)), 1, lines)
              && SameBeyondWindow(ColumnOf(h, AccelCol), old(ColumnOf(h, AccelCol)), 2, lines)
  {
    var speed;
    speed, lines := SpeedRows(h, len, averageDuration);
    if speed == ShapeMismatch {
      return ShapeMismatch, lines;
    }
    FillAccels(h, lines);
    if lines <= 3 {
      return NaN, lines;
    }
    var mean := AverageRows(h, SpeedCol, 2, lines - 1);
    SpeedWindowFromTwoIsColumn(ColumnOf(h, TimeCol), ColumnOf(h, PosCol), ColumnOf(h, SpeedCol), lines);
    r := Value(mean);
  }

  /** `jerk` on the history array `h` with `len >= 4` live rows: runs
      `accel`, fills the jerk column of the window and returns the mean of the
      ACCELERATION column over rows 3 .. lines-2. */
  method JerkRows(h: array2<real>, len: nat, averageDuration: real) returns (r: Reading, lines: nat)
    requires h.Length1 == Columns && 4 <= len <= h.Length0
    modifies h
    ensures ColumnOf(h, TimeCol) == old(ColumnOf(h, TimeCol)) && ColumnOf(h, PosCol) == old(ColumnOf(h, PosCol))
    ensures lines == WindowEnd(ColumnOf(h, TimeCol), averageDuration, len)
    ensures r == JerkOf(ColumnOf(h, TimeCol), ColumnOf(h, PosCol), len, averageDuration)
    ensures r == ShapeMismatch ==>
              && ColumnOf(h, StepCol) == old(ColumnOf(h, StepCol)) && ColumnOf(h, SpeedCol) == old(ColumnOf(h, SpeedCol))
              && ColumnOf(h, AccelCol) == old(ColumnOf(h, AccelCol))[0 := 0.0]
              && ColumnOf(h, JerkCol) == old(ColumnOf(h, JerkCol))
    ensures r != ShapeMismatch ==>
              && StepsHold(ColumnOf(h, TimeCol), ColumnOf(h, StepCol), lines)
              && SpeedsHold(ColumnOf(h, TimeCol), ColumnOf(h, PosCol), ColumnOf(h, SpeedCol), lines)
              && AccelsHold(ColumnOf(h, TimeCol), ColumnOf(h, PosCol), ColumnOf(h, AccelCol), lines)
              && JerksHold(ColumnOf(h, TimeCol), ColumnOf(h, PosCol), ColumnOf(h, JerkCol), lines)
              && SameBeyondWindow(ColumnOf(h, StepCol), old(ColumnOf(h, StepCol)), 1, lines)
              && SameBeyondWindow(ColumnOf(h, SpeedCol), old(ColumnOf(h, SpeedCol)), 1, lines)
              && SameBeyondWindow(ColumnOf(h, AccelCol), old(ColumnOf(h, AccelCol)), 2, lines)
              && SameBeyondWindow(ColumnOf(h, JerkCol), old(ColumnOf(h, JerkCol)), 3, lines)
  {
    var accel;
    accel, lines := AccelRows(h, len, averageDuration);
    if accel == ShapeMismatch {
      return ShapeMismatch, lines;
    }
    FillJerks(h, lines);
    if lines <= 4 {
      return NaN, lines;
    }
    var mean := AverageRows(h, AccelCol, 3, lines - 1);
    AccelWindowFromThreeIsColumn(ColumnOf(h, TimeCol), ColumnOf(h, PosCol), ColumnOf(h, AccelCol), lines);
    r := Value(mean);
  }

  /** The time and position columns hold the newest `len` samples, oldest
      first, and zeros below them. */
  ghost predicate HoldsNewest(times: seq<real>, pos: seq<real>, samples: seq<Sample>, len: nat)
  {
    && len <= |samples| && len <= |times| == |pos|
    && (forall i :: 0 <= i < len ==>
          times[i] == samples[|samples| - len + i].time && pos[i] == samples[|samples| - len + i].position)
    && (forall i :: len <= i < |times| ==> times[i] == 0.0 && pos[i] == 0.0)
  }

  /** Writing a new sample below the live rows, or shifting both columns up
      and writing it last when they are full, keeps the newest samples. */
  lemma AppendKeepsNewest(times: seq<real>, pos: seq<real>, samples: seq<Sample>, len: nat, x: Sample)
    requires 1 <= len <= |times| && len == MinNat(|times|, |samples|)
    requires HoldsNewest(times, pos, samples, len)
    ensures len < |times| ==>
              HoldsNewest(times[len := x.time], pos[len := x.position], samples + [x], len + 1)
    ensures len == |times| ==>
              HoldsNewest(times[1..] + [x.time], pos[1..] + [x.position], samples + [x], len)
  {
  }

  class EncoderGeneral {
    /** Capacity N of the history. */
    const maxNoPositionPoints: nat
    /** Seconds that speed, acceleration and jerk are averaged over. */
    const averageDuration: real
    var positionHistory: array2<real>
    var currentHistoryLen: nat
    var historyLinesToUse: nat
    /** Every sample recorded since the last reset, the zero origin first. */
    ghost var samples: seq<Sample>

    /** The live rows hold the newest min(N, |samples|) samples. */
    ghost predicate Valid()
      reads this, positionHistory
    {
      && positionHistory.Length0 == maxNoPositionPoints >= 1
      && positionHistory.Length1 == Columns
      && 1 <= currentHistoryLen <= maxNoPositionPoints
      && currentHistoryLen == MinNat(maxNoPositionPoints, |samples|)
      && HoldsNewest(Times(), Positions(), samples, currentHistoryLen)
    }

    /** Column `j` of the history. */
    ghost function Column(j: nat): (c: seq<real>)
      reads this, positionHistory
      requires j < positionHistory.Length1
      ensures |c| == positionHistory.Length0
    {
      ColumnOf(positionHistory, j)
    }

    ghost function Times(): (t: seq<real>)
      reads this, positionHistory
      requires positionHistory.Length1 == Columns
      ensures |t| == positionHistory.Length0
    {
      Column(TimeCol)
    }

    ghost function Positions(): (p: seq<real>)
      reads this, positionHistory
      requires positionHistory.Length1 == Columns
      ensures |p| == positionHistory.Length0
    {
      Column(PosCol)
    }

    /** The position stored in the newest live row: the newest sample's. */
    function LastPosition(): (p: real)
      reads this, positionHistory
      requires Valid()
      ensures p == samples[|samples| - 1].position
    {
      assert Positions()[currentHistoryLen - 1] == positionHistory[currentHistoryLen - 1, PosCol];
      positionHistory[currentHistoryLen - 1, PosCol]
    }

    /** The time stored in the newest live row: the newest sample's. */
    function LastTime(): (t: real)
      reads this, positionHistory
      requires Valid()
      ensures t == samples[|samples| - 1].time
    {
      assert Times()[currentHistoryLen - 1] == positionHistory[currentHistoryLen - 1, TimeCol];
      positionHistory[currentHistoryLen - 1, TimeCol]
    }

    constructor (maxNoPositionPoints: nat := 10_000, averageDuration: real := 1.0)
      requires maxNoPositionPoints >= 1
      ensures Valid() && fresh(positionHistory)
      ensures this.maxNoPositionPoints == maxNoPositionPoints && this.averageDuration == averageDuration
      ensures samples == [Sample(0.0, 0.0)] && currentHistoryLen == 1
    {
      this.maxNoPositionPoints := maxNoPositionPoints;
      this.averageDuration := averageDuration;
      new;
      ResetHistory();
    }

    /** `reset_history`: a fresh N x 6 array of zeros and one live row, the
        zero origin. */
    method ResetHistory()
      requires maxNoPositionPoints >= 1
      modifies this`positionHistory, this`currentHistoryLen, this`samples
      ensures Valid() && fresh(positionHistory)
      ensures samples == [Sample(0.0, 0.0)] && currentHistoryLen == 1
      ensures forall i, j :: 0 <= i < maxNoPositionPoints && 0 <= j < Columns ==> positionHistory[i, j] == 0.0
    {
      positionHistory := new real[maxNoPositionPoints, Columns]((i, j) => 0.0);
      currentHistoryLen := 1;
      samples := [Sample(0.0, 0.0)];
    }

    /** `add_position`: grow the live length by one up to N; at N shift the
        time and position columns one row up first, dropping the oldest
        sample. The new sample goes in the last live row; the step, speed,
        acceleration and jerk columns are not touched. */
    method AddPosition(aTime: real, position: real)
      requires Valid()
      modifies this`currentHistoryLen, this`samples, positionHistory
      ensures Valid()
      ensures samples == old(samples) + [Sample(aTime, position)]
      ensures old(currentHistoryLen) < maxNoPositionPoints ==>
                && currentHistoryLen == old(currentHistoryLen) + 1
                && Times() == old(Times())[currentHistoryLen - 1 := aTime]
                && Positions() == old(Positions())[currentHistoryLen - 1 := position]
      ensures old(currentHistoryLen) == maxNoPositionPoints ==>
                && currentHistoryLen == maxNoPositionPoints
                && Times() == old(Times())[1..] + [aTime]
                && Positions() == old(Positions())[1..] + [position]
      ensures forall j :: 0 <= j < Columns && j != TimeCol && j != PosCol ==> Column(j) == old(Column(j))
    {
      ghost var len := currentHistoryLen;
      currentHistoryLen := AppendRow(positionHistory, currentHistoryLen, aTime, position);
      samples := samples + [Sample(aTime, position)];
      AppendKeepsNewest(old(Times()), old(Positions()), old(samples), len, Sample(aTime, position));
    }

    /** `speed`: 0 with fewer than two live rows; otherwise chooses the
        averaging window, fills its step-duration and speed columns and
        returns their mean speed over rows 1 .. lines-2. */
    method Speed() returns (r: Reading)
      requires Valid()
      modifies this`historyLinesToUse, positionHistory
      ensures Valid() && Times() == old(Times()) && Positions() == old(Positions())
      ensures r == SpeedOf(Times(), Positions(), currentHistoryLen, averageDuration)
      ensures Column(JerkCol) == old(Column(JerkCol))
      ensures currentHistoryLen < 2 ==>
                && historyLinesToUse == old(historyLinesToUse)
                && forall j :: 0 <= j < Columns ==> Column(j) == old(Column(j))
      ensures currentHistoryLen >= 2 ==>
                && historyLinesToUse == WindowEnd(Times(), averageDuration, currentHistoryLen)
                && Column(AccelCol) == old(Column(AccelCol))[0 := 0.0]
      ensures r == ShapeMismatch ==>
                Column(StepCol) == old(Column(StepCol)) && Column(SpeedCol) == old(Column(SpeedCol))
      ensures currentHistoryLen >= 2 && r != ShapeMismatch ==>
                && StepsHold(Times(), Column(StepCol), historyLinesToUse)
                && SpeedsHold(Times(), Positions(), Column(SpeedCol), historyLinesToUse)
                && SameBeyondWindow(Column(StepCol), old(Column(StepCol)), 1, historyLinesToUse)
                && SameBeyondWindow(Column(SpeedCol), old(Column(SpeedCol)), 1, historyLinesToUse)
    {
      if currentHistoryLen < 2 {
        return Value(0.0);
      }
      r, historyLinesToUse := SpeedRows(positionHistory, currentHistoryLen, averageDuration);
    }

    /** `accel`: 0 with fewer than three live rows; otherwise as `AccelRows`. */
    method Accel() returns (r: Reading)
      requires Valid()
      modifies this`historyLinesToUse, positionHistory
      ensures Valid() && Times() == old(Times()) && Positions() == old(Positions())
      ensures r == AccelOf(Times(), Positions(), currentHistoryLen, averageDuration)
      ensures Column(JerkCol) == old(Column(JerkCol))
      ensures currentHistoryLen < 3 ==>
                && historyLinesToUse == old(historyLinesToUse)
                && forall j :: 0 <= j < Columns ==> Column(j) == old(Column(j))
      ensures currentHistoryLen >= 3 ==> historyLinesToUse == WindowEnd(Times(), averageDuration, currentHistoryLen)
      ensures currentHistoryLen >= 3 && r == ShapeMismatch ==>
                && Column(StepCol) == old(Column(StepCol)) && Column(SpeedCol) == old(Column(SpeedCol))
                && Column(AccelCol) == old(Column(AccelCol))[0 := 0.0]
      ensures currentHistoryLen >= 3 && r != ShapeMismatch ==>
                && StepsHold(Times(), Column(StepCol), historyLinesToUse)
                && SpeedsHold(Times(), Positions(), Column(SpeedCol), historyLinesToUse)
                && AccelsHold(Times(), Positions(), Column(AccelCol), historyLinesToUse)
                && SameBeyondWindow(Column(StepCol), old(Column(StepCol)), 1, historyLinesToUse)
                && SameBeyondWindow(Column(SpeedCol), old(Column(SpeedCol)), 1, historyLinesToUse)
                && SameBeyondWindow(Column(AccelCol), old(Column(AccelCol)), 2, historyLinesToUse)
    {
      if currentHistoryLen < 3 {
        return Value(0.0);
      }
      r, historyLinesToUse := AccelRows(positionHistory, currentHistoryLen, averageDuration);
    }

    /** `jerk`: 0 with fewer than four live rows; otherwise as `JerkRows`. */
    method Jerk() returns (r: Reading)
      requires Valid()
      modifies this`historyLinesToUse, positionHistory
      ensures Valid() && Times() == old(Times()) && Positions() == old(Positions())
      ensures r == JerkOf(Times(), Positions(), currentHistoryLen, averageDuration)
      ensures currentHistoryLen < 4 ==>
                && historyLinesToUse == old(historyLinesToUse)
                && forall j :: 0 <= j < Columns ==> Column(j) == old(Column(j))
      ensures currentHistoryLen >= 4 ==> historyLinesToUse == WindowEnd(Times(), averageDuration, currentHistoryLen)
      ensures currentHistoryLen >= 4 && r == ShapeMismatch ==>
                && Column(StepCol) == old(Column(StepCol)) && Column(SpeedCol) == old(Column(SpeedCol))
                && Column(AccelCol) == old(Column(AccelCol))[0 := 0.0] && Column(JerkCol) == old(Column(JerkCol))
      ensures currentHistoryLen >= 4 && r != ShapeMismatch ==>
                && StepsHold(Times(), Column(StepCol), historyLinesToUse)
                && SpeedsHold(Times(), Positions(), Column(SpeedCol), historyLinesToUse)
                && AccelsHold(Times(), Positions(), Column(AccelCol), historyLinesToUse)
                && JerksHold(Times(), Positions(), Column(JerkCol), historyLinesToUse)
                && SameBeyondWindow(Column(StepCol), old(Column(StepCol)), 1, historyLinesToUse)
                && SameBeyondWindow(Column(SpeedCol), old(Column(SpeedCol)), 1, historyLinesToUse)
                && SameBeyondWindow(Column(AccelCol), old(Column(AccelCol)), 2, historyLinesToUse)
                && SameBeyondWindow(Column(JerkCol), old(Column(JerkCol)), 3, historyLinesToUse)
    {
      if currentHistoryLen < 4 {
        return Value(0.0);
      }
      r, historyLinesToUse := JerkRows(positionHistory, currentHistoryLen, averageDuration);
    }
  }
}
