/** The Balance Bot wrapper around the BNO055 inertial sensor
    (balance_bot/bb_bno055_sensor.py): the calibration keys and their check,
    the calibration waits over a stream of status readings, the temperature
    units, and the remapping of the chip's axes onto the robot's. The
    driver's readings are inputs; logging, sleeps and file I/O are left out. */
module Bno055 {
  import opened Wrappers

  /** `_calibration_items`: the keys a saved calibration must hold. */
  const CalibrationItems: seq<string> :=
    ["accel_offset", "magnet_offset", "gyro_offset", "accel_radius", "magnet_radius"]

  /** The same keys as a set. */
  const CalibrationKeys: set<string> := set item | item in CalibrationItems

  /** What `_validate_calibration_data` returns: `False` or, by falling off
      the end, `None`. Both are false in a test. */
  datatype ValidateResult = ReturnedFalse | ReturnedNone

  /** Python's truth value of the result: `False` is false, and so is
      `None`. */
  predicate Truthy(r: ValidateResult)
  {
    match r
    case ReturnedFalse => false
    case ReturnedNone => false
  }

  /** `_validate_calibration_data` as written: `False` when some key is
      missing, otherwise no return value at all. */
  function ValidateCalibrationData(keys: set<string>): (r: ValidateResult)
    ensures r == ReturnedFalse <==> exists i :: 0 <= i < |CalibrationItems| && CalibrationItems[i] !in keys
    ensures r == ReturnedNone <==> forall i :: 0 <= i < |CalibrationItems| ==> CalibrationItems[i] in keys
  {
    if forall item | item in CalibrationItems :: item in keys then ReturnedNone else ReturnedFalse
  }

  /** Whatever the file holds, the constructor's `if not ...` test sees a
      false value and raises: a saved calibration is never offered. */
  lemma RestoreCheckAlwaysRaises(keys: set<string>)
    ensures !Truthy(ValidateCalibrationData(keys))
    ensures CalibrationKeys <= keys ==> ValidateCalibrationData(keys) == ReturnedNone
  {
  }

  /** The check as evidently intended: true exactly when every key is there. */
  function IntendedValidateCalibrationData(keys: set<string>): (ok: bool)
    ensures ok <==> forall i :: 0 <= i < |CalibrationItems| ==> CalibrationItems[i] in keys
  {
    forall item | item in CalibrationItems :: item in keys
  }

  /** The intended check passes a complete calibration, with or without
      extra keys, and rejects one with the magnetometer radius missing. */
  lemma IntendedCheckAcceptsCompleteData(keys: set<string>)
    ensures IntendedValidateCalibrationData(keys + CalibrationKeys)
    ensures !IntendedValidateCalibrationData(keys - {"magnet_radius"})
  {
    var full := keys + CalibrationKeys;
    forall i | 0 <= i < |CalibrationItems| ensures CalibrationItems[i] in full {
    }
    assert CalibrationItems[4] == "magnet_radius";
  }

  /** One reading of the chip's `calibration_status`: four levels 0 .. 3. */
  datatype Status = Status(system: int, gyro: int, accel: int, mag: int)

  /** An index into the status tuple. */
  type StatusIndex = i: nat | i < 4

  /** `calibration_status[i]`. */
  function StatusAt(s: Status, i: StatusIndex): (level: int)
    ensures i == 0 ==> level == s.system
    ensures i == 1 ==> level == s.gyro
    ensures i == 2 ==> level == s.accel
    ensures i == 3 ==> level == s.mag
  {
    if i == 0 then s.system else if i == 1 then s.gyro else if i == 2 then s.accel else s.mag
  }

  /** The level a wait loop waits for. */
  const FullyCalibrated: int := 0x03

  /** The status indices `calibrate_sensor` waits on, in order: gyro, accel,
      "magnetometer" (index 2 again) and system. */
  const AsWrittenWaits: seq<StatusIndex> := [1, 2, 2, 0]

  /** The waits with the magnetometer's own index. */
  const IntendedWaits: seq<StatusIndex> := [1, 2, 3, 0]

  /** A wait loop reading `readings` from position `from` on: the first
      position whose level at `index` is full, or None when the readings run
      out first. */
  function Await(readings: seq<Status>, from: nat, index: StatusIndex): Option<nat>
    decreases |readings| - from
  {
    if from >= |readings| then None
    else if StatusAt(readings[from], index) == FullyCalibrated then Some(from)
    else Await(readings, from + 1, index)
  }

  /** A wait ends at the first full reading from `from` on, and runs out
      only when there is none. */
  lemma {:induction false} AwaitFindsFirst(readings: seq<Status>, from: nat, index: StatusIndex)
    ensures var r := Await(readings, from, index);
            && (r.Some? ==>
                  && from <= r.value < |readings| && StatusAt(readings[r.value], index) == FullyCalibrated
                  && forall j :: from <= j < r.value ==> StatusAt(readings[j], index) != FullyCalibrated)
            && (r.None? ==> forall j :: from <= j < |readings| ==> StatusAt(readings[j], index) != FullyCalibrated)
    decreases |readings| - from
  {
    if from < |readings| && StatusAt(readings[from], index) != FullyCalibrated {
      AwaitFindsFirst(readings, from + 1, index);
    }
  }

  /** The waits one after another, each starting at the reading after the
      one that ended the previous wait: the position after the last wait, or
      None when the readings run out. */
  function Calibrated(readings: seq<Status>, waits: seq<StatusIndex>, from: nat): Option<nat>
    decreases |waits|
  {
    if waits == [] then Some(from)
    else match Await(readings, from, waits[0])
      case None => None
      case Some(k) => Calibrated(readings, waits[1..], k + 1)
  }

  /** Two streams that agree at `index` give the same wait. */
  lemma {:induction false} AwaitSeesOneIndex(r1: seq<Status>, r2: seq<Status>, from: nat, index: StatusIndex)
    requires |r1| == |r2|
    requires forall j :: 0 <= j < |r1| ==> StatusAt(r1[j], index) == StatusAt(r2[j], index)
    ensures Await(r1, from, index) == Await(r2, from, index)
    decreases |r1| - from
  {
    if from < |r1| && StatusAt(r1[from], index) != FullyCalibrated {
      AwaitSeesOneIndex(r1, r2, from + 1, index);
    }
  }

  /** Waits that never name index 3 finish the same way on streams that
      differ only in the magnetometer level. */
  lemma {:induction false} CalibrationIgnoresMagnetometer(r1: seq<Status>, r2: seq<Status>, waits: seq<StatusIndex>, from: nat)
    requires 3 !in waits && |r1| == |r2|
    requires forall j :: 0 <= j < |r1| ==> r1[j].(mag := 0) == r2[j].(mag := 0)
    ensures Calibrated(r1, waits, from) == Calibrated(r2, waits, from)
    decreases |waits|
  {
    if waits != [] {
      forall j | 0 <= j < |r1| ensures StatusAt(r1[j], waits[0]) == StatusAt(r2[j], waits[0]) {
        assert r1[j].(mag := 0).system == r2[j].(mag := 0).system;
        assert r1[j].(mag := 0).gyro == r2[j].(mag := 0).gyro;
        assert r1[j].(mag := 0).accel == r2[j].(mag := 0).accel;
      }
      AwaitSeesOneIndex(r1, r2, from, waits[0]);
      match Await(r1, from, waits[0])
      case None =>
      case Some(k) => CalibrationIgnoresMagnetometer(r1, r2, waits[1..], k + 1);
    }
  }

  /** As written, calibration finishes while the magnetometer level never
      leaves 0; with its own index the same readings leave it waiting. */
  lemma MagnetometerNeverAwaited()
    ensures var readings := [Status(3, 3, 3, 0), Status(3, 3, 3, 0), Status(3, 3, 3, 0), Status(3, 3, 3, 0)];
            Calibrated(readings, AsWrittenWaits, 0) == Some(4) && Calibrated(readings, IntendedWaits, 0).None?
  {
    var readings := [Status(3, 3, 3, 0), Status(3, 3, 3, 0), Status(3, 3, 3, 0), Status(3, 3, 3, 0)];
    assert Await(readings, 0, 1) == Some(0);
    assert Await(readings, 1, 2) == Some(1);
    assert Await(readings, 2, 2) == Some(2);
    assert Await(readings, 3, 0) == Some(3);
    assert Await(readings, 2, 3).None?;
  }

  /** Finished waits have each seen its index at full level. */
  lemma {:induction false} CalibratedSawEveryIndex(readings: seq<Status>, waits: seq<StatusIndex>, from: nat)
    requires Calibrated(readings, waits, from).Some?
    ensures forall i :: 0 <= i < |waits| ==>
              exists j :: from <= j < |readings| && StatusAt(readings[j], waits[i]) == FullyCalibrated
    decreases |waits|
  {
    if waits != [] {
      var k := Await(readings, from, waits[0]).value;
      AwaitFindsFirst(readings, from, waits[0]);
      CalibratedSawEveryIndex(readings, waits[1..], k + 1);
      forall i | 0 <= i < |waits|
        ensures exists j :: from <= j < |readings| && StatusAt(readings[j], waits[i]) == FullyCalibrated
      {
        if i == 0 {
          assert StatusAt(readings[k], waits[0]) == FullyCalibrated;
        } else {
          assert waits[i] == waits[1..][i - 1];
        }
      }
    }
  }

  /** With the intended indices, finishing means the magnetometer was seen
      fully calibrated. */
  lemma IntendedWaitsSeeMagnetometer(readings: seq<Status>)
    requires Calibrated(readings, IntendedWaits, 0).Some?
    ensures exists j :: 0 <= j < |readings| && readings[j].mag == FullyCalibrated
  {
    CalibratedSawEveryIndex(readings, IntendedWaits, 0);
    assert IntendedWaits[2] == 3;
  }

  /** One `while` of `calibrate_sensor`: poll until the level at `index` is
      full. */
  method AwaitStatus(readings: seq<Status>, from: nat, index: StatusIndex) returns (r: Option<nat>)
    ensures r == Await(readings, from, index)
  {
    var k := from;
    while k < |readings| && StatusAt(readings[k], index) != FullyCalibrated
      invariant from <= k
      invariant Await(readings, from, index) == Await(readings, k, index)
      decreases |readings| - k
    {
      k := k + 1;
    }
    if k < |readings| {
      r := Some(k);
    } else {
      r := None;
    }
  }

  /** One wait of a chain: a failed wait fails the chain, a finished one
      hands the rest the next reading. */
  lemma CalibratedStep(readings: seq<Status>, waits: seq<StatusIndex>, from: nat)
    requires waits != []
    ensures Await(readings, from, waits[0]).None? ==> Calibrated(readings, waits, from).None?
    ensures Await(readings, from, waits[0]).Some? ==>
              Calibrated(readings, waits, from) == Calibrated(readings, waits[1..], Await(readings, from, waits[0]).value + 1)
  {
  }

  /** One wait followed by the rest: the position after it, from which the
      remaining waits go on, or None when the readings run out. */
  method AwaitNext(readings: seq<Status>, waits: seq<StatusIndex>, from: nat) returns (next: Option<nat>)
    requires waits != []
    ensures next.None? ==> Calibrated(readings, waits, from) == None
    ensures next.Some? ==> Calibrated(readings, waits, from) == Calibrated(readings, waits[1..], next.value)
  {
    CalibratedStep(readings, waits, from);
    var reached := AwaitStatus(readings, from, waits[0]);
    next := if reached.None? then None else Some(reached.value + 1);
  }

  /** The waits of `calibrate_sensor` in order over the readings: the
      position after the last one, or None when the readings run out. */
  method CalibrateSensor(readings: seq<Status>) returns (finished: Option<nat>)
    ensures finished == Calibrated(readings, AsWrittenWaits, 0)
  {
    var waits := AsWrittenWaits;
    finished := AwaitNext(readings, waits, 0);  // gyro
    if finished.None? {
      return;
    }
    waits := waits[1..];
    finished := AwaitNext(readings, waits, finished.value);  // accelerometer
    if finished.None? {
      return;
    }
    waits := waits[1..];
    finished := AwaitNext(readings, waits, finished.value);  // magnetometer, as written
    if finished.None? {
      return;
    }
    waits := waits[1..];
    finished := AwaitNext(readings, waits, finished.value);  // system
    assert waits[1..] == [];
  }

  /** The units strings that select Fahrenheit. */
  const FahrenheitUnits: set<string> := {"degrees Fahrenheit", "degrees F", "deg F", "deg. F"}

  /** The default units argument. */
  const DefaultUnits: string := "degrees celsius"

  /** The temperature in the requested units; anything but a Fahrenheit
      alias gives the chip's Celsius reading unchanged. */
  function Temperature(celsius: real, units: string): (t: real)
    ensures units !in FahrenheitUnits ==> t == celsius
    ensures units in FahrenheitUnits ==> (t - 32.0) * 5.0 / 9.0 == celsius
  {
    if units in FahrenheitUnits then celsius * 9.0 / 5.0 + 32.0 else celsius
  }

  /** Fahrenheit preserves order and fixes the usual landmarks. */
  lemma FahrenheitScale(c1: real, c2: real)
    ensures c1 <= c2 ==> Temperature(c1, "deg F") <= Temperature(c2, "deg F")
    ensures Temperature(0.0, "degrees F") == 32.0 && Temperature(100.0, "degrees F") == 212.0
    ensures Temperature(-40.0, "deg. F") == -40.0
  {
  }

  /** `temperature` is a property, so it is read without arguments: always
      the default units, which is Celsius. */
  function TemperatureProperty(celsius: real): (t: real)
    ensures t == celsius
  {
    Temperature(celsius, DefaultUnits)
  }

  /** A raw three-component reading, in the driver's order. */
  type Raw = (real, real, real)

  /** A reading in the robot's axes: the returned `{'x', 'y', 'z'}` dict. */
  datatype Axes = Axes(x: real, y: real, z: real)

  /** `accel` and `gyro`: the chip's first two components are the robot's
      y and x. */
  function SwapXY(raw: Raw): (a: Axes)
  {
    Axes(raw.1, raw.0, raw.2)
  }

  function Accel(raw: Raw): (a: Axes)
    ensures a == SwapXY(raw)
  {
    var (accelY, accelX, accelZ) := raw;
    Axes(accelX, accelY, accelZ)
  }

  function Gyro(raw: Raw): (a: Axes)
    ensures a == SwapXY(raw)
  {
    var (gyroY, gyroX, gyroZ) := raw;
    Axes(gyroX, gyroY, gyroZ)
  }

  /** `magnetic`: passed through in the chip's order. */
  function Magnetic(raw: Raw): (a: Axes)
    ensures (a.x, a.y, a.z) == raw
  {
    var (magX, magY, magZ) := raw;
    Axes(magX, magY, magZ)
  }

  /** `euler_angles`: the chip gives (yaw, roll, pitch); the robot's x is the
      roll, y the pitch and z the yaw. */
  function EulerAngles(raw: Raw): (a: Axes)
    ensures (a.z, a.x, a.y) == raw
  {
    var (yawZ, rollX, pitchY) := raw;
    Axes(rollX, pitchY, yawZ)
  }

  /** The raw tuple an accel or gyro reading came from. */
  function UnswapXY(a: Axes): Raw
  {
    (a.y, a.x, a.z)
  }

  /** The raw tuple an Euler reading came from. */
  function EulerRaw(a: Axes): Raw
  {
    (a.z, a.x, a.y)
  }

  function Components(a: Axes): multiset<real>
  {
    multiset{a.x, a.y, a.z}
  }

  function RawComponents(raw: Raw): multiset<real>
  {
    multiset{raw.0, raw.1, raw.2}
  }

  /** Every remap is a permutation of the components: it loses and invents
      nothing, and each can be undone. */
  lemma RemapsArePermutations(raw: Raw, a: Axes)
    ensures UnswapXY(Accel(raw)) == raw && Accel(UnswapXY(a)) == a
    ensures UnswapXY(Gyro(raw)) == raw && Gyro(UnswapXY(a)) == a
    ensures EulerRaw(EulerAngles(raw)) == raw && EulerAngles(EulerRaw(a)) == a
    ensures Components(Accel(raw)) == Components(Gyro(raw)) == Components(Magnetic(raw))
            == Components(EulerAngles(raw)) == RawComponents(raw)
  {
  }

  /** The robot's pitch is the chip's third Euler component, its roll the
      second and its yaw the first. */
  lemma EulerAxes(yaw: real, roll: real, pitch: real)
    ensures EulerAngles((yaw, roll, pitch)) == Axes(roll, pitch, yaw)
    ensures EulerAngles((yaw, roll, pitch)).y == pitch
  {
  }
}
