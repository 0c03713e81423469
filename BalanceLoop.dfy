/** The balance-control loop of tests/function/test_robot_balance.py. Every
    control interval it reads the pitch from the orientation sensor (reusing
    the previous reading when the bus fails), computes a PID-style output and
    writes it, clamped per wheel, to both wheel motors; every parameter
    interval it reloads the configuration. As written, only the first reading
    is wrapped so that its pitch can be read as an attribute: the first good
    read of the loop ends it with AttributeError, and only failed reads keep
    it going. The clock, the sensor readings and the reloaded configuration
    are inputs; the motors and the power relay are observed through the
    actions issued to them. */
module BalanceLoop {
  import opened Wrappers
  import opened Numeric

  /** The sensor's Euler angles: x roll, y pitch, z yaw. */
  datatype Euler = Euler(x: real, y: real, z: real)

  /** The configuration entries the loop reads. */
  datatype Config = Config(
    kProportional: real, kIntegral: real, kDerivative: real,
    leftMin: real, leftMax: real, rightMin: real, rightMax: real,
    controlUpdate: int, paramsUpdate: int)

  /** What the loop asks of the wheel motors and the motor power relay. */
  datatype DeviceAction =
    | SetLeft(value: real) | SetRight(value: real)
    | CloseLeft | CloseRight | RelayOff | CloseRelay

  /** The setpoint pitch: stand still. */
  const PitchSetpoint: real := 0.0

  /** `TIME_S()` at the instant `TIME_MS()` reads `ms`: whole seconds. */
  function Seconds(ms: int): (s: int)
    ensures ms >= 0 ==> 0 <= s <= ms
    ensures s * 1000 <= ms < s * 1000 + 1000
  {
    ms / 1000
  }

  /** The "integral" rule. The term is replaced, never accumulated: it
      becomes `kIntegral * error` unless the previous term is non-zero and
      the error is exactly that term (ratio 1), in which case it becomes 0. */
  function IntegralTerm(integral: real, error: real, kIntegral: real): (r: real)
    ensures r == kIntegral * error || r == 0.0
    ensures integral != 0.0 && error == integral ==> r == 0.0
    ensures integral == 0.0 || error != integral ==> r == kIntegral * error
  {
    if integral == 0.0 || error / integral > 1.0 then kIntegral * error
    else if error / integral < 1.0 then kIntegral * error
    else 0.0
  }

  /** Two different histories give the same term for the same error unless
      one of them equals that error: nothing is summed up over ticks. */
  lemma IntegralIgnoresHistory(a: real, b: real, error: real, kIntegral: real)
    requires a != error && b != error
    ensures IntegralTerm(a, error, kIntegral) == IntegralTerm(b, error, kIntegral) == kIntegral * error
  {
  }

  /** The unclamped motor output: proportional + integral + derivative. */
  function MotorOutput(cfg: Config, pitch: real, pitchLast: real, integral: real): (r: real)
  {
    cfg.kProportional * (pitch - PitchSetpoint) + integral + cfg.kDerivative * (pitch - pitchLast)
  }

  /** With no proportional or derivative gain, the output is the integral
      term alone; with a level robot and no change in pitch it is 0. */
  lemma MotorOutputTerms(cfg: Config, pitch: real, pitchLast: real, integral: real)
    ensures cfg.kProportional == 0.0 && cfg.kDerivative == 0.0 ==> MotorOutput(cfg, pitch, pitchLast, integral) == integral
    ensures pitch == 0.0 && pitchLast == 0.0 ==> MotorOutput(cfg, pitch, pitchLast, integral) == integral
  {
  }

  /** The control gate as written: elapsed milliseconds since the stored
      stamp reach the interval. */
  predicate ControlDue(nowMs: int, lasttimeControl: int, cfg: Config)
  {
    nowMs - lasttimeControl >= cfg.controlUpdate
  }

  /** What the loop holds as its latest reading. The first reading is
      wrapped in a `Box`, whose `.y` gives the pitch; every later good read
      is the plain dictionary `euler_angles` returns, which has no
      attribute `y`. */
  datatype Held = Boxed(angles: Euler) | Plain(angles: Euler)

  /** `temp_euler.y`: the pitch of a boxed reading, and the AttributeError
      (None) of a plain dictionary. */
  function PitchOf(h: Held): (p: Option<real>)
    ensures p.Some? <==> h.Boxed?
    ensures p.Some? ==> p.value == h.angles.y
  {
    match h
    case Boxed(e) => Some(e.y)
    case Plain(_) => None
  }

  class BalanceLoop {
    var cfg: Config
    /** The latest reading, or the previous one when the bus failed. */
    var eulerReading: Held
    var pitchLast: real
    var integralTerm: real
    /** Stored in milliseconds at start, in seconds after every tick. */
    var lasttimeControl: int
    var lasttimeParamsUpdated: int
    var goodEulerAngles: nat
    var badEulerAngles: nat
    /** Every action issued to the motors and the relay, in order. */
    var devices: seq<DeviceAction>

    /** The state right before the loop: the boxed first reading's pitch is
        the previous pitch, the integral term is 0, both stamps are taken
        now. */
    constructor (cfg: Config, initial: Euler, nowMs: int)
      ensures this.cfg == cfg && eulerReading == Boxed(initial) && pitchLast == initial.y
      ensures integralTerm == 0.0 && lasttimeControl == nowMs && lasttimeParamsUpdated == Seconds(nowMs)
      ensures goodEulerAngles == 0 && badEulerAngles == 0 && devices == []
    {
      this.cfg := cfg;
      eulerReading := Boxed(initial);
      pitchLast := initial.y;
      integralTerm := 0.0;
      lasttimeControl := nowMs;
      lasttimeParamsUpdated := Seconds(nowMs);
      goodEulerAngles, badEulerAngles := 0, 0;
      devices := [];
    }

    /** The steering half of a tick at pitch `pitch`: the new integral term,
        the PID output clamped per wheel and written to both wheels, and the
        pitch kept for the next derivative. */
    method Steer(pitch: real)
      modifies this`integralTerm, this`pitchLast, this`devices
      ensures pitchLast == pitch
      ensures integralTerm == IntegralTerm(old(integralTerm), pitch - PitchSetpoint, cfg.kIntegral)
      ensures var output := MotorOutput(cfg, pitch, old(pitchLast), integralTerm);
              devices == old(devices)
                         + [SetLeft(Clamp(output, cfg.leftMin, cfg.leftMax)),
                            SetRight(Clamp(output, cfg.rightMin, cfg.rightMax))]
    {
      var foreAftError := pitch - PitchSetpoint;
      if integralTerm == 0.0 || foreAftError / integralTerm > 1.0 {
        integralTerm := cfg.kIntegral * foreAftError;
      } else if foreAftError / integralTerm < 1.0 {
        integralTerm := cfg.kIntegral * foreAftError;
      } else {
        integralTerm := 0.0;
      }
      var derivativeTerm := cfg.kDerivative * (pitch - pitchLast);
      var proportionalTerm := cfg.kProportional * foreAftError;
      var motorOutput := proportionalTerm + integralTerm + derivativeTerm;
      assert motorOutput == MotorOutput(cfg, pitch, pitchLast, integralTerm);
      var left := Max(motorOutput, cfg.leftMin);
      left := Min(left, cfg.leftMax);
      var right := Max(motorOutput, cfg.rightMin);
      right := Min(right, cfg.rightMax);
      devices := devices + [SetLeft(left), SetRight(right)];
      pitchLast := pitch;
    }

    /** One control tick at clock `nowMs` as written: `reading` is the
        sensor's answer, `None` when it raised OSError. A good read is kept
        as the plain dictionary, so reading its pitch raises AttributeError
        (`raised`) before anything is steered; a failed read keeps the
        previous reading and steers with it. */
    method ControlTick(nowMs: int, reading: Option<Euler>) returns (raised: bool)
      modifies this
      ensures cfg == old(cfg) && lasttimeParamsUpdated == old(lasttimeParamsUpdated)
      ensures lasttimeControl == Seconds(nowMs)
      ensures eulerReading == if reading.Some? then Plain(reading.value) else old(eulerReading)
      ensures reading.Some? ==> goodEulerAngles == old(goodEulerAngles) + 1 && badEulerAngles == old(badEulerAngles)
      ensures reading.None? ==> badEulerAngles == old(badEulerAngles) + 1 && goodEulerAngles == old(goodEulerAngles)
      ensures raised <==> reading.Some? || old(eulerReading).Plain?
      ensures raised ==> integralTerm == old(integralTerm) && pitchLast == old(pitchLast) && devices == old(devices)
      ensures !raised ==>
                && pitchLast == eulerReading.angles.y
                && integralTerm == IntegralTerm(old(integralTerm), eulerReading.angles.y - PitchSetpoint, cfg.kIntegral)
                && var output := MotorOutput(cfg, eulerReading.angles.y, old(pitchLast), integralTerm);
                   devices == old(devices)
                              + [SetLeft(Clamp(output, cfg.leftMin, cfg.leftMax)),
                                 SetRight(Clamp(output, cfg.rightMin, cfg.rightMax))]
    {
      lasttimeControl := Seconds(nowMs);
      var previous := eulerReading;
      match reading {
        case Some(e) =>
          eulerReading := Plain(e);
          goodEulerAngles := goodEulerAngles + 1;
        case None =>
          eulerReading := previous;
          badEulerAngles := badEulerAngles + 1;
      }
      var pitch := PitchOf(eulerReading);
      if pitch.None? {
        return true;
      }
      Steer(pitch.value);
      return false;
    }

    /** The tick as evidently intended, with every good read wrapped in a
        `Box` like the first: the held reading stays boxed and every tick
        steers, with the new reading or, after a failed read, the previous
        one. */
    method IntendedControlTick(nowMs: int, reading: Option<Euler>)
      requires eulerReading.Boxed?
      modifies this
      ensures cfg == old(cfg) && lasttimeParamsUpdated == old(lasttimeParamsUpdated)
      ensures lasttimeControl == Seconds(nowMs)
      ensures eulerReading.Boxed?
      ensures eulerReading.angles == if reading.Some? then reading.value else old(eulerReading).angles
      ensures reading.Some? ==> goodEulerAngles == old(goodEulerAngles) + 1 && badEulerAngles == old(badEulerAngles)
      ensures reading.None? ==> badEulerAngles == old(badEulerAngles) + 1 && goodEulerAngles == old(goodEulerAngles)
      ensures pitchLast == eulerReading.angles.y
      ensures integralTerm == IntegralTerm(old(integralTerm), eulerReading.angles.y - PitchSetpoint, cfg.kIntegral)
      ensures var output := MotorOutput(cfg, eulerReading.angles.y, old(pitchLast), integralTerm);
              devices == old(devices)
                         + [SetLeft(Clamp(output, cfg.leftMin, cfg.leftMax)),
                            SetRight(Clamp(output, cfg.rightMin, cfg.rightMax))]
    {
      lasttimeControl := Seconds(nowMs);
      match reading {
        case Some(e) =>
          eulerReading := Boxed(e);
          goodEulerAngles := goodEulerAngles + 1;
        case None =>
          badEulerAngles := badEulerAngles + 1;
      }
      Steer(eulerReading.angles.y);
    }

    /** One pass of the loop body at clock `nowMs`: a control tick when due,
        then a configuration reload (to `reloaded`) when due. An
        AttributeError from the tick (`raised`) leaves the loop and the test
        at once, skipping the reload and the shutdown. */
    method Iteration(nowMs: int, reading: Option<Euler>, reloaded: Config) returns (raised: bool)
      modifies this
      ensures !old(ControlDue(nowMs, lasttimeControl, cfg)) ==>
                && !raised
                && lasttimeControl == old(lasttimeControl) && devices == old(devices)
                && eulerReading == old(eulerReading)
                && goodEulerAngles == old(goodEulerAngles) && badEulerAngles == old(badEulerAngles)
                && integralTerm == old(integralTerm) && pitchLast == old(pitchLast)
      ensures old(ControlDue(nowMs, lasttimeControl, cfg)) ==>
                && lasttimeControl == Seconds(nowMs)
                && eulerReading == (if reading.Some? then Plain(reading.value) else old(eulerReading))
                && (reading.Some? ==> goodEulerAngles == old(goodEulerAngles) + 1 && badEulerAngles == old(badEulerAngles))
                && (reading.None? ==> badEulerAngles == old(badEulerAngles) + 1 && goodEulerAngles == old(goodEulerAngles))
                && (raised <==> reading.Some? || old(eulerReading).Plain?)
      ensures raised ==>
                && integralTerm == old(integralTerm) && pitchLast == old(pitchLast) && devices == old(devices)
                && cfg == old(cfg) && lasttimeParamsUpdated == old(lasttimeParamsUpdated)
      ensures old(ControlDue(nowMs, lasttimeControl, cfg)) && !raised ==>
                && pitchLast == eulerReading.angles.y
                && integralTerm == IntegralTerm(old(integralTerm), eulerReading.angles.y - PitchSetpoint, old(cfg).kIntegral)
                && var output := MotorOutput(old(cfg), eulerReading.angles.y, old(pitchLast), integralTerm);
                   devices == old(devices)
                              + [SetLeft(Clamp(output, old(cfg).leftMin, old(cfg).leftMax)),
                                 SetRight(Clamp(output, old(cfg).rightMin, old(cfg).rightMax))]
      ensures !raised && Seconds(nowMs) - old(lasttimeParamsUpdated) >= old(cfg).paramsUpdate ==>
                cfg == reloaded && lasttimeParamsUpdated == Seconds(nowMs)
      ensures !raised && Seconds(nowMs) - old(lasttimeParamsUpdated) < old(cfg).paramsUpdate ==>
                cfg == old(cfg) && lasttimeParamsUpdated == old(lasttimeParamsUpdated)
    {
      raised := false;
      if nowMs - lasttimeControl >= cfg.controlUpdate {
        raised := ControlTick(nowMs, reading);
        if raised {
          return;
        }
      }
      if Seconds(nowMs) - lasttimeParamsUpdated >= cfg.paramsUpdate {
        lasttimeParamsUpdated := Seconds(nowMs);
        cfg := reloaded;
      }
    }

    /** Leaving the loop: both motors to 0, then both closed, then the relay
        off and closed. */
    method Shutdown()
      modifies this`devices
      ensures devices == old(devices) + [SetLeft(0.0), SetRight(0.0), CloseLeft, CloseRight, RelayOff, CloseRelay]
    {
      devices := devices + [SetLeft(0.0), SetRight(0.0)];
      devices := devices + [CloseLeft, CloseRight];
      devices := devices + [RelayOff, CloseRelay];
    }
  }

  /** Each wheel's command lies in that wheel's range whenever the range is
      non-empty, and is the unclamped output when that output is in range. */
  lemma WheelCommandsInRange(cfg: Config, output: real)
    requires cfg.leftMin <= cfg.leftMax && cfg.rightMin <= cfg.rightMax
    ensures cfg.leftMin <= Clamp(output, cfg.leftMin, cfg.leftMax) <= cfg.leftMax
    ensures cfg.rightMin <= Clamp(output, cfg.rightMin, cfg.rightMax) <= cfg.rightMax
    ensures cfg.leftMin <= output <= cfg.leftMax ==> Clamp(output, cfg.leftMin, cfg.leftMax) == output
  {
  }

  /** As written: after a tick the stamp is in seconds while the gate
      subtracts it from milliseconds, so the gate opens again at once. With a
      100 ms interval, a check in the very millisecond of the previous tick
      (epoch 1.7e12 ms) already passes. */
  lemma SecondsStampKeepsGateOpen(cfg: Config)
    requires cfg.controlUpdate == 100
    ensures ControlDue(1_700_000_000_000, Seconds(1_700_000_000_000), cfg)
  {
  }

  /** As written, for every clock past twice the interval: the next check
      after a tick is due no matter how little time has passed. */
  lemma GateAlwaysOpenAfterTick(cfg: Config, tickMs: int, nowMs: int)
    requires 0 <= cfg.controlUpdate && 2 * cfg.controlUpdate <= tickMs <= nowMs
    ensures ControlDue(nowMs, Seconds(tickMs), cfg)
  {
  }

  /** The clock readings, among the passes' readings `clock`, at which the
      loop runs a control tick, starting from the stamp `stamp`: a reading
      ticks when the gate is open, and the stamp then becomes `Seconds` of
      it as written, or the reading itself with `msStamp`, as evidently
      intended. */
  function TickTimes(clock: seq<int>, stamp: int, cfg: Config, msStamp: bool): seq<int>
    decreases |clock|
  {
    if clock == [] then []
    else if ControlDue(clock[0], stamp, cfg) then
      [clock[0]] + TickTimes(clock[1..], if msStamp then clock[0] else Seconds(clock[0]), cfg, msStamp)
    else TickTimes(clock[1..], stamp, cfg, msStamp)
  }

  /** As written, once a tick has happened past twice the interval, every
      later pass ticks again: the gate never holds a pass back. */
  lemma {:induction false} AsWrittenTicksEveryPass(clock: seq<int>, tickMs: int, cfg: Config)
    requires 0 <= cfg.controlUpdate && 2 * cfg.controlUpdate <= tickMs
    requires forall i :: 0 <= i < |clock| ==> tickMs <= clock[i]
    requires forall i, j :: 0 <= i <= j < |clock| ==> clock[i] <= clock[j]
    ensures TickTimes(clock, Seconds(tickMs), cfg, false) == clock
    decreases |clock|
  {
    if clock != [] {
      GateAlwaysOpenAfterTick(cfg, tickMs, clock[0]);
      AsWrittenTicksEveryPass(clock[1..], clock[0], cfg);
    }
  }

  /** With the stamp kept in milliseconds, the first tick comes at least
      the interval after the starting stamp and consecutive ticks are at
      least the interval apart, whatever the clock readings. */
  lemma {:induction false} IntendedTicksSpaced(clock: seq<int>, stamp: int, cfg: Config)
    ensures var t := TickTimes(clock, stamp, cfg, true);
            && (|t| > 0 ==> t[0] >= stamp + cfg.controlUpdate)
            && forall i :: 0 <= i < |t| - 1 ==> t[i + 1] - t[i] >= cfg.controlUpdate
    decreases |clock|
  {
    if clock != [] {
      if ControlDue(clock[0], stamp, cfg) {
        IntendedTicksSpaced(clock[1..], clock[0], cfg);
        var rest := TickTimes(clock[1..], clock[0], cfg, true);
        var t := TickTimes(clock, stamp, cfg, true);
        assert t == [clock[0]] + rest;
        forall i | 0 <= i < |t| - 1
          ensures t[i + 1] - t[i] >= cfg.controlUpdate
        {
          if i > 0 {
            assert t[i] == rest[i - 1] && t[i + 1] == rest[i];
          }
        }
      } else {
        IntendedTicksSpaced(clock[1..], stamp, cfg);
      }
    }
  }
}
