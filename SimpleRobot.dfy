/** Manual driving of the two-wheeled robot (balance_bot/simple_robot.py).
    The BlueDot controller is polled at a fixed interval for a (forward,
    turn) pair, which is mixed into the left and right wheel values; a
    second entry point runs a list of timed steps. The clock readings and the
    controller's answers are inputs; events and sleeps are left out. The
    encoder read that ends each pass of the driving loop asks for an
    attribute the digital encoder does not have, so as written the loop
    stops with AttributeError after its first pass. */
module SimpleRobot {
  import opened Wrappers
  import opened Numeric

  /** Both wheels' motor values. */
  datatype Wheels = Wheels(left: real, right: real)

  /** What the controller answers when polled: (forward, right turn). */
  datatype Direction = Direction(forward: real, turn: real)

  /** Turns smaller than this are treated as no turn. */
  const DeadZone: real := 0.2

  /** The run length in seconds: 0 means (almost) forever. */
  function EffectiveDuration(duration: int): (d: int)
    ensures d != 0
    ensures duration != 0 ==> d == duration
    ensures duration == 0 ==> d == 1_000_000_000
  {
    if duration == 0 then 1_000_000_000 else duration
  }

  /** `max(min(x, 1), -1)`. */
  function Saturate(x: real): (r: real)
    ensures -1.0 <= r <= 1.0
    ensures -1.0 <= x <= 1.0 ==> r == x
    ensures x > 1.0 ==> r == 1.0
    ensures x < -1.0 ==> r == -1.0
  {
    Max(Min(x, 1.0), -1.0)
  }

  /** The steering mix: a dead zone on the turn, then forward plus turn on
      the left wheel and forward minus turn on the right, each saturated. */
  function Mix(forward: real, turn: real): (w: Wheels)
    ensures -1.0 <= w.left <= 1.0 && -1.0 <= w.right <= 1.0
    ensures -DeadZone < turn < DeadZone ==> w.left == w.right == Saturate(forward)
    ensures turn <= -DeadZone || DeadZone <= turn ==> w.left == Saturate(forward + turn) && w.right == Saturate(forward - turn)
  {
    var rightTurn := if (if turn < 0.0 then -turn else turn) < DeadZone then 0.0 else turn;
    Wheels(Saturate(forward + rightTurn), Saturate(forward - rightTurn))
  }

  /** Turning the other way swaps the wheels. */
  lemma MixMirrors(forward: real, turn: real)
    ensures Mix(forward, -turn) == Wheels(Mix(forward, turn).right, Mix(forward, turn).left)
  {
  }

  /** The wheel values for one polled direction: (0, 0) stops both wheels. */
  function Command(d: Direction): (w: Wheels)
    ensures d == Direction(0.0, 0.0) ==> w == Wheels(0.0, 0.0)
    ensures -1.0 <= w.left <= 1.0 && -1.0 <= w.right <= 1.0
  {
    if d == Direction(0.0, 0.0) then Wheels(0.0, 0.0)
    else Mix(d.forward, d.turn)
  }

  /** The special case for (0, 0) gives what the mix gives anyway. */
  lemma StopIsAMix(d: Direction)
    ensures Command(d) == Mix(d.forward, d.turn)
  {
    if d == Direction(0.0, 0.0) {
      assert Saturate(0.0) == 0.0;
    }
  }

  /** One pass of the driving loop: the wall clock in whole seconds and in
      milliseconds, and what the controller would answer if polled. */
  datatype Tick = Tick(seconds: int, millis: int, direction: Direction)

  /** The loop's state: the wheel values and the last poll's millisecond
      stamp. */
  datatype DriveState = DriveState(wheels: Wheels, lasttime: int)

  /** The poll gate: at least `interval` ms since the last poll. */
  predicate PollDue(s: DriveState, t: Tick, interval: int)
  {
    t.millis - s.lasttime >= interval
  }

  /** The loop's state after the passes in `ticks` that start before the
      duration has elapsed since `startTime`. */
  function Run(s: DriveState, ticks: seq<Tick>, startTime: int, duration: int, interval: int): DriveState
    decreases |ticks|
  {
    if ticks == [] || ticks[0].seconds - startTime >= duration then s
    else
      var t := ticks[0];
      var next := if PollDue(s, t, interval) then DriveState(Command(t.direction), t.millis) else s;
      Run(next, ticks[1..], startTime, duration, interval)
  }

  /** The wheels stay within [-1, 1] through any run that starts there: every
      value written is a command. */
  lemma {:induction false} RunKeepsWheelsInRange(s: DriveState, ticks: seq<Tick>, startTime: int, duration: int, interval: int)
    requires -1.0 <= s.wheels.left <= 1.0 && -1.0 <= s.wheels.right <= 1.0
    ensures var e := Run(s, ticks, startTime, duration, interval);
            -1.0 <= e.wheels.left <= 1.0 && -1.0 <= e.wheels.right <= 1.0
    decreases |ticks|
  {
    if ticks != [] && ticks[0].seconds - startTime < duration {
      var t := ticks[0];
      var next := if PollDue(s, t, interval) then DriveState(Command(t.direction), t.millis) else s;
      RunKeepsWheelsInRange(next, ticks[1..], startTime, duration, interval);
    }
  }

  /** When no pass polls (each comes before the interval has passed since
      the previous poll), the wheels keep their values. */
  lemma {:induction false} UnpolledRunKeepsWheels(s: DriveState, ticks: seq<Tick>, startTime: int, duration: int, interval: int)
    requires forall i :: 0 <= i < |ticks| ==> ticks[i].millis - s.lasttime < interval
    ensures Run(s, ticks, startTime, duration, interval) == s
    decreases |ticks|
  {
    if ticks != [] && ticks[0].seconds - startTime < duration {
      UnpolledRunKeepsWheels(s, ticks[1..], startTime, duration, interval);
    }
  }

  class SimpleRobot {
    var leftWheel: real
    var rightWheel: real

    constructor (leftWheel: real, rightWheel: real)
      ensures this.leftWheel == leftWheel && this.rightWheel == rightWheel
    {
      this.leftWheel := leftWheel;
      this.rightWheel := rightWheel;
    }

    /** One poll's answer applied to both wheels. */
    method SetFromDirection(direction: Direction)
      modifies this
      ensures Wheels(leftWheel, rightWheel) == Command(direction)
    {
      if direction == Direction(0.0, 0.0) {
        leftWheel := 0.0;
        rightWheel := 0.0;
      } else {
        var fwdVel := direction.forward;
        var rightTurn := direction.turn;
        if (if rightTurn < 0.0 then -rightTurn else rightTurn) < 0.2 {
          rightTurn := 0.0;
        }
        leftWheel := Max(Min(fwdVel + rightTurn, 1.0), -1.0);
        rightWheel := Max(Min(fwdVel - rightTurn, 1.0), -1.0);
      }
    }

    /** `drive_two_wheel_robot_by_bd` as written: run for `duration` seconds
        (0: for ever) from `startTime`, polling the controller every
        `interval` ms; the passes of the loop are `ticks`. Every pass ends by
        reading the left encoder's `distance`, which the digital encoder does
        not have, so the first pass that starts is also the last: after its
        poll it raises AttributeError (`raised`). */
    method DriveByBlueDot(interval: int, duration: int, startTime: int, ticks: seq<Tick>) returns (raised: bool)
      modifies this
      ensures raised <==> ticks != [] && ticks[0].seconds - startTime < EffectiveDuration(duration)
      ensures !raised ==> leftWheel == old(leftWheel) && rightWheel == old(rightWheel)
      ensures raised && PollDue(DriveState(Wheels(old(leftWheel), old(rightWheel)), 0), ticks[0], interval) ==>
                Wheels(leftWheel, rightWheel) == Command(ticks[0].direction)
      ensures raised && !PollDue(DriveState(Wheels(old(leftWheel), old(rightWheel)), 0), ticks[0], interval) ==>
                leftWheel == old(leftWheel) && rightWheel == old(rightWheel)
    {
      var limit := duration;
      if limit == 0 {
        limit := 1_000_000_000;
      }
      var lasttime := 0;
      if ticks == [] || ticks[0].seconds - startTime >= limit {
        return false;
      }
      var t := ticks[0];
      if t.millis - lasttime >= interval {
        lasttime := t.millis;
        SetFromDirection(t.direction);
      }
      // `self._enc_wheel_left.distance` raises here.
      return true;
    }

    /** The driving loop as evidently intended, with an encoder that answers
        `distance`: every pass that starts before the duration has elapsed
        polls when due, and the wheels end as `Run` describes. */
    method IntendedDriveByBlueDot(interval: int, duration: int, startTime: int, ticks: seq<Tick>)
      modifies this
      ensures var e := Run(DriveState(Wheels(old(leftWheel), old(rightWheel)), 0), ticks, startTime,
                           EffectiveDuration(duration), interval);
              leftWheel == e.wheels.left && rightWheel == e.wheels.right
    {
      var limit := duration;
      if limit == 0 {
        limit := 1_000_000_000;
      }
      var lasttime := 0;
      var k := 0;
      ghost var goal := Run(DriveState(Wheels(leftWheel, rightWheel), 0), ticks, startTime, limit, interval);
      while k < |ticks| && ticks[k].seconds - startTime < limit
        invariant 0 <= k <= |ticks|
        invariant Run(DriveState(Wheels(leftWheel, rightWheel), lasttime), ticks[k..], startTime, limit, interval) == goal
      {
        assert ticks[k..][1..] == ticks[k + 1..];
        var t := ticks[k];
        if t.millis - lasttime >= interval {
          lasttime := t.millis;
          SetFromDirection(t.direction);
        }
        k := k + 1;
      }
    }
  }

  /** The values a program step may hold: Python ints, floats, tuples, or
      anything else. */
  datatype PyValue = PyInt(i: int) | PyFloat(f: real) | PyTuple(items: seq<PyValue>) | PyOther

  /** The step filter of `drive_program`: a 3-tuple whose elements 0 and 1
      are ints. Element 1 is checked twice and element 2 never. */
  predicate AcceptedStep(step: PyValue)
  {
    step.PyTuple? && |step.items| == 3 && step.items[0].PyInt? && step.items[1].PyInt?
  }

  /** The outcome of `drive_program`: it skips rejected steps, and the first
      accepted one raises NameError on the undefined `fwd_rws`, so the
      program either finds no step to run or stops at that index. */
  method DriveProgram(steps: seq<PyValue>) returns (nameErrorAt: Option<nat>)
    ensures nameErrorAt.None? <==> forall i :: 0 <= i < |steps| ==> !AcceptedStep(steps[i])
    ensures nameErrorAt.Some? ==>
              && nameErrorAt.value < |steps| && AcceptedStep(steps[nameErrorAt.value])
              && forall i :: 0 <= i < nameErrorAt.value ==> !AcceptedStep(steps[i])
  {
    var k := 0;
    while k < |steps|
      invariant 0 <= k <= |steps|
      invariant forall i :: 0 <= i < k ==> !AcceptedStep(steps[i])
    {
      var step := steps[k];
      if !step.PyTuple? || |step.items| != 3 || !step.items[0].PyInt? || !step.items[1].PyInt? || !step.items[1].PyInt? {
        k := k + 1;
        continue;
      }
      return Some(k);
    }
    return None;
  }

  /** A step whose third element is not a number still passes the filter. */
  lemma ThirdElementUnchecked()
    ensures AcceptedStep(PyTuple([PyInt(1), PyInt(0), PyOther]))
    ensures !AcceptedStep(PyTuple([PyInt(1), PyFloat(0.5), PyInt(0)]))
  {
  }
}
