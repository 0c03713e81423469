/** The archived motor wrapper of Raspberry_Pi/archive/rpi_motor.py. It
    ignores the pins it is given and always drives the motor on pins 5 and
    6; the gpiozero motor is its `value` field. */
module ArchiveRpiMotor {
  import opened Numeric

  /** The pins the constructor hard-codes. */
  const ForwardPin: nat := 5
  const BackwardPin: nat := 6
  /** `move`'s default velocity. */
  const DefaultVelocity: real := 0.1

  class RpiMotor {
    const forwardPin: nat
    const backwardPin: nat
    var value: real

    /** The pin arguments are accepted and not used. */
    constructor (forwardLine: int, rearwardLine: int)
      ensures forwardPin == ForwardPin && backwardPin == BackwardPin && value == 0.0
    {
      forwardPin, backwardPin := ForwardPin, BackwardPin;
      value := 0.0;
    }

    /** `move`: the velocity clamped to [-1, 1]. */
    method Move(velocity: real := DefaultVelocity)
      modifies this`value
      ensures value == Clamp(velocity, -1.0, 1.0)
      ensures -1.0 <= value <= 1.0 && (-1.0 <= velocity <= 1.0 ==> value == velocity)
    {
      var v := Min(Max(velocity, -1.0), 1.0);
      value := v;
    }

    /** `stop`: value 0. */
    method Stop()
      modifies this`value
      ensures value == 0.0
    {
      value := 0.0;
    }

    /** `max_speed`: full speed forward. */
    method MaxSpeed()
      modifies this`value
      ensures value == 1.0
    {
      value := 1.0;
    }

    /** `current_speed`: the stored value; nothing changes. */
    method CurrentSpeed() returns (speed: real)
      ensures speed == value
    {
      speed := value;
    }
  }

  /** A move with the default velocity runs the motor at 0.1. */
  method DefaultMoveIsSlow(m: RpiMotor) returns (speed: real)
    modifies m
    ensures speed == DefaultVelocity && m.value == DefaultVelocity
  {
    m.Move();
    speed := m.CurrentSpeed();
  }
}
