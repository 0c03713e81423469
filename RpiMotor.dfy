/** The Raspberry Pi motor wrapper of src/motor/rpi_motor.py: it checks
    both GPIO pins against the board's usable pins, then drives a gpiozero
    motor whose value it keeps clamped to [-1, 1]. The gpiozero motor is its
    `value` field; logging is left out. */
module RpiMotor {
  import opened Wrappers
  import opened Numeric

  /** A pin as the caller may give it: a BCM number or a "GPIOn" name. */
  datatype Pin = PinNumber(n: int) | PinName(name: string)

  /** The decimal digits of `n` (no leading zero). */
  function Decimal(n: nat): (s: string)
    ensures |s| >= 1 && (n >= 10 ==> s[0] != '0')
    ensures n < 10 ==> |s| == 1
    ensures 10 <= n < 100 ==> |s| == 2
    decreases n
  {
    if n < 10 then [('0' as int + n) as char]
    else Decimal(n / 10) + [('0' as int + n % 10) as char]
  }

  /** `RPI_GPIO_PINS`: the numbers 2 .. 27 and the names "GPIO2" .. "GPIO27". */
  const RpiGpioPins: set<Pin> :=
    (set n | 2 <= n < 28 :: PinNumber(n)) + (set n: nat | 2 <= n < 28 :: PinName("GPIO" + Decimal(n)))

  /** A number is a usable pin exactly when it is 2 .. 27. */
  lemma NumberedPins(n: int)
    ensures PinNumber(n) in RpiGpioPins <==> 2 <= n <= 27
  {
    if PinNumber(n) in RpiGpioPins {
      assert PinNumber(n) in (set m | 2 <= m < 28 :: PinNumber(m));
    }
  }

  /** The names are "GPIO" and a number 2 .. 27 written without a leading
      zero: "GPIO5" and "GPIO27" are usable, "GPIO05", "GPIO1", "GPIO28"
      and the bare number as a string are not. */
  lemma NamedPins()
    ensures PinName("GPIO5") in RpiGpioPins && PinName("GPIO27") in RpiGpioPins
    ensures PinName("GPIO05") !in RpiGpioPins
    ensures PinName("GPIO1") !in RpiGpioPins && PinName("GPIO28") !in RpiGpioPins
    ensures PinName("5") !in RpiGpioPins
  {
    assert Decimal(5) == "5";
    assert Decimal(27) == Decimal(2) + "7" == "27";
    assert "GPIO" + Decimal(5) == "GPIO5" && "GPIO" + Decimal(27) == "GPIO27";
    assert PinName("GPIO" + Decimal(5)) in (set n: nat | 2 <= n < 28 :: PinName("GPIO" + Decimal(n)));
    assert PinName("GPIO" + Decimal(27)) in (set n: nat | 2 <= n < 28 :: PinName("GPIO" + Decimal(n)));
    forall n: nat | 2 <= n < 28
      ensures "GPIO" + Decimal(n) != "GPIO05" && "GPIO" + Decimal(n) != "GPIO1"
      ensures "GPIO" + Decimal(n) != "GPIO28" && "GPIO" + Decimal(n) != "5"
    {
      NamesDiffer(n);
    }
  }

  lemma NamesDiffer(n: nat)
    requires 2 <= n < 28
    ensures "GPIO" + Decimal(n) != "GPIO05" && "GPIO" + Decimal(n) != "GPIO1"
    ensures "GPIO" + Decimal(n) != "GPIO28" && "GPIO" + Decimal(n) != "5"
  {
    var s := "GPIO" + Decimal(n);
    assert s[4..] == Decimal(n);
    if n >= 10 {
      assert Decimal(n) == [('0' as int + n / 10) as char, ('0' as int + n % 10) as char];
      assert "GPIO28"[4..] == "28";
      assert n / 10 == 2 ==> n % 10 != 8;
    } else {
      assert Decimal(n) == [('0' as int + n) as char];
    }
  }

  /** The constructor's check: both pins must be usable. */
  predicate PinsValid(forward: Pin, backward: Pin)
  {
    forward in RpiGpioPins && backward in RpiGpioPins
  }

  class RpiMotor {
    const forwardPin: Pin
    const backwardPin: Pin
    const pwm: bool
    /** The wrapped gpiozero motor's value. */
    var value: real

    /** The setter and `stop` keep the value in [-1, 1]. */
    predicate Valid()
      reads this
    {
      -1.0 <= value <= 1.0
    }

    /** The part of `__init__` after the pin check: value 0. */
    constructor (forward: Pin, backward: Pin, pwm: bool := true)
      requires PinsValid(forward, backward)
      ensures forwardPin == forward && backwardPin == backward && this.pwm == pwm && value == 0.0
      ensures Valid()
    {
      forwardPin, backwardPin, this.pwm := forward, backward, pwm;
      value := 0.0;
    }

    /** The `value` getter: the motor's value, in [-1, 1]. */
    function Value(): (v: real)
      requires Valid()
      reads this
      ensures -1.0 <= v <= 1.0
    {
      value
    }

    /** The `value` setter: the value clamped to [-1, 1]. */
    method SetValue(v: real)
      modifies this`value
      ensures Valid() && value == Clamp(v, -1.0, 1.0) && Value() == value
      ensures -1.0 <= value <= 1.0 && (-1.0 <= v <= 1.0 ==> value == v)
    {
      var velocity := Min(Max(v, -1.0), 1.0);
      value := velocity;
    }

    /** `stop`: value 0. */
    method Stop()
      modifies this`value
      ensures value == 0.0 && Valid()
    {
      value := 0.0;
    }
  }

  /** `RPI_Motor(...)`: raises ValueError (None here) unless both pins are
      usable; otherwise a motor standing still on those pins. */
  method NewRpiMotor(forward: Pin, backward: Pin, pwm: bool := true) returns (m: Option<RpiMotor>)
    ensures m.None? <==> !PinsValid(forward, backward)
    ensures m.Some? ==>
              && fresh(m.value) && m.value.value == 0.0 && m.value.Valid()
              && m.value.forwardPin == forward && m.value.backwardPin == backward
  {
    if forward !in RpiGpioPins || backward !in RpiGpioPins {
      return None;
    }
    var motor := new RpiMotor(forward, backward, pwm);
    return Some(motor);
  }
}
