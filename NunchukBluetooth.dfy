/** The MakeCode port of the Nunchuk reader (MicroBit/Nunchuck_MB_Bluetooth.js)
    and its display loop: each pass reads the Nunchuk and shows the joystick
    direction and the buttons on the micro:bit's 5 x 5 LEDs. The I2C transfer
    is an input (the six raw bytes of each read); the LEDs are a set of lit
    cells. */
module NunchukBluetooth {
  import N = Nunchuk

  /** The expression `read_wii_chuk` applies to each byte; it decodes as
      the MicroPython reader does. */
  function DecodeByte(b: bv8): (v: int)
    ensures 0x17 <= v <= 0x17 + 0xFF
    ensures v == N.Decode(b)
  {
    0x17 + (0x17 ^ b) as int
  }

  /** `read_wii_chuk`: the six bytes decoded one by one. */
  function ReadWiiChuk(buf: seq<bv8>): (data: seq<int>)
    requires |buf| == 6
    ensures |data| == 6
  {
    [DecodeByte(buf[0]), DecodeByte(buf[1]), DecodeByte(buf[2]),
     DecodeByte(buf[3]), DecodeByte(buf[4]), DecodeByte(buf[5])]
  }

  /** `readall_wii_chuk`: joystick and accelerometer in [23, 278], C
      pressed when the second binary digit of the decoded byte 5 is 0, Z when
      that byte is even. */
  function ReadallWiiChuk(buf: seq<bv8>): (r: N.ChuckData)
    requires |buf| == 6
    ensures 0x17 <= r.joyX <= 0x17 + 0xFF && 0x17 <= r.joyY <= 0x17 + 0xFF
    ensures 0x17 <= r.accX <= 0x17 + 0xFF && 0x17 <= r.accY <= 0x17 + 0xFF && 0x17 <= r.accZ <= 0x17 + 0xFF
    ensures r.c <==> (N.Decode(buf[5]) / 2) % 2 == 0
    ensures r.z <==> N.Decode(buf[5]) % 2 == 0
  {
    var data := ReadWiiChuk(buf);
    N.ButtonBits(data[5]);
    var butc := (data[5] as bv16) & 0x02;
    var butz := (data[5] as bv16) & 0x01;
    N.ChuckData(data[0], data[1], data[2], data[3], data[4], butc == 0, butz == 0)
  }

  /** The port decodes exactly as the MicroPython reader does. */
  lemma SameAsMicroPython(buf: seq<bv8>)
    requires |buf| == 6
    ensures ReadWiiChuk(buf) == N.Read(buf)
  {
    var data, expected := ReadWiiChuk(buf), N.Read(buf);
    assert data[0] == expected[0] && data[1] == expected[1] && data[2] == expected[2];
    assert data[3] == expected[3] && data[4] == expected[4] && data[5] == expected[5];
  }

  /** And so reports the same joystick, accelerometer and buttons. */
  lemma SameReadAll(buf: seq<bv8>)
    requires |buf| == 6
    ensures ReadallWiiChuk(buf) == N.ReadAll(buf)
  {
    SameAsMicroPython(buf);
  }

  /** The getters left active: `button_c`, `button_z`, `joystick_x`,
      `joystick_y` and the three `accelerometer_*`, each reading afresh. The
      buttons follow the bits of the decoded byte 5; every number lies in
      [23, 278] and gives back the raw byte it was decoded from. */
  function ButtonC(buf: seq<bv8>): (pressed: bool)
    requires |buf| == 6
    ensures pressed <==> (N.Decode(buf[5]) / 2) % 2 == 0
  {
    var data := ReadWiiChuk(buf);
    N.ButtonBits(data[5]);
    (data[5] as bv16) & 0x02 == 0
  }

  function ButtonZ(buf: seq<bv8>): (pressed: bool)
    requires |buf| == 6
    ensures pressed <==> N.Decode(buf[5]) % 2 == 0
  {
    var data := ReadWiiChuk(buf);
    N.ButtonBits(data[5]);
    (data[5] as bv16) & 0x01 == 0
  }

  function JoystickX(buf: seq<bv8>): (v: int)
    requires |buf| == 6
    ensures 0x17 <= v <= 0x17 + 0xFF && N.Encode(v) == buf[0]
  {
    N.EncodeDecode(buf[0]);
    ReadWiiChuk(buf)[0]
  }

  function JoystickY(buf: seq<bv8>): (v: int)
    requires |buf| == 6
    ensures 0x17 <= v <= 0x17 + 0xFF && N.Encode(v) == buf[1]
  {
    N.EncodeDecode(buf[1]);
    ReadWiiChuk(buf)[1]
  }

  function AccelerometerX(buf: seq<bv8>): (v: int)
    requires |buf| == 6
    ensures 0x17 <= v <= 0x17 + 0xFF && N.Encode(v) == buf[2]
  {
    N.EncodeDecode(buf[2]);
    ReadWiiChuk(buf)[2]
  }

  function AccelerometerY(buf: seq<bv8>): (v: int)
    requires |buf| == 6
    ensures 0x17 <= v <= 0x17 + 0xFF && N.Encode(v) == buf[3]
  {
    N.EncodeDecode(buf[3]);
    ReadWiiChuk(buf)[3]
  }

  function AccelerometerZ(buf: seq<bv8>): (v: int)
    requires |buf| == 6
    ensures 0x17 <= v <= 0x17 + 0xFF && N.Encode(v) == buf[4]
  {
    N.EncodeDecode(buf[4]);
    ReadWiiChuk(buf)[4]
  }

  /** On the same raw bytes each getter reports its part of
      `readall_wii_chuk`, and so of the MicroPython `readall`. */
  lemma GettersAgreeWithReadAll(buf: seq<bv8>)
    requires |buf| == 6
    ensures var r := N.ReadAll(buf);
            && ButtonC(buf) == r.c && ButtonZ(buf) == r.z
            && JoystickX(buf) == r.joyX && JoystickY(buf) == r.joyY
            && AccelerometerX(buf) == r.accX && AccelerometerY(buf) == r.accY && AccelerometerZ(buf) == r.accZ
  {
    SameAsMicroPython(buf);
  }

  /** An LED by column and row. */
  datatype Cell = Cell(x: int, y: int)

  /** The LEDs the loop drives: left and right for the joystick's x, bottom
      and top for its y, and one per button. */
  const Left := Cell(0, 2)
  const Right := Cell(4, 2)
  const Bottom := Cell(2, 4)
  const Top := Cell(2, 0)
  const CLed := Cell(1, 2)
  const ZLed := Cell(3, 2)

  /** Joystick values below this light the low-side LED, above `High` the
      high-side one. */
  const Low := 50
  const High := 200

  /** The joystick's x: the left LED below `Low`, the right one above
      `High`, neither in between. */
  function ShowX(lit: set<Cell>, joyX: int): set<Cell>
  {
    if joyX < Low then lit + {Left} - {Right}
    else if joyX > High then lit - {Left} + {Right}
    else lit - {Left, Right}
  }

  /** The joystick's y: the bottom LED below `Low`, the top one above
      `High`, neither in between. */
  function ShowY(lit: set<Cell>, joyY: int): set<Cell>
  {
    if joyY < Low then lit - {Top} + {Bottom}
    else if joyY > High then lit + {Top} - {Bottom}
    else lit - {Top, Bottom}
  }

  /** A button's LED: lit exactly when the button is pressed. */
  function ShowButton(lit: set<Cell>, led: Cell, pressed: bool): set<Cell>
  {
    if pressed then lit + {led} else lit - {led}
  }

  /** The lit LEDs after one pass of the loop over reading `r`. */
  function Shown(lit: set<Cell>, r: N.ChuckData): (next: set<Cell>)
    ensures Left in next <==> r.joyX < Low
    ensures Right in next <==> r.joyX > High
    ensures Bottom in next <==> r.joyY < Low
    ensures Top in next <==> r.joyY > High
    ensures CLed in next <==> r.c
    ensures ZLed in next <==> r.z
    ensures forall p :: p !in {Left, Right, Bottom, Top, CLed, ZLed} ==> (p in next <==> p in lit)
  {
    ShowButton(ShowButton(ShowY(ShowX(lit, r.joyX), r.joyY), CLed, r.c), ZLed, r.z)
  }

  /** After a pass at most one LED of each joystick axis is lit, and both
      are dark when the stick is near the middle. */
  lemma AtMostOneLedPerAxis(lit: set<Cell>, buf: seq<bv8>)
    requires |buf| == 6
    ensures var next := Shown(lit, ReadallWiiChuk(buf));
            && !(Left in next && Right in next) && !(Bottom in next && Top in next)
    ensures var r := ReadallWiiChuk(buf);
            Low <= r.joyX <= High ==> Left !in Shown(lit, r) && Right !in Shown(lit, r)
  {
  }

  /** Each pass shows the reading and forgets the previous one: two passes
      over the same bytes light what one does. */
  lemma ShownIdempotent(lit: set<Cell>, r: N.ChuckData)
    ensures Shown(Shown(lit, r), r) == Shown(lit, r)
  {
  }

  /** The micro:bit's display: the set of lit LEDs. */
  class Display {
    var lit: set<Cell>

    constructor ()
      ensures lit == {}
    {
      lit := {};
    }

    method Plot(x: int, y: int)
      modifies this
      ensures lit == old(lit) + {Cell(x, y)}
    {
      lit := lit + {Cell(x, y)};
    }

    method Unplot(x: int, y: int)
      modifies this
      ensures lit == old(lit) - {Cell(x, y)}
    {
      lit := lit - {Cell(x, y)};
    }
  }

  /** The joystick-x part of the loop body. */
  method PlotJoystickX(display: Display, joyX: int)
    modifies display
    ensures display.lit == ShowX(old(display.lit), joyX)
  {
    if joyX < 50 {
      display.Plot(0, 2);
      display.Unplot(4, 2);
    } else if joyX > 200 {
      display.Unplot(0, 2);
      display.Plot(4, 2);
    } else {
      display.Unplot(0, 2);
      display.Unplot(4, 2);
    }
  }

  /** The joystick-y part of the loop body. */
  method PlotJoystickY(display: Display, joyY: int)
    modifies display
    ensures display.lit == ShowY(old(display.lit), joyY)
  {
    if joyY < 50 {
      display.Unplot(2, 0);
      display.Plot(2, 4);
    } else if joyY > 200 {
      display.Plot(2, 0);
      display.Unplot(2, 4);
    } else {
      display.Unplot(2, 0);
      display.Unplot(2, 4);
    }
  }

  /** The part of the loop body for one button and its LED. */
  method PlotButton(display: Display, x: int, y: int, pressed: bool)
    modifies display
    ensures display.lit == ShowButton(old(display.lit), Cell(x, y), pressed)
  {
    if pressed {
      display.Plot(x, y);
    } else {
      display.Unplot(x, y);
    }
  }

  /** One pass of the `basic.forever` body, given the raw bytes its read
      returns. */
  method ForeverPass(display: Display, buf: seq<bv8>)
    requires |buf| == 6
    modifies display
    ensures display.lit == Shown(old(display.lit), ReadallWiiChuk(buf))
  {
    var result := ReadallWiiChuk(buf);
    PlotJoystickX(display, result.joyX);
    PlotJoystickY(display, result.joyY);
    PlotButton(display, 1, 2, result.c);
    PlotButton(display, 3, 2, result.z);
  }
}
