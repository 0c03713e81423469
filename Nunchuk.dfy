/** The Wii Nunchuk reader of MicroBit/MicroBit_Nunchuk_Test.py. The six
    bytes read over I2C are decoded one by one as 0x17 + (0x17 XOR byte);
    bytes 0-1 are the joystick, 2-4 the accelerometer, and bits 1 and 0 of
    byte 5 are the C and Z buttons, clear when pressed. The I2C transfer is
    an input: each getter is given the six raw bytes its own read returns. */
module Nunchuk {
  /** The key the Nunchuk's legacy encoding uses. */
  const Key: bv8 := 0x17

  /** One decoded byte: `0x17 + (0x17 ^ b)`. */
  function Decode(b: bv8): (v: int)
    ensures 0x17 <= v <= 0x17 + 0xFF
  {
    0x17 + (Key ^ b) as int
  }

  /** The raw byte a decoded value comes from. */
  function Encode(v: int): bv8
    requires 0x17 <= v <= 0x17 + 0xFF
  {
    ((v - 0x17) as bv8) ^ Key
  }

  /** Different raw bytes decode to different values. */
  lemma DecodeInjective(a: bv8, c: bv8)
    requires Decode(a) == Decode(c)
    ensures a == c
  {
    assert (Key ^ a) as int == (Key ^ c) as int;
    assert Key ^ a == Key ^ c;
    assert (Key ^ a) ^ Key == a;
  }

  /** A byte-sized number survives the trip through `bv8`. The solver
      handles the conversion in ranges of eight values. */
  lemma ByteRoundTrip(n: int)
    requires 0 <= n < 0x100
    ensures (n as bv8) as int == n
  {
    if n < 0x08 {} else if n < 0x10 {} else if n < 0x18 {} else if n < 0x20 {}
    else if n < 0x28 {} else if n < 0x30 {} else if n < 0x38 {} else if n < 0x40 {}
    else if n < 0x48 {} else if n < 0x50 {} else if n < 0x58 {} else if n < 0x60 {}
    else if n < 0x68 {} else if n < 0x70 {} else if n < 0x78 {} else if n < 0x80 {}
    else if n < 0x88 {} else if n < 0x90 {} else if n < 0x98 {} else if n < 0xA0 {}
    else if n < 0xA8 {} else if n < 0xB0 {} else if n < 0xB8 {} else if n < 0xC0 {}
    else if n < 0xC8 {} else if n < 0xD0 {} else if n < 0xD8 {} else if n < 0xE0 {}
    else if n < 0xE8 {} else if n < 0xF0 {} else if n < 0xF8 {}
    else {}
  }

  lemma KeyCancels(x: bv8)
    ensures Key ^ (x ^ Key) == x
  {
  }

  /** Every value in [23, 278] is the decoding of its encoding. */
  lemma DecodeEncode(v: int)
    requires 0x17 <= v <= 0x17 + 0xFF
    ensures Decode(Encode(v)) == v
  {
    ByteRoundTrip(v - 0x17);
    KeyCancels((v - 0x17) as bv8);
  }

  /** Encoding undoes decoding. */
  lemma EncodeDecode(b: bv8)
    ensures Encode(Decode(b)) == b
  {
    DecodeEncode(Decode(b));
    DecodeInjective(Encode(Decode(b)), b);
  }

  /** `read`: the six raw bytes decoded in order. */
  function Read(buf: seq<bv8>): (data: seq<int>)
    requires |buf| == 6
    ensures |data| == 6
    ensures forall i :: 0 <= i < 6 ==> 0x17 <= data[i] <= 0x17 + 0xFF
  {
    seq(6, i requires 0 <= i < 6 => Decode(buf[i]))
  }

  /** Two reads that decode the same came from the same bytes. */
  lemma ReadInjective(a: seq<bv8>, b: seq<bv8>)
    requires |a| == 6 && |b| == 6 && Read(a) == Read(b)
    ensures a == b
  {
    forall i | 0 <= i < 6 ensures a[i] == b[i] {
      assert Read(a)[i] == Decode(a[i]) && Read(b)[i] == Decode(b[i]);
      DecodeInjective(a[i], b[i]);
    }
  }

  /** `data[5] & mask == 0` for a decoded byte. */
  predicate BitClear(v: int, mask: bv16)
    requires 0 <= v < 0x1_0000
  {
    (v as bv16) & mask == 0
  }

  /** Button C is bit 1 and button Z bit 0: clear means pressed. */
  predicate CPressed(v: int)
    requires 0 <= v < 0x1_0000
  {
    BitClear(v, 0x02)
  }

  predicate ZPressed(v: int)
    requires 0 <= v < 0x1_0000
  {
    BitClear(v, 0x01)
  }

  /** The bits as numbers: Z is pressed on an even value, C when the value's
      second binary digit is 0. */
  lemma ButtonBits(v: int)
    requires 0 <= v < 0x1_0000
    ensures ZPressed(v) <==> v % 2 == 0
    ensures CPressed(v) <==> (v / 2) % 2 == 0
  {
    var w := v as bv16;
    assert w & 0x01 == w % 2;
    assert w & 0x02 == ((w / 2) % 2) * 2;
    assert (w % 2) as int == v % 2;
    assert ((w / 2) % 2) as int == (v / 2) % 2;
  }

  /** `readall`: (joyX, joyY, accX, accY, accZ, c, z). */
  datatype ChuckData = ChuckData(joyX: int, joyY: int, accX: int, accY: int, accZ: int, c: bool, z: bool)

  function ReadAll(buf: seq<bv8>): (r: ChuckData)
    requires |buf| == 6
    ensures 0x17 <= r.joyX <= 0x17 + 0xFF && 0x17 <= r.joyY <= 0x17 + 0xFF
    ensures r.c <==> CPressed(Decode(buf[5]))
    ensures r.z <==> ZPressed(Decode(buf[5]))
  {
    var data := Read(buf);
    var butc := (data[5] as bv16) & 0x02;
    var butz := (data[5] as bv16) & 0x01;
    ChuckData(data[0], data[1], data[2], data[3], data[4], butc == 0, butz == 0)
  }

  /** `joystick`: x and y in [23, 278], each giving back its raw byte. */
  function Joystick(buf: seq<bv8>): (r: (int, int))
    requires |buf| == 6
    ensures 0x17 <= r.0 <= 0x17 + 0xFF && 0x17 <= r.1 <= 0x17 + 0xFF
    ensures Encode(r.0) == buf[0] && Encode(r.1) == buf[1]
  {
    EncodeDecode(buf[0]);
    EncodeDecode(buf[1]);
    var data := Read(buf);
    (data[0], data[1])
  }

  /** `wii_accelerometer`: three values in [23, 278], each giving back its
      raw byte. */
  function WiiAccelerometer(buf: seq<bv8>): (r: (int, int, int))
    requires |buf| == 6
    ensures 0x17 <= r.0 <= 0x17 + 0xFF && 0x17 <= r.1 <= 0x17 + 0xFF && 0x17 <= r.2 <= 0x17 + 0xFF
    ensures Encode(r.0) == buf[2] && Encode(r.1) == buf[3] && Encode(r.2) == buf[4]
  {
    EncodeDecode(buf[2]);
    EncodeDecode(buf[3]);
    EncodeDecode(buf[4]);
    var data := Read(buf);
    (data[2], data[3], data[4])
  }

  /** `buttons`: (C, Z), C pressed when the second binary digit of the
      decoded byte 5 is 0 and Z when that byte is even. */
  function Buttons(buf: seq<bv8>): (r: (bool, bool))
    requires |buf| == 6
    ensures r.0 <==> (Decode(buf[5]) / 2) % 2 == 0
    ensures r.1 <==> Decode(buf[5]) % 2 == 0
  {
    var data := Read(buf);
    ButtonBits(data[5]);
    var butc := (data[5] as bv16) & 0x02;
    var butz := (data[5] as bv16) & 0x01;
    (butc == 0, butz == 0)
  }

  /** `button_c`: pressed when the second binary digit of the decoded byte
      5 is 0. */
  function ButtonC(buf: seq<bv8>): (pressed: bool)
    requires |buf| == 6
    ensures pressed <==> (Decode(buf[5]) / 2) % 2 == 0
  {
    var data := Read(buf);
    ButtonBits(data[5]);
    (data[5] as bv16) & 0x02 == 0
  }

  /** `button_z`: pressed when the decoded byte 5 is even. */
  function ButtonZ(buf: seq<bv8>): (pressed: bool)
    requires |buf| == 6
    ensures pressed <==> Decode(buf[5]) % 2 == 0
  {
    var data := Read(buf);
    ButtonBits(data[5]);
    (data[5] as bv16) & 0x01 == 0
  }

  /** `joystick_y`: in [23, 278], giving back raw byte 1. */
  function JoystickY(buf: seq<bv8>): (v: int)
    requires |buf| == 6
    ensures 0x17 <= v <= 0x17 + 0xFF && Encode(v) == buf[1]
  {
    EncodeDecode(buf[1]);
    Read(buf)[1]
  }

  /** `accelerometer_x`, `accelerometer_y` and `accelerometer_z`: each in
      [23, 278], giving back raw byte 2, 3 or 4. */
  function AccelerometerX(buf: seq<bv8>): (v: int)
    requires |buf| == 6
    ensures 0x17 <= v <= 0x17 + 0xFF && Encode(v) == buf[2]
  {
    EncodeDecode(buf[2]);
    Read(buf)[2]
  }

  function AccelerometerY(buf: seq<bv8>): (v: int)
    requires |buf| == 6
    ensures 0x17 <= v <= 0x17 + 0xFF && Encode(v) == buf[3]
  {
    EncodeDecode(buf[3]);
    Read(buf)[3]
  }

  function AccelerometerZ(buf: seq<bv8>): (v: int)
    requires |buf| == 6
    ensures 0x17 <= v <= 0x17 + 0xFF && Encode(v) == buf[4]
  {
    EncodeDecode(buf[4]);
    Read(buf)[4]
  }

  /** On the same raw bytes every getter reports what `readall` does. */
  lemma GettersAgreeWithReadAll(buf: seq<bv8>)
    requires |buf| == 6
    ensures var r := ReadAll(buf);
            && Joystick(buf) == (r.joyX, r.joyY)
            && WiiAccelerometer(buf) == (r.accX, r.accY, r.accZ)
            && Buttons(buf) == (r.c, r.z)
            && ButtonC(buf) == r.c && ButtonZ(buf) == r.z
  {
  }

  /** The single-value getters report the matching part of `readall`. */
  lemma SingleGettersAgreeWithReadAll(buf: seq<bv8>)
    requires |buf| == 6
    ensures var r := ReadAll(buf);
            && JoystickY(buf) == r.joyY
            && AccelerometerX(buf) == r.accX && AccelerometerY(buf) == r.accY && AccelerometerZ(buf) == r.accZ
  {
  }

  /** Raw byte 0x17 decodes to 23 (0b10111): neither button pressed; raw
      0x16 decodes to 24 (0b11000): both pressed. */
  lemma ButtonExamples()
    ensures Decode(0x17) == 23 && !CPressed(23) && !ZPressed(23)
    ensures Decode(0x16) == 24 && CPressed(24) && ZPressed(24)
  {
    ButtonBits(23);
    ButtonBits(24);
  }
}
