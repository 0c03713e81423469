/** The rows of a motor-encoder test file, shared by the two test drivers
    (tests/test_motor_encoder.py and tests/function/test_motor_encoder.py):
    lines starting with '#' are dropped, the CSV reader splits the rest into
    fields, and a six-field row converts into a test description of four pins,
    a velocity clamped to [-1, 1] and a duration. The CSV tokenising itself is
    an input: each line carries its first character and its fields. */
module MotorTestCsv {
  import opened Wrappers
  import opened Numeric

  /** A CSV field as Python's `int()` and `float()` see it: an integer
      literal (both accept it), a decimal literal (only `float()`), or text
      neither accepts. */
  datatype Field = IntText(i: int) | FloatText(r: real) | Junk

  /** One line of a test file. */
  datatype CsvLine = CsvLine(first: char, fields: seq<Field>)

  /** The `test_detail` dictionary. */
  datatype TestDetail = TestDetail(powerPin: int, fwdPin: int, rwdPin: int, encoderPin: int,
                                   velocity: real, duration: real)

  const Comment: char := '#'

  /** The comment filter in front of the CSV reader. */
  function Uncommented(lines: seq<CsvLine>): (kept: seq<CsvLine>)
    ensures |kept| <= |lines|
    decreases |lines|
  {
    if lines == [] then []
    else (if lines[0].first == Comment then [] else [lines[0]]) + Uncommented(lines[1..])
  }

  /** The filter keeps exactly the lines that do not start with '#'. */
  lemma {:induction false} UncommentedKeepsCode(lines: seq<CsvLine>)
    ensures forall l :: l in Uncommented(lines) ==> l in lines && l.first != Comment
    ensures forall l :: l in lines && l.first != Comment ==> l in Uncommented(lines)
    decreases |lines|
  {
    if lines != [] {
      UncommentedKeepsCode(lines[1..]);
      assert forall l :: l in lines ==> l == lines[0] || l in lines[1..];
    }
  }

  /** Filtering is done line by line: the lines kept from two pieces are
      those kept from each, in order. */
  lemma {:induction false} UncommentedAppend(a: seq<CsvLine>, b: seq<CsvLine>)
    ensures Uncommented(a + b) == Uncommented(a) + Uncommented(b)
    decreases |a|
  {
    if a == [] {
      assert a + b == b;
    } else {
      var head := if a[0].first == Comment then [] else [a[0]];
      assert (a + b)[0] == a[0] && (a + b)[1..] == a[1..] + b;
      UncommentedAppend(a[1..], b);
    }
  }

  /** Filtering twice changes nothing. */
  lemma {:induction false} UncommentedIdempotent(lines: seq<CsvLine>)
    ensures Uncommented(Uncommented(lines)) == Uncommented(lines)
    decreases |lines|
  {
    if lines != [] {
      var head := if lines[0].first == Comment then [] else [lines[0]];
      UncommentedAppend(head, Uncommented(lines[1..]));
      UncommentedIdempotent(lines[1..]);
      if head != [] {
        assert Uncommented(head) == [lines[0]] + Uncommented(head[1..]);
      }
    }
  }

  /** The rows the reader yields: the fields of each line kept. */
  function Rows(lines: seq<CsvLine>): (rows: seq<seq<Field>>)
    ensures |rows| == |Uncommented(lines)|
    ensures forall i :: 0 <= i < |rows| ==> rows[i] == Uncommented(lines)[i].fields
  {
    var kept := Uncommented(lines);
    seq(|kept|, i requires 0 <= i < |kept| => kept[i].fields)
  }

  /** `int(field)`. */
  function IntOf(f: Field): (v: Option<int>)
    ensures v.Some? <==> f.IntText?
  {
    if f.IntText? then Some(f.i) else None
  }

  /** `float(field)`: integer literals convert too. */
  function FloatOf(f: Field): (v: Option<real>)
    ensures v.Some? <==> !f.Junk?
    ensures f.IntText? ==> v == Some(f.i as real)
  {
    match f
    case IntText(i) => Some(i as real)
    case FloatText(r) => Some(r)
    case Junk => None
  }

  /** The conversions of a six-field row: a ValueError (None) when a pin is
      not an integer or the velocity or duration is not a number; otherwise
      the four pins as given, the velocity clamped to [-1, 1] and the
      duration. */
  function Parse(fields: seq<Field>): (d: Option<TestDetail>)
    requires |fields| == 6
    ensures d.Some? <==> (forall i :: 0 <= i < 4 ==> fields[i].IntText?) && !fields[4].Junk? && !fields[5].Junk?
    ensures d.Some? ==>
              && d.value.powerPin == fields[0].i && d.value.fwdPin == fields[1].i
              && d.value.rwdPin == fields[2].i && d.value.encoderPin == fields[3].i
              && -1.0 <= d.value.velocity <= 1.0
              && d.value.velocity == Clamp(FloatOf(fields[4]).value, -1.0, 1.0)
              && Some(d.value.duration) == FloatOf(fields[5])
  {
    var power, fwd, rwd, encoder := IntOf(fields[0]), IntOf(fields[1]), IntOf(fields[2]), IntOf(fields[3]);
    var velocity, duration := FloatOf(fields[4]), FloatOf(fields[5]);
    if power.None? || fwd.None? || rwd.None? || encoder.None? || velocity.None? || duration.None? then None
    else Some(TestDetail(power.value, fwd.value, rwd.value, encoder.value,
                         Min(Max(velocity.value, -1.0), 1.0), duration.value))
  }

  /** The row a test description is written as. */
  function Fields(d: TestDetail): (fields: seq<Field>)
    ensures |fields| == 6
  {
    [IntText(d.powerPin), IntText(d.fwdPin), IntText(d.rwdPin), IntText(d.encoderPin),
     FloatText(d.velocity), FloatText(d.duration)]
  }

  /** Writing a description out and reading it back gives it again when its
      velocity is in range; otherwise the velocity comes back clamped. */
  lemma ParseFields(d: TestDetail)
    ensures -1.0 <= d.velocity <= 1.0 ==> Parse(Fields(d)) == Some(d)
    ensures Parse(Fields(d)) == Some(d.(velocity := Clamp(d.velocity, -1.0, 1.0)))
  {
  }
}
