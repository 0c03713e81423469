/** The test driver of tests/test_motor_encoder.py: it reads the test files,
    keeps every six-field row that converts, zeroing each pin that is out of
    range or collides with a pin checked before it, then runs each test whose
    motor pins survived. A file that cannot be opened is None and skipped;
    the event posts, the OS check and the devices are left out. */
module MotorEncoderTest {
  import opened Wrappers
  import opened MotorTestCsv

  /** The pin checks in order, each against the pins as already zeroed:
      power and forward must be 1 .. 27, reverse 0 .. 27, the encoder 1 .. 27,
      and each must differ from the motor pins checked before it. */
  function CheckPins(d: TestDetail): (c: TestDetail)
    ensures c.velocity == d.velocity && c.duration == d.duration
    ensures c.powerPin in {0, d.powerPin} && c.fwdPin in {0, d.fwdPin}
    ensures c.rwdPin in {0, d.rwdPin} && c.encoderPin in {0, d.encoderPin}
  {
    var power := if d.powerPin < 1 || d.powerPin > 27 then 0 else d.powerPin;
    var fwd := if d.fwdPin < 1 || d.fwdPin > 27 || d.fwdPin == power then 0 else d.fwdPin;
    var rwd := if d.rwdPin < 0 || d.rwdPin > 27 || d.rwdPin == fwd || d.rwdPin == power then 0 else d.rwdPin;
    var encoder := if d.encoderPin < 1 || d.encoderPin > 27 || d.encoderPin == fwd || d.encoderPin == rwd
                      || d.encoderPin == power then 0 else d.encoderPin;
    d.(powerPin := power, fwdPin := fwd, rwdPin := rwd, encoderPin := encoder)
  }

  /** Each pin is 0 (unusable) or a GPIO number 1 .. 27, and the pins that
      are not 0 are pairwise different. */
  predicate PinsSound(d: TestDetail)
  {
    && (d.powerPin == 0 || 1 <= d.powerPin <= 27)
    && (d.fwdPin == 0 || 1 <= d.fwdPin <= 27)
    && (d.rwdPin == 0 || 1 <= d.rwdPin <= 27)
    && (d.encoderPin == 0 || 1 <= d.encoderPin <= 27)
    && (d.fwdPin != 0 ==> d.fwdPin != d.powerPin)
    && (d.rwdPin != 0 ==> d.rwdPin != d.powerPin && d.rwdPin != d.fwdPin)
    && (d.encoderPin != 0 ==> d.encoderPin != d.powerPin && d.encoderPin != d.fwdPin && d.encoderPin != d.rwdPin)
  }

  /** The checks always leave sound pins, and leave sound pins alone. */
  lemma CheckPinsSound(d: TestDetail)
    ensures PinsSound(CheckPins(d))
    ensures PinsSound(d) ==> CheckPins(d) == d
  {
  }

  /** What one row contributes: nothing when it does not have six fields or
      does not convert, otherwise its description with the pins checked. */
  function RowTest(row: seq<Field>): (t: Option<TestDetail>)
    ensures t.Some? <==> |row| == 6 && Parse(row).Some?
    ensures t.Some? ==> t.value == CheckPins(Parse(row).value)
  {
    if |row| != 6 then None
    else match Parse(row)
      case None => None
      case Some(d) => Some(CheckPins(d))
  }

  function RowsTests(rows: seq<seq<Field>>): seq<TestDetail>
  {
    if rows == [] then []
    else
      var last := RowTest(rows[|rows| - 1]);
      RowsTests(rows[..|rows| - 1]) + (if last.Some? then [last.value] else [])
  }

  /** Every file's rows in turn; a file that cannot be opened adds nothing. */
  function AllTests(files: seq<Option<seq<CsvLine>>>): seq<TestDetail>
  {
    if files == [] then []
    else
      var last := files[|files| - 1];
      AllTests(files[..|files| - 1]) + (if last.Some? then RowsTests(Rows(last.value)) else [])
  }

  /** Every test the files give has sound pins and a velocity in [-1, 1]. */
  lemma {:induction false} RowsTestsSound(rows: seq<seq<Field>>)
    ensures forall t :: t in RowsTests(rows) ==> PinsSound(t) && -1.0 <= t.velocity <= 1.0
    decreases |rows|
  {
    if rows != [] {
      RowsTestsSound(rows[..|rows| - 1]);
      var last := RowTest(rows[|rows| - 1]);
      if last.Some? {
        CheckPinsSound(Parse(rows[|rows| - 1]).value);
      }
    }
  }

  lemma {:induction false} AllTestsSound(files: seq<Option<seq<CsvLine>>>)
    ensures forall t :: t in AllTests(files) ==> PinsSound(t) && -1.0 <= t.velocity <= 1.0
    decreases |files|
  {
    if files != [] {
      AllTestsSound(files[..|files| - 1]);
      var last := files[|files| - 1];
      if last.Some? {
        RowsTestsSound(Rows(last.value));
      }
    }
  }

  /** A bad pin zeroes the pin and keeps the row: a row with every pin out of
      range still becomes a test, which then only waits. */
  lemma BadPinsKeepTheRow()
    ensures RowsTests([[IntText(40), IntText(0), IntText(-1), IntText(99), FloatText(2.5), IntText(3)]])
            == [TestDetail(0, 0, 0, 0, 1.0, 3.0)]
  {
    var row := [IntText(40), IntText(0), IntText(-1), IntText(99), FloatText(2.5), IntText(3)];
    assert [row][..0] == [];
    assert Parse(row) == Some(TestDetail(40, 0, -1, 99, 1.0, 3.0));
  }

  /** The pin checks of one row, zeroing each bad pin in turn. */
  method ZeroBadPins(d: TestDetail) returns (detail: TestDetail)
    ensures detail == CheckPins(d)
  {
    detail := d;
    if detail.powerPin < 1 || detail.powerPin > 27 {
      detail := detail.(powerPin := 0);
    }
    if detail.fwdPin < 1 || detail.fwdPin > 27 || detail.fwdPin == detail.powerPin {
      detail := detail.(fwdPin := 0);
    }
    if detail.rwdPin < 0 || detail.rwdPin > 27 || detail.rwdPin == detail.fwdPin
       || detail.rwdPin == detail.powerPin {
      detail := detail.(rwdPin := 0);
    }
    if detail.encoderPin < 1 || detail.encoderPin > 27 || detail.encoderPin == detail.fwdPin
       || detail.encoderPin == detail.rwdPin || detail.encoderPin == detail.powerPin {
      detail := detail.(encoderPin := 0);
    }
  }

  /** The row loop for one file: skip rows without six fields or that do
      not convert, zero the bad pins and append the rest. */
  method LoadRows(motorTests: seq<seq<Field>>) returns (found: seq<TestDetail>)
    ensures found == RowsTests(motorTests)
  {
    found := [];
    for k := 0 to |motorTests|
      invariant found == RowsTests(motorTests[..k])
    {
      assert motorTests[..k + 1][..k] == motorTests[..k];
      var test := motorTests[k];
      if |test| != 6 {
        continue;
      }
      var converted := Parse(test);
      if converted.None? {
        continue;
      }
      var detail := ZeroBadPins(converted.value);
      found := found + [detail];
    }
    assert motorTests[..|motorTests|] == motorTests;
  }

  /** The loading loop of `main`: every file that opens, in turn. */
  method LoadTests(files: seq<Option<seq<CsvLine>>>) returns (tests: seq<TestDetail>)
    ensures tests == AllTests(files)
  {
    tests := [];
    for n := 0 to |files|
      invariant tests == AllTests(files[..n])
    {
      assert files[..n + 1][..n] == files[..n];
      if files[n].None? {
        continue;
      }
      var found := LoadRows(Rows(files[n].value));
      tests := tests + found;
    }
    assert files[..|files|] == files;
  }

  /** What the run loop does with one test: drive the motor with the
      encoder running; switch the relay on and build the motor, then skip the
      test without moving (no encoder pin); or only wait for the duration. */
  datatype Step = Drive | PowerOnOnly | Wait

  /** The run loop of `main`: nothing when no test was found, otherwise one
      step per test, in order. */
  method RunTests(tests: seq<TestDetail>) returns (steps: seq<Step>)
    ensures |steps| == |tests|
    ensures forall i :: 0 <= i < |tests| ==>
              && (steps[i] == Drive <==> tests[i].powerPin != 0 && tests[i].fwdPin != 0
                                         && tests[i].rwdPin != 0 && tests[i].encoderPin != 0)
              && (steps[i] == PowerOnOnly <==> tests[i].powerPin != 0 && tests[i].fwdPin != 0
                                               && tests[i].rwdPin != 0 && tests[i].encoderPin == 0)
              && (steps[i] == Wait <==> tests[i].powerPin == 0 || tests[i].fwdPin == 0 || tests[i].rwdPin == 0)
  {
    steps := [];
    if tests == [] {
      return;
    }
    for n := 0 to |tests|
      invariant |steps| == n
      invariant forall i :: 0 <= i < n ==>
                  && (steps[i] == Drive <==> tests[i].powerPin != 0 && tests[i].fwdPin != 0
                                             && tests[i].rwdPin != 0 && tests[i].encoderPin != 0)
                  && (steps[i] == PowerOnOnly <==> tests[i].powerPin != 0 && tests[i].fwdPin != 0
                                                   && tests[i].rwdPin != 0 && tests[i].encoderPin == 0)
                  && (steps[i] == Wait <==> tests[i].powerPin == 0 || tests[i].fwdPin == 0 || tests[i].rwdPin == 0)
    {
      var test := tests[n];
      if test.powerPin != 0 && test.fwdPin != 0 && test.rwdPin != 0 {
        if test.encoderPin != 0 {
          steps := steps + [Drive];
        } else {
          steps := steps + [PowerOnOnly];
        }
      } else {
        steps := steps + [Wait];
      }
    }
  }

  /** A test loaded from the files only drives the motor on four different
      GPIO pins 1 .. 27, at a velocity in [-1, 1]. */
  lemma DrivenTestsUseDistinctPins(files: seq<Option<seq<CsvLine>>>, t: TestDetail)
    requires t in AllTests(files)
    requires t.powerPin != 0 && t.fwdPin != 0 && t.rwdPin != 0 && t.encoderPin != 0
    ensures 1 <= t.powerPin <= 27 && 1 <= t.fwdPin <= 27 && 1 <= t.rwdPin <= 27 && 1 <= t.encoderPin <= 27
    ensures |{t.powerPin, t.fwdPin, t.rwdPin, t.encoderPin}| == 4
    ensures -1.0 <= t.velocity <= 1.0
  {
    AllTestsSound(files);
  }
}
