/** The test driver of tests/function/test_motor_encoder.py. Its row loop
    builds `test_detail` from every six-field row that converts and rejects a
    row with a bad pin by `continue`, but the append stands after the loop:
    each file that opens adds one entry, the last description built, whether
    or not its pins passed (and one left over from an earlier file when this
    one built none). If no description was ever built, the append reads an
    unbound name and `main` fails. A file that cannot be opened is None.
    The run loop raises at the first test it would drive with the encoder:
    the digital encoder's constructor passes `eh=` on to a base class that
    takes no such parameter, a TypeError raised with the motor already
    set going. */
module MotorEncoderFunctionTest {
  import opened Wrappers
  import opened MotorTestCsv

  /** The pin checks of this driver: every pin 0 .. 27, and each different
      from the pins checked before it. */
  predicate PinsAccepted(d: TestDetail)
  {
    && 0 <= d.powerPin <= 27
    && 0 <= d.fwdPin <= 27 && d.fwdPin != d.powerPin
    && 0 <= d.rwdPin <= 27 && d.rwdPin != d.fwdPin && d.rwdPin != d.powerPin
    && 0 <= d.encoderPin <= 27 && d.encoderPin != d.fwdPin && d.encoderPin != d.rwdPin
    && d.encoderPin != d.powerPin
  }

  /** The description a row builds, pins unchecked: None when it does not
      have six fields or does not convert. */
  function Built(row: seq<Field>): (d: Option<TestDetail>)
    ensures d.Some? <==> |row| == 6 && Parse(row).Some?
  {
    if |row| == 6 then Parse(row) else None
  }

  /** `test_detail` after the row loop over `rows`, starting from `detail`:
      the last description built, or `detail` when no row built one. */
  function LastBuilt(rows: seq<seq<Field>>, detail: Option<TestDetail>): (last: Option<TestDetail>)
    ensures detail.Some? ==> last.Some?
    decreases |rows|
  {
    if rows == [] then detail
    else LastBuilt(rows[1..], if Built(rows[0]).Some? then Built(rows[0]) else detail)
  }

  /** The loading outcome: the tests, or the failure of an append that reads
      a `test_detail` never assigned. */
  datatype Loaded = Loaded(tests: seq<TestDetail>) | UnboundLocal

  function Load(files: seq<Option<seq<CsvLine>>>, detail: Option<TestDetail>): Loaded
    decreases |files|
  {
    if files == [] then Loaded([])
    else if files[0].None? then Load(files[1..], detail)
    else
      var last := LastBuilt(Rows(files[0].value), detail);
      if last.None? then UnboundLocal
      else match Load(files[1..], last)
        case UnboundLocal => UnboundLocal
        case Loaded(rest) => Loaded([last.value] + rest)
  }

  /** The number of files that open. */
  function Opened(files: seq<Option<seq<CsvLine>>>): nat
  {
    if files == [] then 0 else (if files[0].Some? then 1 else 0) + Opened(files[1..])
  }

  /** Each file that opens adds exactly one test, whatever it holds. */
  lemma {:induction false} OneTestPerFile(files: seq<Option<seq<CsvLine>>>, detail: Option<TestDetail>)
    ensures Load(files, detail).Loaded? ==> |Load(files, detail).tests| == Opened(files)
    decreases |files|
  {
    if files != [] {
      if files[0].None? {
        OneTestPerFile(files[1..], detail);
      } else {
        OneTestPerFile(files[1..], LastBuilt(Rows(files[0].value), detail));
      }
    }
  }

  /** Once a description exists, loading cannot fail. */
  lemma {:induction false} LoadFailsOnlyWithoutDetail(files: seq<Option<seq<CsvLine>>>, detail: Option<TestDetail>)
    requires detail.Some?
    ensures Load(files, detail).Loaded?
    decreases |files|
  {
    if files != [] {
      if files[0].None? {
        LoadFailsOnlyWithoutDetail(files[1..], detail);
      } else {
        LoadFailsOnlyWithoutDetail(files[1..], LastBuilt(Rows(files[0].value), detail));
      }
    }
  }

  const RejectedRow: seq<Field> := [IntText(30), IntText(5), IntText(6), IntText(7), FloatText(0.5), IntText(2)]
  const GoodRow: seq<Field> := [IntText(4), IntText(5), IntText(6), IntText(7), FloatText(0.5), IntText(2)]

  /** A file whose only row fails the pin check (power pin 30) still gives a
      test on power pin 30. */
  lemma RejectedRowStillLoaded()
    ensures !PinsAccepted(Parse(RejectedRow).value)
    ensures Load([Some([CsvLine('3', RejectedRow)])], None) == Loaded([TestDetail(30, 5, 6, 7, 0.5, 2.0)])
  {
    var lines := [CsvLine('3', RejectedRow)];
    assert Uncommented(lines) == lines;
    assert Rows(lines) == [RejectedRow];
    assert Parse(RejectedRow) == Some(TestDetail(30, 5, 6, 7, 0.5, 2.0));
    assert LastBuilt([RejectedRow], None) == Some(TestDetail(30, 5, 6, 7, 0.5, 2.0));
  }

  /** Of two good rows in one file only the second is kept. */
  lemma OnlyLastRowLoaded()
    ensures Load([Some([CsvLine('4', GoodRow), CsvLine('4', GoodRow[1 := IntText(8)])])], None)
            == Loaded([TestDetail(4, 8, 6, 7, 0.5, 2.0)])
  {
    var second := GoodRow[1 := IntText(8)];
    var two := [CsvLine('4', GoodRow), CsvLine('4', second)];
    assert Uncommented(two) == two;
    assert Rows(two) == [GoodRow, second];
    assert [GoodRow, second][1..] == [second];
    assert Parse(GoodRow) == Some(TestDetail(4, 5, 6, 7, 0.5, 2.0));
    assert Parse(second) == Some(TestDetail(4, 8, 6, 7, 0.5, 2.0));
    assert LastBuilt([second], Parse(GoodRow)) == Some(TestDetail(4, 8, 6, 7, 0.5, 2.0));
    assert LastBuilt([GoodRow, second], None) == Some(TestDetail(4, 8, 6, 7, 0.5, 2.0));
  }

  /** With no row building a description, the first file that opens ends
      `main` with the unbound name. */
  lemma EmptyFileFails()
    ensures Load([Some([CsvLine('#', GoodRow)])], None) == UnboundLocal
  {
    assert Uncommented([CsvLine('#', GoodRow)]) == [];
  }

  /** The row loop for one file: `test_detail` is rebound by every row that
      converts, and the pin checks only decide whether the loop continues. */
  method RowLoop(motorTests: seq<seq<Field>>, detail: Option<TestDetail>) returns (testDetail: Option<TestDetail>)
    ensures testDetail == LastBuilt(motorTests, detail)
  {
    testDetail := detail;
    for k := 0 to |motorTests|
      invariant LastBuilt(motorTests, detail) == LastBuilt(motorTests[k..], testDetail)
    {
      assert motorTests[k..][1..] == motorTests[k + 1..];
      var test := motorTests[k];
      if |test| != 6 {
        continue;
      }
      var converted := Parse(test);
      if converted.None? {
        continue;
      }
      testDetail := converted;
      if !PinsAccepted(converted.value) {
        continue;
      }
    }
  }

  /** The loading loop of `main`: the row loop, then one append per file. */
  method LoadTests(files: seq<Option<seq<CsvLine>>>) returns (loaded: Loaded)
    ensures loaded == Load(files, None)
  {
    var tests := [];
    var testDetail: Option<TestDetail> := None;
    for n := 0 to |files|
      invariant Load(files, None) == match Load(files[n..], testDetail)
                                     case UnboundLocal => UnboundLocal
                                     case Loaded(rest) => Loaded(tests + rest)
    {
      assert files[n..][1..] == files[n + 1..];
      if files[n].None? {
        continue;
      }
      testDetail := RowLoop(Rows(files[n].value), testDetail);
      if testDetail.None? {
        return UnboundLocal;
      }
      tests := tests + [testDetail.value];
    }
    return Loaded(tests);
  }

  /** What the run loop does with one test: set the motor going and build
      the encoder, which raises; set the motor going and only sleep (no
      encoder pin), leaving it running; or only sleep. */
  datatype Step = DriveWithEncoder | DriveWithoutEncoder | Wait

  /** A test the run loop drives with the encoder running. */
  predicate EncoderDriven(t: TestDetail)
  {
    t.powerPin != 0 && t.fwdPin != 0 && t.rwdPin != 0 && t.encoderPin != 0
  }

  /** The run loop of `main`: one step per test, in order, until the first
      test driven with the encoder. That test sets the motor going and then
      builds the digital encoder, whose constructor raises TypeError (`eh=`
      is passed to a base class without that parameter), so the run stops
      there (`raised`) with the motor left running, before the sleep, the
      stop and the `distance` read. */
  method RunTests(tests: seq<TestDetail>) returns (steps: seq<Step>, raised: bool)
    ensures raised <==> exists i :: 0 <= i < |tests| && EncoderDriven(tests[i])
    ensures |steps| <= |tests|
    ensures !raised ==> |steps| == |tests|
    ensures forall i :: 0 <= i < |steps| ==>
              && (steps[i] == Wait <==> tests[i].powerPin == 0 || tests[i].fwdPin == 0 || tests[i].rwdPin == 0)
              && (steps[i] == DriveWithEncoder <==> EncoderDriven(tests[i]))
              && (steps[i] == DriveWithoutEncoder <==> steps[i] != Wait && tests[i].encoderPin == 0)
              && (steps[i] == DriveWithEncoder <==> raised && i == |steps| - 1)
  {
    steps := [];
    for n := 0 to |tests|
      invariant |steps| == n
      invariant forall i :: 0 <= i < n ==> !EncoderDriven(tests[i])
      invariant forall i :: 0 <= i < n ==>
                  && (steps[i] == Wait <==> tests[i].powerPin == 0 || tests[i].fwdPin == 0 || tests[i].rwdPin == 0)
                  && (steps[i] == DriveWithoutEncoder <==> steps[i] != Wait && tests[i].encoderPin == 0)
                  && steps[i] != DriveWithEncoder
    {
      var test := tests[n];
      if test.powerPin != 0 && test.fwdPin != 0 && test.rwdPin != 0 {
        if test.encoderPin != 0 {
          steps := steps + [DriveWithEncoder];
          // The encoder's constructor raises TypeError here.
          return steps, true;
        } else {
          steps := steps + [DriveWithoutEncoder];
        }
      } else {
        steps := steps + [Wait];
      }
    }
    return steps, false;
  }

  /** The row loop as evidently intended: every row that builds a
      description and passes the pin checks, in order. */
  function IntendedRowsTests(rows: seq<seq<Field>>): seq<TestDetail>
  {
    if rows == [] then []
    else
      var d := Built(rows[|rows| - 1]);
      IntendedRowsTests(rows[..|rows| - 1]) + (if d.Some? && PinsAccepted(d.value) then [d.value] else [])
  }

  /** The intended loop keeps exactly the accepted rows: each test it keeps
      is a built description with accepted pins, and each accepted row is
      kept. */
  lemma {:induction false} IntendedRowsAccepted(rows: seq<seq<Field>>)
    ensures forall t :: t in IntendedRowsTests(rows) ==> PinsAccepted(t) && -1.0 <= t.velocity <= 1.0
    ensures forall i :: 0 <= i < |rows| && Built(rows[i]).Some? && PinsAccepted(Built(rows[i]).value)
              ==> Built(rows[i]).value in IntendedRowsTests(rows)
    decreases |rows|
  {
    if rows != [] {
      var init := rows[..|rows| - 1];
      IntendedRowsAccepted(init);
      forall i | 0 <= i < |rows| && Built(rows[i]).Some? && PinsAccepted(Built(rows[i]).value)
        ensures Built(rows[i]).value in IntendedRowsTests(rows)
      {
        if i < |rows| - 1 {
          assert rows[i] == init[i];
        }
      }
    }
  }

  /** The intended loop never keeps the rejected row. */
  lemma IntendedDropsRejectedRow()
    ensures IntendedRowsTests([RejectedRow]) == []
    ensures IntendedRowsTests([GoodRow]) == [TestDetail(4, 5, 6, 7, 0.5, 2.0)]
  {
    assert [RejectedRow][..0] == [] && [GoodRow][..0] == [];
    assert Parse(RejectedRow) == Some(TestDetail(30, 5, 6, 7, 0.5, 2.0));
    assert Parse(GoodRow) == Some(TestDetail(4, 5, 6, 7, 0.5, 2.0));
  }
}
