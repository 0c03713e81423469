/** The simulated motor of balance_bot/motor_simulator.py: it stores a
    value clamped to [-1, 1] and reports every change through the event
    handler as forward, rearward or stopped. */
module MotorSim {
  import opened Wrappers
  import opened Numeric
  import EH = EventHandler

  /** The event type every motor report is posted under. */
  const RobotMoved: string := "robot moved"

  /** The report for a newly stored value. */
  function MotionMessage(value: real): (m: EH.Message)
    ensures value > 0.0 ==> m == EH.TextWithValue("Vroom! Moving Forward at speed: ", value)
    ensures value < 0.0 ==> m == EH.TextWithValue("Vroom! Moving Rearward at speed: ", value)
    ensures value == 0.0 <==> m == EH.Text("Stopped")
  {
    if value > 0.0 then EH.TextWithValue("Vroom! Moving Forward at speed: ", value)
    else if value < 0.0 then EH.TextWithValue("Vroom! Moving Rearward at speed: ", value)
    else EH.Text("Stopped")
  }

  /** The statements of the constructor, in the order they run. */
  datatype InitStep = PostCreated | AssignValue | AssignHandler

  /** What running constructor statements gives: an AttributeError when a
      post reads the handler attribute before it is assigned, otherwise an
      object with or without a stored value and with or without a report. */
  datatype InitOutcome = AttributeError | Built(hasValue: bool, posted: bool)

  function RunInit(steps: seq<InitStep>, hasHandler: bool, hasValue: bool, posted: bool): InitOutcome
    decreases |steps|
  {
    if steps == [] then Built(hasValue, posted)
    else match steps[0]
      case PostCreated => if !hasHandler then AttributeError else RunInit(steps[1..], hasHandler, hasValue, true)
      case AssignValue => RunInit(steps[1..], hasHandler, true, posted)
      case AssignHandler => RunInit(steps[1..], true, hasValue, posted)
  }

  /** The constructor fails exactly when some post comes before the first
      assignment of the handler. */
  lemma {:induction false} InitFailsIffPostBeforeHandler(steps: seq<InitStep>, hasValue: bool, posted: bool)
    ensures RunInit(steps, false, hasValue, posted) == AttributeError
            <==> exists i :: 0 <= i < |steps| && steps[i] == PostCreated && AssignHandler !in steps[..i]
    decreases |steps|
  {
    if steps != [] {
      match steps[0]
      case PostCreated =>
        assert steps[..0] == [];
      case AssignValue =>
        InitFailsIffPostBeforeHandler(steps[1..], true, posted);
        ShiftedWitness(steps);
      case AssignHandler =>
        HandlerFirstNeverFails(steps[1..], hasValue, posted);
        assert forall i :: 0 < i <= |steps| ==> AssignHandler in steps[..i] by {
          forall i | 0 < i <= |steps| ensures AssignHandler in steps[..i] {
            assert steps[..i][0] == AssignHandler;
          }
        }
    }
  }

  /** Once the handler is assigned, no statement fails. */
  lemma {:induction false} HandlerFirstNeverFails(steps: seq<InitStep>, hasValue: bool, posted: bool)
    ensures RunInit(steps, true, hasValue, posted).Built?
    decreases |steps|
  {
    if steps != [] {
      match steps[0]
      case PostCreated => HandlerFirstNeverFails(steps[1..], hasValue, true);
      case AssignValue => HandlerFirstNeverFails(steps[1..], true, posted);
      case AssignHandler => HandlerFirstNeverFails(steps[1..], hasValue, posted);
    }
  }

  /** A failing post in `steps` after a leading assignment of the value is a
      failing post in the rest, one index earlier, and back. */
  lemma ShiftedWitness(steps: seq<InitStep>)
    requires steps != [] && steps[0] == AssignValue
    ensures (exists i :: 0 <= i < |steps| && steps[i] == PostCreated && AssignHandler !in steps[..i])
            <==> (exists i :: 0 <= i < |steps| - 1 && steps[1..][i] == PostCreated && AssignHandler !in steps[1..][..i])
  {
    forall i | 0 <= i < |steps| - 1
      ensures steps[..i + 1] == [AssignValue] + steps[1..][..i]
    {
    }
    if exists i :: 0 <= i < |steps| && steps[i] == PostCreated && AssignHandler !in steps[..i] {
      var i :| 0 <= i < |steps| && steps[i] == PostCreated && AssignHandler !in steps[..i];
      assert i > 0;
      assert steps[1..][i - 1] == PostCreated && AssignHandler !in steps[1..][..i - 1];
    }
  }

  /** The constructor as written posts first: building a simulated motor
      always fails. */
  lemma ConstructorAsWrittenFails()
    ensures RunInit([PostCreated, AssignValue, AssignHandler], false, false, false) == AttributeError
  {
  }

  /** Assigning the handler first builds the motor with value 0 and the
      creation report posted. */
  lemma ConstructorHandlerFirstBuilds()
    ensures RunInit([AssignHandler, PostCreated, AssignValue], false, false, false) == Built(true, true)
  {
  }

  class MotorSim {
    const eh: EH.EventHandler
    var value: real

    /** The setter keeps the value in [-1, 1]. */
    predicate Valid()
      reads this
    {
      -1.0 <= value <= 1.0
    }

    /** The constructor in the working order: the handler, the creation
        report, then value 0. */
    constructor (eh: EH.EventHandler)
      ensures this.eh == eh && value == 0.0 && Valid()
    {
      this.eh := eh;
      value := 0.0;
      new;
      var found, calls := eh.Post(RobotMoved, EH.Text("We have a simululated motor"));
    }

    /** The `value` setter: store the value clamped to [-1, 1] and post one
        report of the direction it now moves in. */
    method SetValue(v: real) returns (found: bool, calls: seq<EH.Call>)
      modifies this`value
      ensures value == Clamp(v, -1.0, 1.0) && Valid()
      ensures found <==> RobotMoved in eh.subscribers
      ensures found ==> calls == EH.CallsFor(eh.subscribers[RobotMoved], RobotMoved, MotionMessage(value), None)
      ensures !found ==> calls == []
    {
      value := Min(Max(v, -1.0), 1.0);
      var message;
      if value > 0.0 {
        message := EH.TextWithValue("Vroom! Moving Forward at speed: ", value);
      } else if value < 0.0 {
        message := EH.TextWithValue("Vroom! Moving Rearward at speed: ", value);
      } else {
        message := EH.Text("Stopped");
      }
      found, calls := eh.Post(RobotMoved, message);
    }

    /** The `value` getter: the stored value, in [-1, 1]. */
    function Value(): (v: real)
      requires Valid()
      reads this
      ensures -1.0 <= v <= 1.0
    {
      value
    }
  }
}
