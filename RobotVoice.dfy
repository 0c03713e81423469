/** The robot's voice (balance_bot/robot_talk.py): a wrapper around a
    text-to-speech engine whose properties it keeps in range. The engine is
    its property store: the installed voices, the selected voice's id, the
    speaking rate and the volume. Speaking itself is left out. */
module RobotVoice {
  import opened Wrappers
  import opened Numeric

  const SpeedMin: int := 25
  const SpeedMax: int := 300
  const VolumeMin: real := 0.0
  const VolumeMax: real := 1.0

  /** The rate the constructor falls back to. */
  const DefaultRate: int := 200

  /** An installed voice: its id and the gender it declares, if any. */
  datatype Voice = Voice(id: string, gender: Option<string>)

  /** What the `sex` getter gives: a gender text, or the UnboundLocalError
      of its loop variable when no voice is installed. */
  datatype Answer = Answer(text: string) | UnboundVoice

  /** The constructor's sex: "male" or "female" as given, anything else
      "male". */
  function InitialSex(sex: string): (s: string)
    ensures s == "male" || s == "female"
    ensures sex == "male" || sex == "female" ==> s == sex
  {
    if sex in ["male", "female"] then sex else "male"
  }

  /** The constructor's rate: as given within [25, 300], otherwise 200. */
  function InitialRate(rate: int): (r: int)
    ensures SpeedMin <= r <= SpeedMax
    ensures SpeedMin <= rate <= SpeedMax ==> r == rate
    ensures !(SpeedMin <= rate <= SpeedMax) ==> r == DefaultRate
  {
    if rate >= SpeedMin && rate <= SpeedMax then rate else 200
  }

  /** The constructor's volume: as given within [0, 1], otherwise 1. */
  function InitialVolume(volume: real): (v: real)
    ensures VolumeMin <= v <= VolumeMax
    ensures VolumeMin <= volume <= VolumeMax ==> v == volume
    ensures !(VolumeMin <= volume <= VolumeMax) ==> v == VolumeMax
  {
    if volume >= VolumeMin && volume <= VolumeMax then volume else VolumeMax
  }

  /** In range the constructor and the setter agree; out of range the
      constructor falls back to the default where the setter would saturate:
      a rate of 400 starts at 200 but sets to 300, a volume of -1 starts at 1
      but sets to 0. */
  lemma ConstructorAndSetterDiffer(rate: int, volume: real)
    ensures SpeedMin <= rate <= SpeedMax ==> InitialRate(rate) == ClampInt(rate, SpeedMin, SpeedMax)
    ensures VolumeMin <= volume <= VolumeMax ==> InitialVolume(volume) == Clamp(volume, VolumeMin, VolumeMax)
    ensures InitialRate(400) == 200 && ClampInt(400, SpeedMin, SpeedMax) == 300
    ensures InitialVolume(-1.0) == 1.0 && Clamp(-1.0, VolumeMin, VolumeMax) == 0.0
  {
  }

  /** The voice the getter's loop stops at: the first whose id is the
      selected one, or, when none is, the last (the loop variable keeps the
      last voice). */
  function StopIndex(voices: seq<Voice>, current: string): (i: nat)
    requires voices != []
    ensures i < |voices|
    ensures forall j :: 0 <= j < i ==> voices[j].id != current
    ensures voices[i].id == current || (i == |voices| - 1 && forall j :: 0 <= j < |voices| ==> voices[j].id != current)
    decreases |voices|
  {
    if voices[0].id == current || |voices| == 1 then 0
    else 1 + StopIndex(voices[1..], current)
  }

  /** A voice's gender as the getter reports it: the text "None" when it
      declares none. */
  function GenderText(v: Voice): string
  {
    match v.gender
    case Some(g) => g
    case None => "None"
  }

  /** The `sex` getter's result. */
  function SexOf(voices: seq<Voice>, current: string): Answer
  {
    if voices == [] then UnboundVoice else Answer(GenderText(voices[StopIndex(voices, current)]))
  }

  /** Selecting the first or second installed voice (the setter's choice for
      "male" and "female") reads back that voice's gender, provided the two
      ids differ; with equal ids "female" reads back the first voice. */
  lemma SexReadsBack(voices: seq<Voice>)
    requires |voices| >= 2
    ensures SexOf(voices, voices[0].id) == Answer(GenderText(voices[0]))
    ensures voices[0].id != voices[1].id ==> SexOf(voices, voices[1].id) == Answer(GenderText(voices[1]))
    ensures voices[0].id == voices[1].id ==> SexOf(voices, voices[1].id) == Answer(GenderText(voices[0]))
  {
    if voices[0].id != voices[1].id {
      assert StopIndex(voices[1..], voices[1].id) == 0;
    }
  }

  class RobotVoice {
    /** The engine's installed voices. */
    const voices: seq<Voice>
    /** The engine's "voice", "rate" and "volume" properties. */
    var voice: string
    var rate: int
    var volume: real

    /** The setters keep the rate in [25, 300] and the volume in [0, 1]. */
    predicate Valid()
      reads this
    {
      SpeedMin <= rate <= SpeedMax && VolumeMin <= volume <= VolumeMax
    }

    /** The constructor: the engine starts on `engineVoice` and is then set
        through the three setters with the sanitised arguments. Choosing a
        voice needs the first installed voice, and the second for "female";
        `NewRobotVoice` gives the IndexError raised without them. */
    constructor (voices: seq<Voice>, engineVoice: string, engineRate: int, engineVolume: real,
                 sex: string := "male", rate: int := 200, volume: real := 1.0)
      requires |voices| >= 1 && (sex == "female" ==> |voices| >= 2)
      ensures this.voices == voices
      ensures voice == (if InitialSex(sex) == "female" then voices[1].id else voices[0].id)
      ensures this.rate == InitialRate(rate) && this.volume == InitialVolume(volume)
      ensures Valid()
    {
      this.voices := voices;
      voice, this.rate, this.volume := engineVoice, engineRate, engineVolume;
      new;
      var chosen := if sex in ["male", "female"] then sex else "male";
      var indexError := SetSex(chosen);
      SetRate(if rate >= SpeedMin && rate <= SpeedMax then rate else 200);
      SetVolume(if volume >= VolumeMin && volume <= VolumeMax then volume else VolumeMax);
    }

    /** The `sex` setter: the first installed voice for "male", the second
        for "female", nothing for any other text. An IndexError when that
        voice is not installed, leaving the voice as it was. */
    method SetSex(value: string) returns (indexError: bool)
      modifies this`voice
      ensures indexError <==> (value == "male" && |voices| < 1) || (value == "female" && |voices| < 2)
      ensures value == "male" && !indexError ==> voice == voices[0].id
      ensures value == "female" && !indexError ==> voice == voices[1].id
      ensures (value != "female" && value != "male") || indexError ==> voice == old(voice)
    {
      indexError := false;
      if value == "male" {
        if |voices| < 1 {
          return true;
        }
        voice := voices[0].id;
      } else if value == "female" {
        if |voices| < 2 {
          return true;
        }
        voice := voices[1].id;
      }
    }

    /** The `sex` getter: search the installed voices for the selected one. */
    method Sex() returns (answer: Answer)
      ensures answer == SexOf(voices, voice)
    {
      if voices == [] {
        return UnboundVoice;
      }
      var i := 0;
      while i < |voices| - 1 && voices[i].id != voice
        invariant 0 <= i < |voices|
        invariant forall j :: 0 <= j < i ==> voices[j].id != voice
        invariant StopIndex(voices, voice) >= i
      {
        i := i + 1;
      }
      answer := Answer(GenderText(voices[i]));
    }

    /** The `rate` setter: clamped to [25, 300]. */
    method SetRate(value: int)
      modifies this`rate
      ensures rate == ClampInt(value, SpeedMin, SpeedMax)
      ensures old(Valid()) ==> Valid()
    {
      var v := if value > SpeedMin then value else SpeedMin;
      v := if v < SpeedMax then v else SpeedMax;
      rate := v;
    }

    /** The `volume` setter: clamped to [0, 1]. */
    method SetVolume(value: real)
      modifies this`volume
      ensures volume == Clamp(value, VolumeMin, VolumeMax)
      ensures old(Valid()) ==> Valid()
    {
      var v := Max(value, VolumeMin);
      v := Min(v, VolumeMax);
      volume := v;
    }

    /** The `rate` and `volume` getters: the engine's rate, in [25, 300],
        and its volume, in [0, 1]. */
    function Rate(): (r: int)
      requires Valid()
      reads this
      ensures SpeedMin <= r <= SpeedMax
    {
      rate
    }

    function Volume(): (v: real)
      requires Valid()
      reads this
      ensures VolumeMin <= v <= VolumeMax
    {
      volume
    }
  }

  /** `RobotVoice(...)`: the constructor's `sex` setter raises IndexError
      (None here) when the voice it selects is not installed, that is with no
      voice at all, or with a single voice and "female"; otherwise a voice set
      up as the constructor describes. */
  method NewRobotVoice(voices: seq<Voice>, engineVoice: string, engineRate: int, engineVolume: real,
                       sex: string := "male", rate: int := 200, volume: real := 1.0)
    returns (r: Option<RobotVoice>)
    ensures r.None? <==> |voices| < 1 || (sex == "female" && |voices| < 2)
    ensures r.Some? ==>
              && fresh(r.value) && r.value.voices == voices
              && r.value.voice == (if sex == "female" then voices[1].id else voices[0].id)
              && r.value.rate == InitialRate(rate) && r.value.volume == InitialVolume(volume)
              && r.value.Valid()
  {
    var chosen := if sex in ["male", "female"] then sex else "male";
    if (chosen == "male" && |voices| < 1) || (chosen == "female" && |voices| < 2) {
      return None;
    }
    var v := new RobotVoice(voices, engineVoice, engineRate, engineVolume, sex, rate, volume);
    return Some(v);
  }

  /** Setting the rate keeps it in [25, 300] and leaves an in-range value
      unchanged; setting what was read back changes nothing. */
  lemma RateSetterInRange(value: int)
    ensures SpeedMin <= ClampInt(value, SpeedMin, SpeedMax) <= SpeedMax
    ensures SpeedMin <= value <= SpeedMax ==> ClampInt(value, SpeedMin, SpeedMax) == value
    ensures ClampInt(ClampInt(value, SpeedMin, SpeedMax), SpeedMin, SpeedMax) == ClampInt(value, SpeedMin, SpeedMax)
  {
  }
}
