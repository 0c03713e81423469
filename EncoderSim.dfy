/** The simulated encoder of balance_bot/encoder_simulator.py. Instead of
    counting slots it integrates a fixed rate of change of position, taken
    from the motor's value once at construction, over the wall-clock time
    between loop iterations. The clock readings and the moments at which
    `stop` is called during the loop's sleep are inputs. */
module EncoderSim {
  import opened EncoderGeneral

  /** The position reached from `position` after `elapsed` seconds at `rate`. */
  function Advance(position: real, rate: real, elapsed: real): real
  {
    position + rate * elapsed
  }

  /** Two advances at the same rate make one over the summed time. */
  lemma AdvanceTwice(position: real, rate: real, a: real, b: real)
    ensures Advance(Advance(position, rate, a), rate, b) == Advance(position, rate, a + b)
  {
    assert rate * a + rate * b == rate * (a + b);
  }

  /** The samples the encoding loop appends, one per clock reading, starting
      from position `p` recorded at time `t`: each new position is the
      previous one plus `rate` times the time since the previous sample. */
  function Trajectory(p: real, t: real, rate: real, clock: seq<real>): (s: seq<Sample>)
    ensures |s| == |clock|
    ensures forall i :: 0 <= i < |s| ==> s[i].time == clock[i]
  {
    if clock == [] then []
    else
      var before := Trajectory(p, t, rate, clock[..|clock| - 1]);
      var now := clock[|clock| - 1];
      var last := if before == [] then Sample(t, p) else before[|before| - 1];
      before + [Sample(now, Advance(last.position, rate, now - last.time))]
  }

  /** The increments telescope: every recorded position is the starting one
      plus `rate` times the time elapsed since the start. */
  lemma {:induction false} TrajectoryTelescopes(p: real, t: real, rate: real, clock: seq<real>)
    ensures forall i :: 0 <= i < |clock| ==> Trajectory(p, t, rate, clock)[i].position == Advance(p, rate, clock[i] - t)
  {
    if clock != [] {
      var front := clock[..|clock| - 1];
      var now := clock[|clock| - 1];
      TrajectoryTelescopes(p, t, rate, front);
      var s := Trajectory(p, t, rate, clock);
      var before := Trajectory(p, t, rate, front);
      assert s[..|s| - 1] == before;
      if front != [] {
        var prev := before[|front| - 1];
        AdvanceTwice(p, rate, prev.time - t, now - prev.time);
      }
    }
  }

  /** A motor standing still when the encoder was built leaves every
      simulated position where it started. */
  lemma {:induction false} StillMotorHoldsPosition(p: real, t: real, clock: seq<real>)
    ensures forall i :: 0 <= i < |clock| ==> Trajectory(p, t, 0.0, clock)[i].position == p
  {
    if clock != [] {
      StillMotorHoldsPosition(p, t, clock[..|clock| - 1]);
    }
  }

  /** One more clock reading appends one sample, integrated from the newest
      sample so far: the starting one `(t, p)` while there is none. */
  lemma TrajectoryNext(start: seq<Sample>, p: real, t: real, rate: real, clock: seq<real>, k: nat, samples: seq<Sample>)
    requires k < |clock| && start != [] && start[|start| - 1] == Sample(t, p)
    requires samples == start + Trajectory(p, t, rate, clock[..k])
    ensures var last := samples[|samples| - 1];
            samples + [Sample(clock[k], Advance(last.position, rate, clock[k] - last.time))]
              == start + Trajectory(p, t, rate, clock[..k + 1])
  {
    var c := clock[..k + 1];
    assert c[..|c| - 1] == clock[..k];
    assert c[|c| - 1] == clock[k];
    var before := Trajectory(p, t, rate, clock[..k]);
    if before != [] {
      assert samples[|samples| - 1] == before[|before| - 1];
    }
  }

  /** How many iterations the encoding loop runs: the flag is read only
      after the sleep, so always at least one, and then up to and including
      the first sleep during which `stop` is called. */
  function Rounds(running: bool, stopRequests: seq<bool>): (n: nat)
    requires stopRequests != [] && (!running || true in stopRequests)
    ensures 1 <= n <= |stopRequests|
    ensures !running ==> n == 1
    ensures running ==> stopRequests[n - 1] && forall i :: 0 <= i < n - 1 ==> !stopRequests[i]
  {
    if !running || stopRequests[0] then 1
    else 1 + Rounds(running, stopRequests[1..])
  }

  class EncoderSim {
    /** The inherited kinematic history (the Python class extends it). */
    const history: EncoderGeneral
    /** Position change per second: the motor's value at construction times
        the configured ratio. It is never read again. */
    const positionChangeRate: real
    const sampleFreq: real
    var running: bool
    var newTime: real
    var oldTime: real
    var timeDelta: real
    var oldPosition: real
    var newPosition: real

    ghost predicate Valid()
      reads this, history, history.positionHistory
    {
      history.Valid()
    }

    /** Builds the history, fixes the rate from `motorValue`, resets the
        history and starts the loop, which runs over `clock` until a `stop`
        request. */
    constructor (motorValue: real, ratio: real, clock: seq<real>, stopRequests: seq<bool>,
                 sampleFreq: real := 100.0, maxNoPositionPoints: nat := 10_000, averageDuration: real := 1.0)
      requires maxNoPositionPoints >= 1
      requires |clock| == |stopRequests| && true in stopRequests
      ensures Valid() && fresh(history)
      ensures positionChangeRate == motorValue * ratio && this.sampleFreq == sampleFreq
      ensures history.maxNoPositionPoints == maxNoPositionPoints && history.averageDuration == averageDuration
      ensures !running
      ensures history.samples
                == [Sample(0.0, 0.0)] + Trajectory(0.0, 0.0, positionChangeRate, clock[..Rounds(true, stopRequests)])
    {
      history := new EncoderGeneral(maxNoPositionPoints, averageDuration);
      positionChangeRate := motorValue * ratio;
      this.sampleFreq := sampleFreq;
      new;
      history.ResetHistory();
      Start(clock, stopRequests);
    }

    /** The body of one encoding-loop iteration before the sleep: read the
        clock, integrate the rate since the newest row and record it. */
    method EncodingStep(now: real)
      requires Valid()
      modifies this`newTime, this`oldTime, this`timeDelta, this`oldPosition, this`newPosition,
               history`currentHistoryLen, history`samples, history.positionHistory
      ensures Valid()
      ensures oldTime == old(history.LastTime()) && oldPosition == old(history.LastPosition())
      ensures newTime == now && timeDelta == now - oldTime
      ensures newPosition == Advance(oldPosition, positionChangeRate, timeDelta)
      ensures history.samples == old(history.samples) + [Sample(now, newPosition)]
      ensures history.LastPosition() == newPosition && history.LastTime() == now
    {
      newTime := now;
      oldTime := history.positionHistory[history.currentHistoryLen - 1, TimeCol];
      timeDelta := newTime - oldTime;
      oldPosition := history.positionHistory[history.currentHistoryLen - 1, PosCol];
      newPosition := oldPosition + positionChangeRate * timeDelta;
      history.AddPosition(newTime, newPosition);
    }

    /** One iteration of `_encoding_loop`: the step, then the sleep, during
        which `stop` may be called. */
    method EncodingRound(ghost start: seq<Sample>, ghost p: real, ghost t: real, clock: seq<real>, k: nat, stop: bool)
      requires Valid() && k < |clock| && start != [] && start[|start| - 1] == Sample(t, p)
      requires history.samples == start + Trajectory(p, t, positionChangeRate, clock[..k])
      modifies this`running, this`newTime, this`oldTime, this`timeDelta, this`oldPosition, this`newPosition,
               history`currentHistoryLen, history`samples, history.positionHistory
      ensures Valid()
      ensures history.samples == start + Trajectory(p, t, positionChangeRate, clock[..k + 1])
      ensures running == (old(running) && !stop)
      ensures newTime == clock[k] && newPosition == history.LastPosition()
    {
      TrajectoryNext(start, p, t, positionChangeRate, clock, k, history.samples);
      EncodingStep(clock[k]);
      if stop {
        running := false;
      }
    }

    /** `_encoding_loop`: read the clock, integrate the rate over the time
        since the newest row, record it, sleep, and leave once `running` is
        false. `stopRequests[i]` says whether `stop` ran during the i-th
        sleep. */
    method EncodingLoop(clock: seq<real>, stopRequests: seq<bool>) returns (rounds: nat)
      requires Valid()
      requires |clock| == |stopRequests| >= 1 && (!running || true in stopRequests)
      modifies this`running, this`newTime, this`oldTime, this`timeDelta, this`oldPosition, this`newPosition,
               history`currentHistoryLen, history`samples, history.positionHistory
      ensures Valid() && !running
      ensures rounds == Rounds(old(running), stopRequests)
      ensures history.samples
                == old(history.samples)
                   + Trajectory(old(history.LastPosition()), old(history.LastTime()), positionChangeRate, clock[..rounds])
      ensures newTime == clock[rounds - 1] && newPosition == history.LastPosition()
    {
      ghost var n := Rounds(running, stopRequests);
      ghost var start := history.samples;
      ghost var p := history.LastPosition();
      ghost var t := history.LastTime();
      ghost var wasRunning := running;
      rounds := 0;
      while true
        invariant Valid()
        invariant rounds < n
        invariant rounds > 0 ==> running && wasRunning && !stopRequests[rounds - 1]
        invariant rounds == 0 ==> running == wasRunning
        invariant history.samples == start + Trajectory(p, t, positionChangeRate, clock[..rounds])
        decreases n - rounds
      {
        EncodingRound(start, p, t, clock, rounds, stopRequests[rounds]);
        rounds := rounds + 1;
        if !running {
          break;
        }
      }
    }

    /** `start`: set the running flag, restart the history from the zero
        origin and run the encoding loop to its end. */
    method Start(clock: seq<real>, stopRequests: seq<bool>)
      requires history.maxNoPositionPoints >= 1
      requires |clock| == |stopRequests| && true in stopRequests
      modifies this`running, this`newTime, this`oldTime, this`timeDelta, this`oldPosition, this`newPosition,
               history`positionHistory, history`currentHistoryLen, history`samples
      ensures Valid() && !running && fresh(history.positionHistory)
      ensures history.samples
                == [Sample(0.0, 0.0)] + Trajectory(0.0, 0.0, positionChangeRate, clock[..Rounds(true, stopRequests)])
    {
      running := true;
      history.ResetHistory();
      var rounds := EncodingLoop(clock, stopRequests);
    }

    /** `stop`: only clears the running flag. */
    method Stop()
      modifies this`running
      ensures !running
    {
      running := false;
    }
  }
}
