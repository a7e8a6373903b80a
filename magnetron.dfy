/** The magnetron's duty-cycle window (src/components/magnetron/MagnetronRingbuffer.py) and the
    modulator that switches the magnetron on and off against a target power share under a
    safety interlock (src/components/magnetron/MagnetronModulator.py). */
module Magnetrons {
  import opened Faults
  import opened Config
  import opened Ringbuffers
  import opened Devices
  import opened Sensors
  import Slew

  /** The number of `true` samples in `s`. */
  function Trues(s: seq<bool>): (n: nat)
    ensures n <= |s|
    decreases |s|
  {
    if s == [] then 0 else (if s[0] then 1 else 0) + Trues(s[1..])
  }

  /** The share of `true` samples in a window; 0 for an empty window. */
  function Share(window: seq<bool>): (r: real)
    ensures 0.0 <= r <= 1.0
  {
    if window == [] then 0.0
    else
      var t, n := Trues(window) as real, |window| as real;
      assert t <= n;
      t / n
  }

  lemma {:induction false} TruesAppend(s: seq<bool>, x: bool)
    ensures Trues(s + [x]) == Trues(s) + (if x then 1 else 0)
    decreases |s|
  {
    if s != [] {
      assert (s + [x])[1..] == s[1..] + [x];
      TruesAppend(s[1..], x);
    } else {
      assert s + [x] == [x];
    }
  }

  lemma {:induction false} TruesNone(s: seq<bool>)
    ensures Trues(s) == 0 <==> forall i :: 0 <= i < |s| ==> !s[i]
    decreases |s|
  {
    if s != [] {
      TruesNone(s[1..]);
      assert forall i :: 1 <= i < |s| ==> s[i] == s[1..][i - 1];
    }
  }

  lemma {:induction false} TruesAll(s: seq<bool>)
    ensures Trues(s) == |s| <==> forall i :: 0 <= i < |s| ==> s[i]
    decreases |s|
  {
    if s != [] {
      TruesAll(s[1..]);
      assert forall i :: 1 <= i < |s| ==> s[i] == s[1..][i - 1];
    }
  }

  /** The share is 1 exactly for a non-empty window of `true` samples, and 0 exactly for a
      window without one (the empty window included). */
  lemma ShareExtremes(window: seq<bool>)
    ensures Share(window) == 1.0 <==> window != [] && forall i :: 0 <= i < |window| ==> window[i]
    ensures Share(window) == 0.0 <==> forall i :: 0 <= i < |window| ==> !window[i]
  {
    TruesAll(window);
    TruesNone(window);
    if window != [] {
      var t, n := Trues(window) as real, |window| as real;
      assert Share(window) == t / n;
      assert t / n == 1.0 <==> t == n;
      assert t / n == 0.0 <==> t == 0.0;
    }
  }

  /** The window after one more sample: the sample is appended, and the oldest one drops out once
      the window is full. */
  lemma LatestAppend<T>(history: seq<T>, x: T, size: nat)
    requires size > 0
    ensures Latest(history + [x], size)
         == (if |history| < size then Latest(history, size) else Latest(history, size)[1..]) + [x]
  {
    var h := history + [x];
    if |history| >= size {
      assert h[|h| - size..] == history[|history| - size..][1..] + [x];
    }
  }

  /** The duty-cycle bound the interlock keeps: at most one `true` sample over the allowed share
      of the window. */
  ghost predicate DutyBounded(window: seq<bool>)
  {
    Trues(window) as real <= MagnetronMaxPowerSharePerMinute * (|window| as real) + 1.0
  }

  /** Recording a sample keeps the window within the bound, provided a `true` sample is only
      recorded while the share is within the limit, as the interlock guarantees. */
  lemma DutyBoundPreserved(history: seq<bool>, x: bool, size: nat)
    requires size > 0
    requires DutyBounded(Latest(history, size))
    requires x ==> Share(Latest(history, size)) <= MagnetronMaxPowerSharePerMinute
    ensures DutyBounded(Latest(history + [x], size))
  {
    var w := Latest(history, size);
    LatestAppend(history, x, size);
    var kept := if |history| < size then w else w[1..];
    TruesAppend(kept, x);
    if |history| >= size {
      assert w == [w[0]] + w[1..];
      TruesAppend([w[0]], x);
      assert Trues(w) == (if w[0] then 1 else 0) + Trues(w[1..]);
    }
    assert Trues(kept) <= Trues(w);
    assert |kept| + 1 >= |w|;
    if x {
      if w != [] {
        var t, n := Trues(w) as real, |w| as real;
        assert t / n <= MagnetronMaxPowerSharePerMinute;
        ShareBound(t, n, MagnetronMaxPowerSharePerMinute);
      }
    }
  }

  lemma ShareBound(t: real, n: real, limit: real)
    requires n > 0.0 && t / n <= limit
    ensures t <= limit * n
  {
    assert t == (t / n) * n;
  }

  /** The capacity-3 window from the ring-buffer tests. */
  lemma ShareExamples()
    ensures Share([true, false, true]) == 2.0 / 3.0
    ensures Share(Latest([true, true, true, false, false, false], 5)) == 2.0 / 5.0
  {
    assert Trues([true, false, true]) == 2 by {
      assert [true, false, true][1..] == [false, true];
      assert [false, true][1..] == [true];
      assert [true][1..] == [];
    }
    var w := Latest([true, true, true, false, false, false], 5);
    assert w == [true, true, false, false, false];
    assert Trues(w) == 2 by {
      assert w[1..] == [true, false, false, false];
      assert w[1..][1..] == [false, false, false];
      assert w[1..][1..][1..] == [false, false];
      assert w[1..][1..][1..][1..] == [false];
      assert w[1..][1..][1..][1..][1..] == [];
    }
  }

  class MagnetronRingbuffer {
    const ring: Ringbuffer<bool>
    /** How many slots hold a sample: saturates at the capacity. */
    var filled: nat

    ghost predicate Valid()
      reads this, ring, ring.buffer
    {
      ring.Valid() && filled == (if |ring.history| <= ring.size then |ring.history| else ring.size)
    }

    constructor (size: nat)
      requires size > 0
      ensures Valid() && fresh(ring) && fresh(ring.buffer)
      ensures ring.size == size && ring.history == [] && filled == 0
    {
      ring := new Ringbuffer<bool>(size);
      filled := 0;
    }

    /** `add`: record one sample. Only booleans are accepted, which the element type enforces. */
    method Add(item: bool)
      requires Valid()
      modifies this, ring, ring.buffer
      ensures Valid()
      ensures ring.history == old(ring.history) + [item]
      ensures filled == if old(filled) < ring.size then old(filled) + 1 else old(filled)
    {
      ring.Add(Some(item));
      filled := if filled < ring.size then filled + 1 else filled;
    }

    /** The samples in the window, oldest first. */
    function Get(): (r: seq<bool>)
      requires Valid()
      reads this, ring, ring.buffer
      ensures r == Latest(ring.history, ring.size)
      ensures |r| == filled
    {
      ring.Get()
    }

    /** `power_share`: the share of `true` samples among the filled slots, 0 when none is filled. */
    function PowerShare(): (r: real)
      requires Valid()
      reads this, ring, ring.buffer
      ensures r == Share(Get())
      ensures 0.0 <= r <= 1.0
      ensures filled == 0 ==> r == 0.0
    {
      if filled == 0 then 0.0 else (Trues(ring.Get()) as real) / (filled as real)
    }
  }

  /** The interlock of `safety_hazard` as intended: the window's share above its limit, or the
      hotter magnetron sensor above its limit. */
  predicate Hazard(share: real, temp1: real, temp2: real)
  {
    share > MagnetronMaxPowerSharePerMinute || Slew.Max(temp1, temp2) > MagnetronMaxTempInCelsius
  }

  /** `safety_hazard` as written: the share is checked first; past it, the code calls the two
      sensor objects themselves, which are not callable, so the call raises a TypeError. */
  function SafetyHazardAsWritten(share: real): (r: Outcome<bool>)
    ensures r.Return? <==> share > MagnetronMaxPowerSharePerMinute
    ensures r.Return? ==> r.value
  {
    if share > MagnetronMaxPowerSharePerMinute then Return(true)
    else Raise(TypeError("'SimulationSensorMagnetronTemp1' object is not callable"))
  }

  /** As written, no cycle can complete from a share within the limit, and the first cycle starts
      from an empty window (share 0): the modulator's thread dies on its first cycle. */
  lemma SafetyHazardAsWrittenFailsFirstCycle()
    ensures SafetyHazardAsWritten(Share([])).Raise?
    ensures forall share :: share <= MagnetronMaxPowerSharePerMinute ==> SafetyHazardAsWritten(share).Raise?
  {
  }

  /** The sample one cycle records: on exactly when there is no hazard and the draw from [0, 1]
      falls below the target share. */
  predicate CycleSample(hazard: bool, draw: real, target: real)
  {
    !hazard && draw < target
  }

  class MagnetronModulator {
    const history: MagnetronRingbuffer
    const sensors: SensorManager
    const magnetron: Magnetron
    var targetPowerShare: real
    var running: bool
    /** Whether a loop thread was ever started (the `thread` slot is not None). */
    var threadStarted: bool

    /** The power history is a 600-sample window that respects the duty bound. */
    ghost predicate Valid()
      reads history, history.ring, history.ring.buffer
    {
      history.Valid() && history.ring.size == PowerHistorySize &&
      DutyBounded(Latest(history.ring.history, history.ring.size))
    }

    /** The corrected `safety_hazard`: it reads the two magnetron temperatures through the
        manager's getters. */
    predicate SafetyHazard()
      requires Valid()
      reads this, history, history.ring, history.ring.buffer, sensors, sensors.magnetronTemp1, sensors.magnetronTemp2
    {
      Hazard(history.PowerShare(), sensors.MagnetronTemp1(), sensors.MagnetronTemp2())
    }

    /** A fresh modulator: 600 empty sample slots, target 0, not running. */
    constructor (sensors: SensorManager, magnetron: Magnetron)
      ensures Valid() && fresh(history) && fresh(history.ring) && fresh(history.ring.buffer)
      ensures this.sensors == sensors && this.magnetron == magnetron
      ensures history.Get() == [] && targetPowerShare == 0.0 && !running && !threadStarted
    {
      this.sensors := sensors;
      this.magnetron := magnetron;
      history := new MagnetronRingbuffer(PowerHistorySize);
      targetPowerShare := 0.0;
      running := false;
      threadStarted := false;
    }

    /** `set_target_power`: a share outside [0, 1] raises ValueError and changes nothing. */
    method SetTargetPower(share: real) returns (r: Status)
      modifies this`targetPowerShare
      ensures r.Raise? <==> share < 0.0 || share > 1.0
      ensures r.Raise? ==> r.fault.ValueError? && targetPowerShare == old(targetPowerShare)
      ensures r.Return? ==> targetPowerShare == share
    {
      if share < 0.0 || share > 1.0 {
        return Raise(ValueError("Power share must be between 0 and 1"));
      }
      targetPowerShare := share;
      r := Done;
    }

    /** `magnetron_cycle` with the corrected interlock: under a hazard the magnetron is switched
        off and `false` recorded whatever the draw; otherwise the draw decides. Exactly one sample
        is recorded, and the magnetron is left in the state recorded. */
    method Cycle(draw: real)
      requires Valid() && 0.0 <= draw <= 1.0
      modifies history, history.ring, history.ring.buffer, magnetron
      ensures Valid()
      ensures history.ring.history == old(history.ring.history) + [magnetron.active]
      ensures magnetron.active == CycleSample(old(SafetyHazard()), draw, targetPowerShare)
      ensures old(SafetyHazard()) ==> !magnetron.active
      ensures targetPowerShare == 0.0 ==> !magnetron.active
    {
      var hazard := SafetyHazard();
      ghost var before := history.ring.history;
      if hazard || draw >= targetPowerShare {
        DutyBoundPreserved(before, false, history.ring.size);
        history.Add(false);
        magnetron.TurnOff();
      } else {
        DutyBoundPreserved(before, true, history.ring.size);
        history.Add(true);
        magnetron.TurnOn();
      }
    }

    /** `start`: the loop runs from now on. */
    method Start()
      modifies this`running, this`threadStarted
      ensures running && threadStarted
    {
      running := true;
      threadStarted := true;
    }

    /** `stop`: clears `running`; the join returns once the loop has seen it. */
    method Stop()
      modifies this`running
      ensures !running
    {
      running := false;
    }

    /** One pass of `magnetron_loop`: a cycle while `running`, nothing once it is cleared. */
    method LoopTick(draw: real)
      requires Valid() && 0.0 <= draw <= 1.0
      modifies history, history.ring, history.ring.buffer, magnetron
      ensures Valid()
      ensures !running ==> history.ring.history == old(history.ring.history) && magnetron.active == old(magnetron.active)
      ensures running ==> history.ring.history == old(history.ring.history) + [magnetron.active]
    {
      if running {
        Cycle(draw);
      }
    }
  }
}
