/** The turntable controller (src/components/turntable/TurntableController.py), with the
    turntable's speed (src/components/turntable/Turntable.py) folded in as a field. */
module Turntables {
  import opened Faults
  import opened Config
  import Slew

  predicate InSpeedRange(rpm: real)
  {
    TurntableMinRotationsPerMinute <= rpm <= TurntableMaxRotationsPerMinute
  }

  /** The move has no clamp, yet a speed and a target both within the speed range keep the speed
      within it. */
  lemma UpdateStaysInRange(rpm: real, target: real)
    requires InSpeedRange(rpm) && InSpeedRange(target)
    ensures InSpeedRange(Slew.Step(rpm, target, TurntableStepInRotationsPerMinute))
  {
  }

  /** Repeated updates reach the target after ceil(|target - rpm| / step) of them, not before,
      and then keep it. */
  lemma UpdatesReachTarget(rpm: real, target: real, k: nat)
    ensures Slew.Iterate(rpm, target, TurntableStepInRotationsPerMinute, k) == target
        <==> (k as real) * TurntableStepInRotationsPerMinute >= Slew.Abs(target - rpm)
  {
    Slew.IterateReachesTarget(rpm, target, TurntableStepInRotationsPerMinute, k);
  }

  class TurntableController {
    /** The turntable's current speed. */
    var rpm: real
    var targetRpm: real

    /** A fresh controller: the turntable stands still and the target is 0. */
    constructor ()
      ensures rpm == 0.0 && targetRpm == 0.0
    {
      rpm := 0.0;
      targetRpm := 0.0;
    }

    /** `update`: one slew step toward the target; the target is kept. */
    method Update()
      modifies this
      ensures targetRpm == old(targetRpm)
      ensures rpm == Slew.Step(old(rpm), targetRpm, TurntableStepInRotationsPerMinute)
    {
      if rpm != targetRpm {
        if Slew.Abs(targetRpm - rpm) <= TurntableStepInRotationsPerMinute {
          rpm := targetRpm;
        } else if targetRpm > rpm {
          rpm := rpm + TurntableStepInRotationsPerMinute;
        } else {
          rpm := rpm - TurntableStepInRotationsPerMinute;
        }
      }
    }

    /** `set_speed`: a speed outside the range raises ValueError and changes nothing; otherwise it
        becomes the target (a speed equal to the target is a silent no-op). */
    method SetSpeed(speed: real) returns (r: Status)
      modifies this
      ensures rpm == old(rpm)
      ensures r.Raise? <==> !InSpeedRange(speed)
      ensures r.Raise? ==> r.fault.ValueError? && targetRpm == old(targetRpm)
      ensures r.Return? ==> targetRpm == speed
    {
      if speed < TurntableMinRotationsPerMinute || speed > TurntableMaxRotationsPerMinute {
        return Raise(ValueError("Rotations per minute must be between -5 and 5."));
      }
      if speed == targetRpm {
        return Done;
      }
      targetRpm := speed;
      r := Done;
    }

    /** `stop`: request speed 0, leaving the current speed to the slew. */
    method Stop()
      modifies this
      ensures targetRpm == 0.0 && rpm == old(rpm)
    {
      var r := SetSpeed(0.0);
    }

    /** `emergency_stop`: stand still at once. */
    method EmergencyStop()
      modifies this
      ensures rpm == 0.0 && targetRpm == 0.0
    {
      rpm := 0.0;
      targetRpm := 0.0;
    }
  }
}
