/** The reflector controller (src/components/reflector/ReflectorController.py), with the
    reflector's angle (src/components/reflector/Reflector.py) folded in as a field. */
module Reflectors {
  import opened Faults
  import opened Config
  import Slew

  predicate InAngleRange(angle: real)
  {
    ReflectorMinAngleInDegrees <= angle <= ReflectorMaxAngleInDegrees
  }

  /** One `update`: the slew step, then the clamp to the angle range. */
  function UpdatedAngle(angle: real, target: real): (r: real)
    ensures InAngleRange(r)
    ensures InAngleRange(target) ==> Slew.Abs(target - r) <= Slew.Abs(target - angle)
    ensures InAngleRange(angle) && InAngleRange(target) ==> r == Slew.Step(angle, target, ReflectorStepInDegrees)
  {
    var stepped := Slew.Step(angle, target, ReflectorStepInDegrees);
    if InAngleRange(target) then
      Slew.ClampTowardTarget(stepped, target, ReflectorMinAngleInDegrees, ReflectorMaxAngleInDegrees);
      Slew.Clamp(stepped, ReflectorMinAngleInDegrees, ReflectorMaxAngleInDegrees)
    else
      Slew.Clamp(stepped, ReflectorMinAngleInDegrees, ReflectorMaxAngleInDegrees)
  }

  /** For an in-range target, repeated updates reach it within ceil(|target - angle| / step),
      from any angle, and then keep it. */
  lemma UpdatesReachTarget(angle: real, target: real, k: nat)
    requires InAngleRange(target)
    requires (k as real) * ReflectorStepInDegrees >= Slew.Abs(target - angle)
    ensures Slew.IterateClamped(angle, target, ReflectorStepInDegrees,
                                ReflectorMinAngleInDegrees, ReflectorMaxAngleInDegrees, k) == target
    ensures UpdatedAngle(target, target) == target
  {
    Slew.IterateClampedReachesTarget(angle, target, ReflectorStepInDegrees,
                                     ReflectorMinAngleInDegrees, ReflectorMaxAngleInDegrees, k);
  }

  class ReflectorController {
    var angle: real
    var targetAngle: real

    /** A fresh controller: angle 0 and target 0. */
    constructor ()
      ensures angle == 0.0 && targetAngle == 0.0
    {
      angle := 0.0;
      targetAngle := 0.0;
    }

    /** `update`: one slew step toward the target, then the clamp; the result is in range even
        when the angle was not. */
    method Update()
      modifies this
      ensures targetAngle == old(targetAngle)
      ensures angle == UpdatedAngle(old(angle), targetAngle)
    {
      if angle != targetAngle {
        if Slew.Abs(targetAngle - angle) <= ReflectorStepInDegrees {
          angle := targetAngle;
        } else if targetAngle > angle {
          angle := angle + ReflectorStepInDegrees;
        } else {
          angle := angle - ReflectorStepInDegrees;
        }
      }
      angle := Slew.Max(ReflectorMinAngleInDegrees, Slew.Min(ReflectorMaxAngleInDegrees, angle));
    }

    /** `set_angle`: an angle outside the range raises ValueError and changes nothing; an angle
        equal to the target does nothing; a new angle becomes the target, and then the log call
        (`logger.info`, which the logger does not define) raises an AttributeError. */
    method SetAngle(a: real) returns (r: Status)
      modifies this
      ensures angle == old(angle)
      ensures !InAngleRange(a) ==> r.Raise? && r.fault.ValueError? && targetAngle == old(targetAngle)
      ensures InAngleRange(a) && a == old(targetAngle) ==> r == Done && targetAngle == old(targetAngle)
      ensures InAngleRange(a) && a != old(targetAngle) ==> r == Raise(AttributeError("info")) && targetAngle == a
    {
      if a < ReflectorMinAngleInDegrees || a > ReflectorMaxAngleInDegrees {
        return Raise(ValueError("Angle must be between -90.0 and 90.0 degrees."));
      }
      if a == targetAngle {
        return Done;
      }
      targetAngle := a;
      r := Raise(AttributeError("info"));
    }

    /** `stop`: request angle 0 through `set_angle`, so it raises the same AttributeError unless
        the target already is 0. */
    method Stop() returns (r: Status)
      modifies this
      ensures angle == old(angle) && targetAngle == 0.0
      ensures r.Raise? <==> old(targetAngle) != 0.0
      ensures r.Raise? ==> r.fault == AttributeError("info")
    {
      r := SetAngle(0.0);
    }

    /** `emergency_stop`: freeze where the reflector is, so that an update of an in-range angle
        no longer moves it. */
    method EmergencyStop()
      modifies this
      ensures angle == old(angle) && targetAngle == angle
      ensures InAngleRange(angle) ==> UpdatedAngle(angle, targetAngle) == angle
    {
      targetAngle := angle;
    }
  }
}
