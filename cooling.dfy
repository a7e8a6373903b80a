/** The cooling-fan controller (src/components/cooling/CoolingFanController.py): a temperature
    to power-share map, a target that heat only raises, and a slew step clamped to [0, 1]. */
module Cooling {
  import opened Config
  import opened Devices
  import opened Sensors
  import Slew

  /** `magnetron_temp_to_power_share`: 0 up to 50 degrees, rising at 1/200 per degree to 0.25 at
      100, then at 0.015 per degree to 1 at 150, and 1 beyond. */
  function TempToPowerShare(t: real): (r: real)
    ensures 0.0 <= r <= 1.0
    ensures t <= 50.0 ==> r == 0.0
    ensures t >= 150.0 ==> r == 1.0
  {
    if t <= 50.0 then 0.0
    else if t <= 100.0 then (t - 50.0) / 200.0
    else if t < 150.0 then 0.25 + (t - 100.0) * 0.015
    else 1.0
  }

  /** A hotter magnetron never asks for less cooling. */
  lemma TempToPowerShareMonotone(a: real, b: real)
    requires a <= b
    ensures TempToPowerShare(a) <= TempToPowerShare(b)
  {
  }

  /** The map changes by at most 0.015 per degree, so it has no jump (in particular at 100 and
      150 degrees, where the pieces meet). */
  lemma TempToPowerShareLipschitz(a: real, b: real)
    requires a <= b
    ensures TempToPowerShare(b) - TempToPowerShare(a) <= 0.015 * (b - a)
  {
    var m1, m2 := Slew.Max(a, Slew.Min(b, 100.0)), Slew.Max(a, Slew.Min(b, 150.0));
    PieceSlope(a, m1);
    PieceSlope(m1, m2);
    PieceSlope(m2, b);
  }

  /** Within one piece of the map (both points on the same side of 100 and of 150), the slope is
      at most 0.015. */
  lemma PieceSlope(a: real, b: real)
    requires a <= b
    requires (b <= 100.0) || (100.0 <= a && b <= 150.0) || (150.0 <= a)
    ensures TempToPowerShare(b) - TempToPowerShare(a) <= 0.015 * (b - a)
  {
  }

  /** The values the controller's tests expect. */
  lemma TempToPowerShareExamples()
    ensures TempToPowerShare(-300.0) == 0.0 && TempToPowerShare(50.0) == 0.0
    ensures TempToPowerShare(75.0) == 0.125 && TempToPowerShare(100.0) == 0.25
    ensures TempToPowerShare(125.0) == 0.625 && TempToPowerShare(149.9) == 0.9985
    ensures TempToPowerShare(150.0) == 1.0 && TempToPowerShare(200.0) == 1.0
  {
  }

  class CoolingFanController {
    const fan: CoolingFan
    const sensors: SensorManager
    var targetPowerShare: real

    constructor (fan: CoolingFan, sensors: SensorManager)
      ensures this.fan == fan && this.sensors == sensors && targetPowerShare == 0.0
    {
      this.fan := fan;
      this.sensors := sensors;
      targetPowerShare := 0.0;
    }

    /** `set_target_power_share`: stores the value as given, without validation. */
    method SetTargetPowerShare(share: real)
      modifies this
      ensures targetPowerShare == share
    {
      targetPowerShare := share;
    }

    /** `update`: the target rises to what the average magnetron temperature asks for (heat
        never lowers it); the fan moves one step toward the target and is clamped to [0, 1]. */
    method Update()
      modifies this, fan
      ensures targetPowerShare == Slew.Max(old(targetPowerShare),
                TempToPowerShare((sensors.MagnetronTemp1() + sensors.MagnetronTemp2()) / 2.0))
      ensures targetPowerShare >= old(targetPowerShare)
      ensures fan.powerShare == Slew.Clamp(Slew.Step(old(fan.powerShare), targetPowerShare, CoolingFanStepInPercent), 0.0, 1.0)
      ensures 0.0 <= fan.powerShare <= 1.0
    {
      var temp := (sensors.MagnetronTemp1() + sensors.MagnetronTemp2()) / 2.0;
      if targetPowerShare < TempToPowerShare(temp) {
        targetPowerShare := TempToPowerShare(temp);
      }
      if fan.powerShare != targetPowerShare {
        if Slew.Abs(targetPowerShare - fan.powerShare) <= CoolingFanStepInPercent {
          fan.powerShare := targetPowerShare;
        } else if targetPowerShare > fan.powerShare {
          fan.powerShare := fan.powerShare + CoolingFanStepInPercent;
        } else {
          fan.powerShare := fan.powerShare - CoolingFanStepInPercent;
        }
      }
      fan.powerShare := Slew.Max(0.0, Slew.Min(fan.powerShare, 1.0));
    }

    /** `start`: ask for 20 % cooling. */
    method Start()
      modifies this
      ensures targetPowerShare == 0.2
    {
      targetPowerShare := 0.2;
    }

    /** `stop`: ask for no cooling. */
    method Stop()
      modifies this
      ensures targetPowerShare == 0.0
    {
      targetPowerShare := 0.0;
    }
  }
}
