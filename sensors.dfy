/** The simulated sensors (src/components/sensor/SimulationSensor*.py) and the SensorManager
    that owns them. Each `random.uniform` draw of an update is its `noise` parameter. */
module Sensors {
  import opened Config
  import opened Devices
  import Slew

  /** One update of an in-cavity reading (the two inner temperatures and the humidity): up by
      0.1 with the magnetron on, down by 0.02 with it off, down another 0.1 with the door open,
      never below `floor`, then the noise. */
  function CavityStep(value: real, floor: real, active: bool, open: bool, noise: real): real
  {
    Slew.Max(floor, value + (if active then 0.1 else -0.02) + (if open then -0.1 else 0.0)) + noise
  }

  /** One update of a magnetron temperature: up by 0.3 with the magnetron on, down by 0.05 with
      it off, down by 0.4 times the fan's power share, never below ambient, then the noise. */
  function MagnetronStep(value: real, active: bool, fanShare: real, noise: real): real
  {
    Slew.Max(AmbientTemperatureInCelsius,
             value + (if active then 0.3 else -0.05) - 0.4 * fanShare) + noise
  }

  /** One update of the weight: 530 g more when the door is open and was last seen closed,
      then the noise. */
  function WeightStep(weight: real, lastOpen: bool, open: bool, noise: real): real
  {
    (if open && !lastOpen then weight + 530.0 else weight) + noise
  }

  /** The noise term of an in-cavity reading is drawn from [-0.01, 0.01]. */
  predicate SmallNoise(noise: real) { -0.01 <= noise <= 0.01 }

  /** An in-cavity reading never ends an update more than the noise below its floor. */
  lemma CavityStepFloor(value: real, floor: real, active: bool, open: bool, noise: real)
    requires SmallNoise(noise)
    ensures CavityStep(value, floor, active, open, noise) >= floor - 0.01
  {
  }

  /** With the magnetron on and the door closed, a reading at or above its floor rises by
      0.1 plus the noise. */
  lemma CavityStepHeats(value: real, floor: real, noise: real)
    requires SmallNoise(noise) && value >= floor
    ensures CavityStep(value, floor, true, false, noise) == value + 0.1 + noise
    ensures CavityStep(value, floor, true, false, noise) > value
  {
  }

  /** With the magnetron off, a reading more than 0.02 above its floor falls (by 0.02 plus the
      noise with the door closed, by 0.12 plus the noise with it open). */
  lemma CavityStepCools(value: real, floor: real, open: bool, noise: real)
    requires SmallNoise(noise)
    requires value > floor + (if open then 0.12 else 0.02)
    ensures CavityStep(value, floor, false, open, noise) == value - (if open then 0.12 else 0.02) + noise
    ensures open ==> CavityStep(value, floor, false, open, noise) < value
  {
  }

  /** Without noise, a reading that the move would take below its floor ends exactly on it. */
  lemma CavityStepClamps(value: real, floor: real, active: bool, open: bool)
    requires value + (if active then 0.1 else -0.02) + (if open then -0.1 else 0.0) <= floor
    ensures CavityStep(value, floor, active, open, 0.0) == floor
  {
  }

  /** A magnetron temperature never ends an update more than the noise below ambient. */
  lemma MagnetronStepFloor(value: real, active: bool, fanShare: real, noise: real)
    requires SmallNoise(noise)
    ensures MagnetronStep(value, active, fanShare, noise) >= AmbientTemperatureInCelsius - 0.01
  {
  }

  /** With the magnetron on and the fan off, a temperature at or above ambient rises by 0.3
      plus the noise; with the fan at full power it falls once 0.1 above ambient. */
  lemma MagnetronStepHeatsAndCools(value: real, noise: real)
    requires SmallNoise(noise) && value >= AmbientTemperatureInCelsius
    ensures MagnetronStep(value, true, 0.0, noise) == value + 0.3 + noise
    ensures value >= AmbientTemperatureInCelsius + 0.1 ==> MagnetronStep(value, true, 1.0, noise) < value
  {
  }

  /** The values the sensor tests expect. */
  lemma MagnetronStepExamples()
    ensures MagnetronStep(AmbientTemperatureInCelsius, true, 0.0, 0.01) == AmbientTemperatureInCelsius + 0.31
    ensures MagnetronStep(AmbientTemperatureInCelsius, true, 0.5, 0.01) == AmbientTemperatureInCelsius + 0.3 - 0.2 + 0.01
    ensures MagnetronStep(AmbientTemperatureInCelsius + 10.0, false, 0.0, -0.01) == AmbientTemperatureInCelsius + 10.0 - 0.06
    ensures MagnetronStep(AmbientTemperatureInCelsius - 5.0, false, 0.0, 0.0) == AmbientTemperatureInCelsius
  {
  }

  /** The weight after a run of updates, given the door state seen by each and its noise. */
  function WeightRun(weight: real, lastOpen: bool, doors: seq<bool>, noises: seq<real>): real
    requires |doors| == |noises|
    decreases |doors|
  {
    if doors == [] then weight
    else WeightRun(WeightStep(weight, lastOpen, doors[0], noises[0]), doors[0], doors[1..], noises[1..])
  }

  /** How many of the door states are an opening: open, with the state before it closed. */
  function Openings(lastOpen: bool, doors: seq<bool>): nat
    decreases |doors|
  {
    if doors == [] then 0
    else (if doors[0] && !lastOpen then 1 else 0) + Openings(doors[0], doors[1..])
  }

  function Sum(s: seq<real>): real
    decreases |s|
  {
    if s == [] then 0.0 else s[0] + Sum(s[1..])
  }

  /** Over any run of updates the weight grows by 530 g per door opening plus the noise: a
      door held open adds the load once, and a door held closed adds only noise. */
  lemma {:induction false} WeightRunCountsOpenings(weight: real, lastOpen: bool, doors: seq<bool>, noises: seq<real>)
    requires |doors| == |noises|
    ensures WeightRun(weight, lastOpen, doors, noises)
         == weight + 530.0 * (Openings(lastOpen, doors) as real) + Sum(noises)
    decreases |doors|
  {
    if doors != [] {
      var next := WeightStep(weight, lastOpen, doors[0], noises[0]);
      WeightRunCountsOpenings(next, doors[0], doors[1..], noises[1..]);
    }
  }

  class Temp1Sensor {
    const magnetron: Magnetron
    const door: Door
    var temperature: real

    constructor (magnetron: Magnetron, door: Door)
      ensures this.magnetron == magnetron && this.door == door
      ensures temperature == AmbientTemperatureInCelsius
    {
      this.magnetron := magnetron;
      this.door := door;
      temperature := AmbientTemperatureInCelsius;
    }

    function Get(): real
      reads this
    {
      temperature
    }

    method Update(noise: real)
      requires SmallNoise(noise)
      modifies this
      ensures temperature == CavityStep(old(temperature), AmbientTemperatureInCelsius, magnetron.active, door.isOpen, noise)
    {
      if magnetron.active {
        temperature := temperature + 0.1;
      } else {
        temperature := temperature - 0.02;
      }
      if door.isOpen {
        temperature := temperature - 0.1;
      }
      temperature := Slew.Max(AmbientTemperatureInCelsius, temperature);
      temperature := temperature + noise;
    }

    method Reset()
      modifies this
      ensures temperature == AmbientTemperatureInCelsius
    {
      temperature := AmbientTemperatureInCelsius;
    }
  }

  class Temp2Sensor {
    const magnetron: Magnetron
    const door: Door
    var temperature: real

    constructor (magnetron: Magnetron, door: Door)
      ensures this.magnetron == magnetron && this.door == door
      ensures temperature == AmbientTemperatureInCelsius
    {
      this.magnetron := magnetron;
      this.door := door;
      temperature := AmbientTemperatureInCelsius;
    }

    function Get(): real
      reads this
    {
      temperature
    }

    method Update(noise: real)
      requires SmallNoise(noise)
      modifies this
      ensures temperature == CavityStep(old(temperature), AmbientTemperatureInCelsius, magnetron.active, door.isOpen, noise)
    {
      if magnetron.active {
        temperature := temperature + 0.1;
      } else {
        temperature := temperature - 0.02;
      }
      if door.isOpen {
        temperature := temperature - 0.1;
      }
      temperature := Slew.Max(AmbientTemperatureInCelsius, temperature);
      temperature := temperature + noise;
    }

    method Reset()
      modifies this
      ensures temperature == AmbientTemperatureInCelsius
    {
      temperature := AmbientTemperatureInCelsius;
    }
  }

  class HumiditySensor {
    const magnetron: Magnetron
    const door: Door
    var humidity: real

    constructor (magnetron: Magnetron, door: Door)
      ensures this.magnetron == magnetron && this.door == door
      ensures humidity == AmbientHumidityInPercent
    {
      this.magnetron := magnetron;
      this.door := door;
      humidity := AmbientHumidityInPercent;
    }

    function Get(): real
      reads this
    {
      humidity
    }

    method Update(noise: real)
      requires SmallNoise(noise)
      modifies this
      ensures humidity == CavityStep(old(humidity), AmbientHumidityInPercent, magnetron.active, door.isOpen, noise)
    {
      if magnetron.active {
        humidity := humidity + 0.1;
      } else {
        humidity := humidity - 0.02;
      }
      if door.isOpen {
        humidity := humidity - 0.1;
      }
      humidity := Slew.Max(AmbientHumidityInPercent, humidity);
      humidity := humidity + noise;
    }

    method Reset()
      modifies this
      ensures humidity == AmbientHumidityInPercent
    {
      humidity := AmbientHumidityInPercent;
    }
  }

  class MagnetronTemp1Sensor {
    const magnetron: Magnetron
    const fan: CoolingFan
    var temperature: real

    constructor (magnetron: Magnetron, fan: CoolingFan)
      ensures this.magnetron == magnetron && this.fan == fan
      ensures temperature == AmbientTemperatureInCelsius
    {
      this.magnetron := magnetron;
      this.fan := fan;
      temperature := AmbientTemperatureInCelsius;
    }

    function Get(): real
      reads this
    {
      temperature
    }

    method Update(noise: real)
      requires SmallNoise(noise)
      modifies this
      ensures temperature == MagnetronStep(old(temperature), magnetron.active, fan.powerShare, noise)
    {
      if magnetron.active {
        temperature := temperature + 0.3;
      } else {
        temperature := temperature - 0.05;
      }
      temperature := temperature - 0.4 * fan.powerShare;
      temperature := Slew.Max(AmbientTemperatureInCelsius, temperature);
      temperature := temperature + noise;
    }

    method Reset()
      modifies this
      ensures temperature == AmbientTemperatureInCelsius
    {
      temperature := AmbientTemperatureInCelsius;
    }
  }

  class MagnetronTemp2Sensor {
    const magnetron: Magnetron
    const fan: CoolingFan
    var temperature: real

    constructor (magnetron: Magnetron, fan: CoolingFan)
      ensures this.magnetron == magnetron && this.fan == fan
      ensures temperature == AmbientTemperatureInCelsius
    {
      this.magnetron := magnetron;
      this.fan := fan;
      temperature := AmbientTemperatureInCelsius;
    }

    function Get(): real
      reads this
    {
      temperature
    }

    method Update(noise: real)
      requires SmallNoise(noise)
      modifies this
      ensures temperature == MagnetronStep(old(temperature), magnetron.active, fan.powerShare, noise)
    {
      if magnetron.active {
        temperature := temperature + 0.3;
      } else {
        temperature := temperature - 0.05;
      }
      temperature := temperature - 0.4 * fan.powerShare;
      temperature := Slew.Max(AmbientTemperatureInCelsius, temperature);
      temperature := temperature + noise;
    }

    method Reset()
      modifies this
      ensures temperature == AmbientTemperatureInCelsius
    {
      temperature := AmbientTemperatureInCelsius;
    }
  }

  class WeightSensor {
    const door: Door
    var lastDoorOpen: bool
    var weight: real

    constructor (door: Door)
      ensures this.door == door
      ensures !lastDoorOpen && weight == TurntableWeightInGrams
    {
      this.door := door;
      lastDoorOpen := false;
      weight := TurntableWeightInGrams;
    }

    function Get(): real
      reads this
    {
      weight
    }

    /** The noise of the weight is drawn from [-0.1, 0.1]. */
    method Update(noise: real)
      requires -0.1 <= noise <= 0.1
      modifies this
      ensures weight == WeightStep(old(weight), old(lastDoorOpen), door.isOpen, noise)
      ensures lastDoorOpen == door.isOpen
    {
      if door.isOpen && !lastDoorOpen {
        weight := weight + 530.0;
      }
      lastDoorOpen := door.isOpen;
      weight := weight + noise;
    }

    /** Restores the initial weight; the last door state seen is kept. */
    method Reset()
      modifies this
      ensures weight == TurntableWeightInGrams && lastDoorOpen == old(lastDoorOpen)
    {
      weight := TurntableWeightInGrams;
    }

    /** Re-running the initializer on the shared instance: the last door state is forgotten too. */
    method Reinitialize()
      modifies this
      ensures weight == TurntableWeightInGrams && !lastDoorOpen
    {
      lastDoorOpen := false;
      weight := TurntableWeightInGrams;
    }
  }

  /** One draw per sensor for one `update_sensors` call. */
  datatype SensorNoise = SensorNoise(temp1: real, temp2: real, humidity: real, weight: real,
                                     magnetronTemp1: real, magnetronTemp2: real)
  {
    predicate InRange()
    {
      SmallNoise(temp1) && SmallNoise(temp2) && SmallNoise(humidity) && -0.1 <= weight <= 0.1 &&
      SmallNoise(magnetronTemp1) && SmallNoise(magnetronTemp2)
    }
  }

  /** Owns the six sensors, in the order of its `sensors` list. */
  class SensorManager {
    const magnetron: Magnetron
    const door: Door
    const fan: CoolingFan
    const temp1: Temp1Sensor
    const temp2: Temp2Sensor
    const humidity: HumiditySensor
    const weight: WeightSensor
    const magnetronTemp1: MagnetronTemp1Sensor
    const magnetronTemp2: MagnetronTemp2Sensor

    /** Every sensor observes the manager's shared magnetron, door and fan. */
    ghost predicate Valid()
    {
      temp1.magnetron == magnetron && temp1.door == door &&
      temp2.magnetron == magnetron && temp2.door == door &&
      humidity.magnetron == magnetron && humidity.door == door &&
      weight.door == door &&
      magnetronTemp1.magnetron == magnetron && magnetronTemp1.fan == fan &&
      magnetronTemp2.magnetron == magnetron && magnetronTemp2.fan == fan
    }

    /** Every sensor reads its initial value. */
    ghost predicate AtInitialValues()
      reads temp1, temp2, humidity, weight, magnetronTemp1, magnetronTemp2
    {
      temp1.temperature == AmbientTemperatureInCelsius &&
      temp2.temperature == AmbientTemperatureInCelsius &&
      humidity.humidity == AmbientHumidityInPercent &&
      weight.weight == TurntableWeightInGrams &&
      magnetronTemp1.temperature == AmbientTemperatureInCelsius &&
      magnetronTemp2.temperature == AmbientTemperatureInCelsius
    }

    constructor (magnetron: Magnetron, door: Door, fan: CoolingFan)
      ensures Valid() && AtInitialValues() && !weight.lastDoorOpen
      ensures this.magnetron == magnetron && this.door == door && this.fan == fan
      ensures fresh(temp1) && fresh(temp2) && fresh(humidity) && fresh(weight)
      ensures fresh(magnetronTemp1) && fresh(magnetronTemp2)
    {
      this.magnetron := magnetron;
      this.door := door;
      this.fan := fan;
      temp1 := new Temp1Sensor(magnetron, door);
      temp2 := new Temp2Sensor(magnetron, door);
      humidity := new HumiditySensor(magnetron, door);
      weight := new WeightSensor(door);
      magnetronTemp1 := new MagnetronTemp1Sensor(magnetron, fan);
      magnetronTemp2 := new MagnetronTemp2Sensor(magnetron, fan);
    }

    /** `update_sensors`: each sensor updated once, in list order, with its own draw. No sensor
        changes the magnetron, the door or the fan, so each sees the same inputs. */
    method UpdateSensors(noise: SensorNoise)
      requires Valid() && noise.InRange()
      modifies temp1, temp2, humidity, weight, magnetronTemp1, magnetronTemp2
      ensures temp1.temperature == CavityStep(old(temp1.temperature), AmbientTemperatureInCelsius, magnetron.active, door.isOpen, noise.temp1)
      ensures temp2.temperature == CavityStep(old(temp2.temperature), AmbientTemperatureInCelsius, magnetron.active, door.isOpen, noise.temp2)
      ensures humidity.humidity == CavityStep(old(humidity.humidity), AmbientHumidityInPercent, magnetron.active, door.isOpen, noise.humidity)
      ensures weight.weight == WeightStep(old(weight.weight), old(weight.lastDoorOpen), door.isOpen, noise.weight)
      ensures weight.lastDoorOpen == door.isOpen
      ensures magnetronTemp1.temperature == MagnetronStep(old(magnetronTemp1.temperature), magnetron.active, fan.powerShare, noise.magnetronTemp1)
      ensures magnetronTemp2.temperature == MagnetronStep(old(magnetronTemp2.temperature), magnetron.active, fan.powerShare, noise.magnetronTemp2)
    {
      temp1.Update(noise.temp1);
      temp2.Update(noise.temp2);
      humidity.Update(noise.humidity);
      weight.Update(noise.weight);
      magnetronTemp1.Update(noise.magnetronTemp1);
      magnetronTemp2.Update(noise.magnetronTemp2);
    }

    /** `reset`: every sensor back at its initial value. */
    method Reset()
      modifies temp1, temp2, humidity, weight, magnetronTemp1, magnetronTemp2
      ensures AtInitialValues() && weight.lastDoorOpen == old(weight.lastDoorOpen)
    {
      temp1.Reset();
      temp2.Reset();
      humidity.Reset();
      weight.Reset();
      magnetronTemp1.Reset();
      magnetronTemp2.Reset();
    }

    /** Re-running the manager's initializer, as a factory reset does: each sensor's own
        initializer runs again on the shared instance, and with it the initializers of the
        magnetron, the door and the fan that the sensors construct. */
    method Reinitialize()
      modifies temp1, temp2, humidity, weight, magnetronTemp1, magnetronTemp2, magnetron, door, fan
      ensures AtInitialValues() && !weight.lastDoorOpen
      ensures !magnetron.active && !door.isOpen && fan.powerShare == 0.0
    {
      temp1.Reset();
      temp2.Reset();
      humidity.Reset();
      weight.Reinitialize();
      magnetronTemp1.Reset();
      magnetronTemp2.Reset();
      magnetron.Reinitialize();
      door.Reinitialize();
      fan.Reinitialize();
    }

    function InnerTemp1(): real
      reads temp1
    {
      temp1.Get()
    }

    function InnerTemp2(): real
      reads temp2
    {
      temp2.Get()
    }

    function InnerHumidity(): real
      reads humidity
    {
      humidity.Get()
    }

    function InnerWeight(): real
      reads weight
    {
      weight.Get()
    }

    function MagnetronTemp1(): real
      reads magnetronTemp1
    {
      magnetronTemp1.Get()
    }

    function MagnetronTemp2(): real
      reads magnetronTemp2
    {
      magnetronTemp2.Get()
    }
  }
}
