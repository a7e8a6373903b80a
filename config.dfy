/** Configuration constants of the oven controller (src/helper/config.py). */
module Config {
  const AmbientTemperatureInCelsius: real := 22.0
  const AmbientHumidityInPercent: real := 40.0

  /** The modulator imports an interval in milliseconds that config.py never defines; config.py
      has the same interval in seconds (0.1 s), so the model uses 100 ms. */
  const MagnetronOnOffIntervalInMs: nat := 100
  /** Number of on/off samples kept by the modulator: 60 * 1000 // 100, 600 samples. */
  const PowerHistorySize: nat := (60 * 1000) / MagnetronOnOffIntervalInMs
  const MagnetronMaxPowerSharePerMinute: real := 0.8
  const MagnetronMaxTempInCelsius: real := 200.0

  const CoolingFanStepInPercent: real := 0.1

  const TurntableWeightInGrams: real := 420.0
  const TurntableMaxRotationsPerMinute: real := 5.0
  const TurntableMinRotationsPerMinute: real := -5.0
  const TurntableStepInRotationsPerMinute: real := 0.1

  const ReflectorMaxAngleInDegrees: real := 90.0
  const ReflectorMinAngleInDegrees: real := -90.0
  const ReflectorStepInDegrees: real := 0.1

  const ProgramDefrostingTargetTemp: real := 60.0
}
