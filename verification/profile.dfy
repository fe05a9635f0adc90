/** The driver/car profile (`CarDriverProfile`): calibrated constants and
    model parameters, as immutable data. */
module Profiles {

  /** The three dry compounds the degradation table knows. The program looks
      compounds up by exact name, so any other name is outside the model. */
  datatype Compound = Soft | Medium | Hard

  /** An inclusive integer range, the argument pair of `randint`. */
  datatype IntRange = IntRange(lo: int, hi: int)

  /** A real range, the argument pair of `uniform`. */
  datatype RealRange = RealRange(lo: real, hi: real)

  datatype Profile = Profile(
    name: string,
    baseLapTime: real,
    avgPitTime: real,
    softDeg: real,
    mediumDeg: real,
    hardDeg: real,
    variability: RealRange,
    scChance: real,
    vscChance: real,
    raceLength: nat,
    scLaps: IntRange,
    scSpeedFactor: real,
    vscLaps: IntRange,
    vscSpeedFactor: RealRange,
    fuelBurnRate: real,
    fuelPenaltyPerKg: real,
    redFlagChance: real,
    redFlagTimeSaving: real)

  /** Constructor defaults of the profile. */
  const DefaultScLaps := IntRange(2, 5)
  const DefaultScSpeedFactor := 0.75
  const DefaultVscLaps := IntRange(1, 3)
  const DefaultFuelBurnRate := 1.7
  const DefaultFuelPenaltyPerKg := 0.035
  const DefaultRedFlagTimeSaving := 20.0

  /** Fallback degradation rates used when a compound has no laps. */
  const DefaultSoftDeg := 0.10
  const DefaultMediumDeg := 0.05
  const DefaultHardDeg := 0.02

  /** Lap time gained per race lap as fuel burns off; hard-coded in the lap
      loop, so the profile's fuel fields never reach the lap time. */
  const FuelEffectPerLap := 0.04

  /** The `degradation` table built at the start of each race. */
  function DegRate(p: Profile, c: Compound): real
  {
    match c
    case Soft => p.softDeg
    case Medium => p.mediumDeg
    case Hard => p.hardDeg
  }
}
