/** Physical and bookkeeping constants of the gravity battery (appp.py:10-17).
    Quantities that enter battery or generator arithmetic are `real`, so that the
    computations are exact rationals; the block and storage limits are `int`. */
module Constants {

  /** Gravitational acceleration in m/s^2 (exactly 981/100). */
  const GRAVITY: real := 9.81
  /** Drop height in metres, from +50 m to -50 m. */
  const HEIGHT: real := 100.0
  /** Capacity of battery 1 in joules (100 kJ). */
  const B1_CAPACITY: real := 100000.0
  /** Capacity of battery 2 in joules (1 MJ). */
  const B2_CAPACITY: real := 1000000.0
  /** Combined bottom storage, in kg, at which the big cycle fires. */
  const STORAGE_THRESHOLD: int := 80
  /** Largest number of 10 kg blocks accepted at the two top piles together. */
  const MAX_TOTAL_BLOCKS: int := 20
  /** Energy drawn by the houses on every step, in joules (2 kJ). */
  const POWER_CONSUMPTION_RATE: real := 2000.0
  /** Fraction of the spent energy that lifting turns into potential energy. */
  const LIFT_ENERGY_EFFICIENCY: real := 0.5

  /** Mass, in kg, released by one small drop (two 10 kg blocks). */
  const DROP_MASS: real := 20.0
  /** Number of log entries kept after every truncation (`logs[-100:]`). */
  const MAX_LOGS: nat := 100

  /** Energy of one small drop, in joules. */
  const DROP_ENERGY: real := DROP_MASS * GRAVITY * HEIGHT
}
