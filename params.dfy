/** The fixed parameters of the barrier simulation, as set when the script loads.
    Every other module reads them; nothing changes them. */
module Params {
  /** Side length of the square periodic box. */
  const L: real := 10.0
  /** Particle density. */
  const Rho: real := 1.0
  /** Number of particles: int(Rho * L * L), which is 100. */
  const N: nat := 100
  /** Interaction radius. */
  const R0: real := 1.0
  /** Time step. */
  const DeltaT: real := 1.0
  const Factor: real := 0.5
  /** Speed: R0 / DeltaT * Factor, which is 0.5. */
  const V0: real := R0 / DeltaT * Factor
  /** Noise amplitude that scales each uniform draw on [-pi, pi]. */
  const Eta: real := 0.15

  /** The barrier is the closed rectangle [3, 7] x [3, 7]. */
  const BarrierXStart: real := 3.0
  const BarrierXEnd: real := 7.0
  const BarrierYStart: real := 3.0
  const BarrierYEnd: real := 7.0
}
