# Vicsek swarm with a barrier: a Dafny model of one simulation tick

The script simulates N = 100 self-propelled particles in a periodic 10 x 10 box.
Each particle has a position and a heading. On every animation frame, every
particle does four things:

1. It collects the headings of all particles strictly closer than R0 = 1. This
   always includes itself.
2. Its new heading is the arithmetic mean of those headings plus a noise draw
   scaled by Eta = 0.15. With no neighbours it would keep its old heading.
3. It proposes a move of V0 * (cos, sin)(heading) * DeltaT, which is 0.5 long.
   If the proposed point lies in the closed barrier [3, 7] x [3, 7], the
   particle stays where it is.
4. Each coordinate is wrapped back into [0, 10) with `% L`.

Everything is computed from the previous positions and headings. The results
go into fresh arrays, and these replace the global state at the end of the frame.

The project is split into these modules:

- `Params` (params.dfy): the script's constants.
- `Geometry` (geometry.dfy): points, the box, the barrier and the wrap.
- `Collision` (collision.dfy): the `barrier_collision` rule, and the proof that
  collision plus wrap never puts a particle inside the barrier.
- `Heading` (heading.dfy): the sum, the linear mean and the heading rule.
- `Neighbours` (neighbours.dfy): the neighbour test, the neighbour lists as
  specification functions, and the inner `j` loop as a method.
- `Swarm` (swarm.dfy): the specification of a whole tick
  (`StepAngles`, `StepPositions`) and the class `Swarm` that holds the two
  global arrays. Its method `Animate` is the double-buffered loop. The module
  also holds the initial rejection placement and the invariants of the tick.
- `Scenarios` (scenarios.dfy): three worked ticks.

Abstractions:

- Real numbers stand for floats.
- `cos`/`sin` become a parameter `cosSin: real -> Vec`. The safety lemma
  assumes only that both components lie in [-1, 1]; the scenarios pin it to
  the exact values at 0, pi/2 and pi.
- `distance < R0` is compared on squares: `SqDist(p, q) < R0 * R0`.
- `x % L` is the floored remainder `x - L * floor(x / L)`.
- Random numbers are inputs. `draws[i]` is the uniform draw on [-pi, pi] for
  particle i, and the noise added is `Eta * draws[i]`. The script draws only
  when the neighbour list is non-empty. `NeighbourListNonEmpty` proves that
  this is always the case, so particle i always takes the i-th draw of the tick.
- The initial candidate positions are also an input: one finite stream per
  particle.

Facts about the code worth knowing:

- The heading is the linear mean of the raw angles, never reduced to
  (-pi, pi]. `LinearMeanOfOpposedAngles` shows the flip near +-pi.
- Two particles at (5, 5) and (5.3, 5) with headings 0 and pi both turn to
  pi/2. Both lie inside the barrier, so their proposed moves to y = 5.5 are
  frozen (`OpposedPairTurnsButStaysFrozen`).
- The code does not validate its parameters, which are constants, and its
  rejection loop redraws for as long as it needs to.

## Model

| member | source | states |
|---|---|---|
| Geometry.Wrap | Vicsek_loops_barrier.py:75 | `x % L` lies in [0, L) and leaves values already in [0, L) unchanged |
| Geometry.WrapVec | Vicsek_loops_barrier.py:75 | the wrapped position lies in the box; a position in the box is left as it is |
| Geometry.WrapFixedIff | Vicsek_loops_barrier.py:75 | the wrap fixes x exactly when 0 <= x < L |
| Geometry.WrapIdempotent | Vicsek_loops_barrier.py:75 | wrapping twice equals wrapping once |
| Geometry.WrapPeriodic | Vicsek_loops_barrier.py:75 | the wrap is L-periodic: Wrap(x + L) == Wrap(x) |
| Geometry.InBarrier | Vicsek_loops_barrier.py:39 | the closed rectangle test 3 <= x <= 7 and 3 <= y <= 7; the barrier lies inside the box |
| Geometry.WrapNear | Vicsek_loops_barrier.py:75 | for -L <= x < 2L the wrap adds L below 0, subtracts L at or above L, else does nothing |
| Collision.Displacement | Vicsek_loops_barrier.py:36 | when cos and sin lie in [-1, 1], each component of the move is within the step length V0 * DeltaT = 0.5 |
| Collision.BarrierCollision | Vicsek_loops_barrier.py:34-42 | no partial motion (old position or full move); a proposed point in the closed barrier freezes the particle; any other proposed point is taken; a particle outside the barrier is never moved into it |
| Collision.WrapAfterShortMove | Vicsek_loops_barrier.py:73-75 | a coordinate in [0, L) moved by at most 0.5 either stays put under the wrap or wraps to a value outside [3, 7] |
| Collision.MoveStaysOutsideBarrier | Vicsek_loops_barrier.py:34-42 | from a position in the box and outside the barrier, collision followed by wrap gives a position in the box and outside the barrier |
| Heading.NewHeading | Vicsek_loops_barrier.py:64-70 | an empty neighbour list keeps the current heading; with a zero draw a non-empty list gives exactly the mean of the neighbour headings |
| Heading.Mean | Vicsek_loops_barrier.py:65 | `np.mean` of a non-empty list: the value whose n-fold multiple is the sum |
| Heading.NoiseIsAdditive | Vicsek_loops_barrier.py:65-67 | for a non-empty list the heading is the noiseless heading plus Eta * draw, with no re-wrapping |
| Heading.SumBounds | Vicsek_loops_barrier.py:65 | the sum of n values in [lo, hi] lies in [n * lo, n * hi] |
| Heading.MeanBounds | Vicsek_loops_barrier.py:65 | the mean lies between any lower and upper bound of the values |
| Heading.AlignedNeighboursKeepHeading | Vicsek_loops_barrier.py:64-67 | neighbours that share a heading c give new heading c without noise |
| Heading.HeadingWithinNeighbourRange | Vicsek_loops_barrier.py:64-67 | the new heading lies in the neighbours' range shifted by the noise Eta * draw |
| Heading.LinearMeanOfOpposedAngles | Vicsek_loops_barrier.py:65 | the mean is linear: headings a and -a average to 0 whatever a is |
| Neighbours.NeighbourIndices | Vicsek_loops_barrier.py:57-61 | the neighbour indices among the first k are below k and strictly increasing (loop order) |
| Neighbours.NeighbourSymmetric | Vicsek_loops_barrier.py:58-60 | the test distance < R0 is symmetric in the two particles |
| Neighbours.IsNeighbour | Vicsek_loops_barrier.py:58-60 | the strict test distance < R0, on squares; every particle passes it against itself |
| Neighbours.NeighbourAngles | Vicsek_loops_barrier.py:55-61 | the `neighbour_angles` list built by appending in index order; it has at most one entry per particle scanned |
| Neighbours.NeighbourIndicesExact | Vicsek_loops_barrier.py:57-61 | j is listed exactly when j < k and the particle j is strictly closer than R0 |
| Neighbours.NeighbourAnglesIndexed | Vicsek_loops_barrier.py:55-61 | the collected angle list is the heading of each listed neighbour, same length and order |
| Neighbours.NeighbourListsSymmetric | Vicsek_loops_barrier.py:57-61 | j is in i's neighbour list iff i is in j's |
| Neighbours.NeighbourListNonEmpty | Vicsek_loops_barrier.py:57-64 | every particle's neighbour list is non-empty, so the keep-old-heading branch is never taken in a tick |
| Neighbours.CollectNeighbourAngles | Vicsek_loops_barrier.py:55-61 | the inner loop over j returns exactly the specified neighbour heading list of particle i |
| Swarm.NewAngle | Vicsek_loops_barrier.py:64-70 | particle i's new heading is always the mean of its (non-empty) neighbour list plus Eta * draws[i] |
| Swarm.NewPosition | Vicsek_loops_barrier.py:73-75 | particle i's new position lies in the box and is its old position, frozen or moved by its new heading, then wrapped |
| Swarm.StepAngles | Vicsek_loops_barrier.py:53-79 | the tick's headings: one per particle, so the population is kept |
| Swarm.StepPositions | Vicsek_loops_barrier.py:53-79 | the tick's positions: one per particle, so the population is kept |
| Swarm.StepShape | Vicsek_loops_barrier.py:53-79 | slot i of a tick is particle i: heading is its neighbours' mean plus its noise; position is in the box and is its own old position, frozen or moved by that heading, then wrapped |
| Swarm.StepKeepsOutsideBarrier | Vicsek_loops_barrier.py:73-75 | if every position is in the box and outside the barrier, so is every new position |
| Swarm.NoiselessStepAverages | Vicsek_loops_barrier.py:64-67 | with a zero draw, particle i's new heading is the arithmetic mean of its (non-empty) neighbour headings |
| Swarm.WriteInOrder | Vicsek_loops_barrier.py:53-79 | the i-loop taken in a given visiting order, writing values computed from the snapshot; the buffer keeps its length |
| Swarm.WriteInOrderAt | Vicsek_loops_barrier.py:53-79 | a visited slot ends with its computed value; an unvisited one keeps its old content |
| Swarm.WriteInCoveringOrder | Vicsek_loops_barrier.py:53-79 | when every slot is visited, each slot holds its computed value whatever the buffer held before |
| Swarm.AnglesAreOrderIndependent | Vicsek_loops_barrier.py:49-79 | filling the fresh heading array from the snapshot in any covering order, from any initial content, yields the tick's headings, each particle keeping its own draw |
| Swarm.PositionsAreOrderIndependent | Vicsek_loops_barrier.py:49-79 | filling the fresh position array from the snapshot in any covering order, from any initial content, yields the tick's positions |
| Swarm.Swarm.Animate | Vicsek_loops_barrier.py:44-79 | replaces both arrays with fresh arrays of length N holding exactly the tick computed from the old arrays; keeps all particles in the box and out of the barrier |
| Swarm.DrawOutsideBarrier | Vicsek_loops_barrier.py:29-31 | the rejection loop returns the first candidate outside the closed barrier, and finds one iff one exists |
| Swarm.PlaceParticles | Vicsek_loops_barrier.py:27-32 | on success every particle is one of its own candidates, in the box and outside the barrier; it fails exactly when some particle has no free candidate |
| Scenarios.OpposedPairTurnsButStaysFrozen | Vicsek_loops_barrier.py:53-79 | the pair at (5, 5), (5.3, 5) with headings 0 and pi gets headings pi/2, and the barrier keeps both positions |
| Scenarios.BlockedParticleStays | Vicsek_loops_barrier.py:34-42 | a particle at (2.99, 5) heading 0 proposes (3.49, 5), in the barrier, and stays put |
| Scenarios.EdgeParticleWraps | Vicsek_loops_barrier.py:73-75 | a particle at (0.1, 5) heading pi proposes x = -0.4 and wraps to (9.6, 5) |

## Left out

- Plotting, the quiver and the rectangle patch, `FuncAnimation`, the video writer, `plt.show` and the `print` calls (lines 2-3, 9, 45, 81-94). They are display and file output.
- The random draws (lines 19-20, 29, 31, 66). They are inputs: candidate positions, initial headings, and the per-particle noise draws. Their distributions are not modelled, and the noise draws are not constrained to [-pi, pi].
- `np.cos`/`np.sin` (line 36). They are the parameter `cosSin`. The barrier-safety results assume only that both components lie in [-1, 1]. The three scenarios also fix cosSin to the exact values of cos and sin at 0, pi/2 and pi, which the floating-point functions give only up to rounding.
- The square root in `np.linalg.norm` (line 58). It is replaced by a comparison of squares, which agrees with `distance < R0` because R0 > 0.
- IEEE-754 rounding in the additions, `np.mean` and float `%`. For example, a tiny negative coordinate can round to exactly L. The model uses exact reals.
- The dead assignment of `positions` at line 19, which line 27 overwrites.
- The iteration count and the frame driver (lines 15, 91). The model gives one tick; repeating `Animate` is left to the caller.
- Swarm.PlaceParticles: the script redraws until it finds a free point and never gives up. The model reads a finite stream of candidates per particle, and it reports failure when a stream runs out. Termination of the unbounded loop is not modelled.
- Swarm.Swarm.Animate: the noise draw is indexed by particle. The script takes one draw per particle that has neighbours. The two agree because every particle is its own neighbour (`NeighbourListNonEmpty`). Order independence (`Swarm.AnglesAreOrderIndependent`, `Swarm.PositionsAreOrderIndependent`) is stated for a fixed draw per particle; with the script's single stream, a different visiting order would hand the draws out differently.
