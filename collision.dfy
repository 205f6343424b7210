/** The freeze-on-hit barrier rule: a particle whose proposed move would end
    inside the closed barrier stays where it is for this tick. */
module Collision {
  import opened Params
  import opened Geometry

  /** Distance covered per component in one tick: V0 * DeltaT, which is 0.5. */
  const StepLength: real := V0 * DeltaT

  /** `cosSin(a)` stands for the pair (cos a, sin a); both lie in [-1, 1]. */
  ghost predicate UnitBounded(cosSin: real -> Vec) {
    forall a :: -1.0 <= cosSin(a).x <= 1.0 && -1.0 <= cosSin(a).y <= 1.0
  }

  /** The move for heading `angle`: V0 * (cos angle, sin angle) * DeltaT. */
  function Displacement(angle: real, cosSin: real -> Vec): (d: Vec)
    ensures -1.0 <= cosSin(angle).x <= 1.0 ==> -StepLength <= d.x <= StepLength
    ensures -1.0 <= cosSin(angle).y <= 1.0 ==> -StepLength <= d.y <= StepLength
  {
    Scale(V0 * DeltaT, cosSin(angle))
  }

  /** The position after one tick, before the periodic wrap. The proposed
      position is `position` plus the displacement for `angle`; the particle
      either makes the whole move or none of it. */
  function BarrierCollision(position: Vec, angle: real, cosSin: real -> Vec): (r: Vec)
    // no partial motion
    ensures r == position || r == Add(position, Displacement(angle, cosSin))
    // a proposed position in the closed barrier freezes the particle
    ensures InBarrier(Add(position, Displacement(angle, cosSin))) ==> r == position
    // any other proposed position is taken as it is
    ensures !InBarrier(Add(position, Displacement(angle, cosSin))) ==> r == Add(position, Displacement(angle, cosSin))
    // the rule never moves a particle into the barrier
    ensures !InBarrier(position) ==> !InBarrier(r)
  {
    var next := Add(position, Displacement(angle, cosSin));
    if InBarrier(next) then position else next
  }

  /** One coordinate that starts in [0, L) and moves by at most StepLength
      wraps back to a value that is outside [3, 7] whenever the wrap changed it. */
  lemma WrapAfterShortMove(c: real, d: real)
    requires 0.0 <= c < L && -StepLength <= d <= StepLength
    ensures 0.0 <= Wrap(c + d) < L
    ensures Wrap(c + d) != c + d ==> Wrap(c + d) < BarrierXStart || Wrap(c + d) > BarrierXEnd
    ensures Wrap(c + d) != c + d ==> Wrap(c + d) < BarrierYStart || Wrap(c + d) > BarrierYEnd
  {
    WrapNear(c + d);
  }

  /** Collision followed by wrap never leaves a particle in the barrier when
      it started in the box outside the barrier: the step of 0.5 is shorter
      than the 3-unit gap between the barrier and each box edge, so a
      coordinate that wraps lands far from the barrier. */
  lemma MoveStaysOutsideBarrier(position: Vec, angle: real, cosSin: real -> Vec)
    requires InBox(position) && !InBarrier(position)
    requires -1.0 <= cosSin(angle).x <= 1.0 && -1.0 <= cosSin(angle).y <= 1.0
    ensures InBox(WrapVec(BarrierCollision(position, angle, cosSin)))
    ensures !InBarrier(WrapVec(BarrierCollision(position, angle, cosSin)))
  {
    var d := Displacement(angle, cosSin);
    var moved := BarrierCollision(position, angle, cosSin);
    if moved == position {
      assert WrapVec(moved) == moved;
    } else {
      assert moved == Add(position, d) && !InBarrier(moved);
      WrapAfterShortMove(position.x, d.x);
      WrapAfterShortMove(position.y, d.y);
    }
  }
}
