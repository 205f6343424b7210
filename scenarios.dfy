/** Worked single-tick examples with the script's parameters and no noise.
    `pi` is kept symbolic; `cosSin` is only pinned at the headings used. */
module Scenarios {
  import opened Geometry
  import opened Collision
  import opened Heading
  import opened Neighbours
  import opened Swarm

  /** Two particles 0.3 apart with headings 0 and pi are mutual neighbours
      and both turn to the linear mean pi/2. Both sit in the barrier's
      interior at (5, 5) and (5.3, 5), so the proposed moves to y = 5.5 land
      in the barrier and neither position changes. */
  lemma OpposedPairTurnsButStaysFrozen(pi: real, cosSin: real -> Vec)
    requires cosSin(pi / 2.0) == Vec(0.0, 1.0)
    ensures StepAngles([Vec(5.0, 5.0), Vec(5.3, 5.0)], [0.0, pi], [0.0, 0.0]) == [pi / 2.0, pi / 2.0]
    ensures StepPositions([Vec(5.0, 5.0), Vec(5.3, 5.0)], [0.0, pi], [0.0, 0.0], cosSin)
            == [Vec(5.0, 5.0), Vec(5.3, 5.0)]
  {
    var ps, angles, draws := [Vec(5.0, 5.0), Vec(5.3, 5.0)], [0.0, pi], [0.0, 0.0];
    assert IsNeighbour(ps[0], ps[1]) && IsNeighbour(ps[1], ps[0]);
    assert NeighbourAngles(ps, angles, ps[0], 1) == [0.0];
    assert NeighbourAngles(ps, angles, ps[0], 2) == [0.0, pi];
    assert NeighbourAngles(ps, angles, ps[1], 1) == [0.0];
    assert NeighbourAngles(ps, angles, ps[1], 2) == [0.0, pi];
    assert Sum([0.0, pi]) == 0.0 + Sum([pi]) == 0.0 + (pi + Sum([])) by {
      assert [0.0, pi][1..] == [pi] && [pi][1..] == [];
    }
    assert NewAngle(ps, angles, draws, 0) == pi / 2.0;
    assert NewAngle(ps, angles, draws, 1) == pi / 2.0;
    assert InBarrier(Add(ps[0], Displacement(pi / 2.0, cosSin)));
    assert InBarrier(Add(ps[1], Displacement(pi / 2.0, cosSin)));
    assert NewPosition(ps, angles, draws, cosSin, 0) == ps[0];
    assert NewPosition(ps, angles, draws, cosSin, 1) == ps[1];
  }

  /** A particle at (2.99, 5) heading straight at the barrier would move to
      (3.49, 5), inside it, so it stays at (2.99, 5). */
  lemma BlockedParticleStays(cosSin: real -> Vec)
    requires cosSin(0.0) == Vec(1.0, 0.0)
    ensures StepAngles([Vec(2.99, 5.0)], [0.0], [0.0]) == [0.0]
    ensures StepPositions([Vec(2.99, 5.0)], [0.0], [0.0], cosSin) == [Vec(2.99, 5.0)]
  {
    var ps, angles, draws := [Vec(2.99, 5.0)], [0.0], [0.0];
    assert NeighbourAngles(ps, angles, ps[0], 1) == [0.0];
    assert Sum([0.0]) == 0.0 + Sum([]) by { assert [0.0][1..] == []; }
    assert NewAngle(ps, angles, draws, 0) == 0.0;
    assert InBarrier(Add(ps[0], Displacement(0.0, cosSin)));
  }

  /** A particle at (0.1, 5) heading along -x proposes x = -0.4, which is
      outside the barrier, and the wrap takes it to x = 9.6. */
  lemma EdgeParticleWraps(pi: real, cosSin: real -> Vec)
    requires cosSin(pi) == Vec(-1.0, 0.0)
    ensures StepAngles([Vec(0.1, 5.0)], [pi], [0.0]) == [pi]
    ensures StepPositions([Vec(0.1, 5.0)], [pi], [0.0], cosSin) == [Vec(9.6, 5.0)]
  {
    var ps, angles, draws := [Vec(0.1, 5.0)], [pi], [0.0];
    assert NeighbourAngles(ps, angles, ps[0], 1) == [pi];
    assert Sum([pi]) == pi + Sum([]) by { assert [pi][1..] == []; }
    assert NewAngle(ps, angles, draws, 0) == pi;
    assert BarrierCollision(ps[0], pi, cosSin) == Vec(-0.4, 5.0);
    WrapNear(-0.4);
  }
}
