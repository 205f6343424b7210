/** Points of the plane, the periodic box, the barrier rectangle and the
    periodic wrap `x % L` that keeps every coordinate inside the box. */
module Geometry {
  import opened Params

  /** A position or a displacement: one row of the positions array. */
  datatype Vec = Vec(x: real, y: real)

  function Add(p: Vec, d: Vec): Vec {
    Vec(p.x + d.x, p.y + d.y)
  }

  function Scale(k: real, v: Vec): Vec {
    Vec(k * v.x, k * v.y)
  }

  /** Squared Euclidean distance; the square of what a norm of `p - q` gives. */
  function SqDist(p: Vec, q: Vec): real {
    (p.x - q.x) * (p.x - q.x) + (p.y - q.y) * (p.y - q.y)
  }

  /** Both coordinates lie in the half-open range [0, L). */
  predicate InBox(p: Vec) {
    0.0 <= p.x < L && 0.0 <= p.y < L
  }

  /** The closed barrier rectangle, bounds included on all four sides. It
      lies inside the box. */
  predicate InBarrier(p: Vec): (r: bool)
    ensures r ==> InBox(p)
  {
    BarrierXStart <= p.x <= BarrierXEnd && BarrierYStart <= p.y <= BarrierYEnd
  }

  /** `x % L` with a positive modulus: the floored remainder. */
  function Wrap(x: real): (r: real)
    ensures 0.0 <= r < L
    ensures 0.0 <= x < L ==> r == x
  {
    x - L * (x / L).Floor as real
  }

  /** The wrap applied to both coordinates of a position. */
  function WrapVec(p: Vec): (r: Vec)
    ensures InBox(r)
    ensures InBox(p) ==> r == p
  {
    Vec(Wrap(p.x), Wrap(p.y))
  }

  /** Wrapping is the identity exactly on [0, L). */
  lemma WrapFixedIff(x: real)
    ensures Wrap(x) == x <==> 0.0 <= x < L
  {
  }

  /** Wrapping twice is wrapping once. */
  lemma WrapIdempotent(x: real)
    ensures Wrap(Wrap(x)) == Wrap(x)
  {
  }

  /** Wrapping is L-periodic: shifting by one box length changes nothing. */
  lemma WrapPeriodic(x: real)
    ensures Wrap(x + L) == Wrap(x)
  {
    var k := (x / L).Floor;
    assert (x + L) / L == x / L + 1.0;
    assert ((x + L) / L).Floor == k + 1;
  }

  /** Within one box length of the box, wrapping adds or subtracts L at most once. */
  lemma WrapNear(x: real)
    requires -L <= x < 2.0 * L
    ensures Wrap(x) == if x < 0.0 then x + L else if x < L then x else x - L
  {
    if x < 0.0 {
      assert (x / L).Floor == -1;
    } else if x >= L {
      assert (x / L).Floor == 1;
    }
  }

}
