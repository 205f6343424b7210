/** Neighbour selection: particle j is a neighbour of the particle at `p`
    when their distance is strictly less than R0. The particle itself is
    always among its own neighbours. */
module Neighbours {
  import opened Params
  import opened Geometry

  /** distance(p, q) < R0, stated on squares (both sides are non-negative).
      A particle is always its own neighbour: its distance to itself is 0. */
  predicate IsNeighbour(p: Vec, q: Vec): (r: bool)
    ensures p == q ==> r
  {
    SqDist(p, q) < R0 * R0
  }

  /** Indices j < k, in increasing order, of the particles in `ps` that are
      neighbours of the point `p`. */
  function NeighbourIndices(ps: seq<Vec>, p: Vec, k: nat): (r: seq<nat>)
    requires k <= |ps|
    ensures forall m :: 0 <= m < |r| ==> r[m] < k
    ensures forall m, m' :: 0 <= m < m' < |r| ==> r[m] < r[m']
  {
    if k == 0 then []
    else NeighbourIndices(ps, p, k - 1) + (if IsNeighbour(p, ps[k - 1]) then [k - 1] else [])
  }

  /** Headings of the neighbours of `p` among the first k particles, in index
      order: the list the inner loop builds by appending. */
  function NeighbourAngles(ps: seq<Vec>, angles: seq<real>, p: Vec, k: nat): (r: seq<real>)
    requires k <= |ps| == |angles|
    ensures |r| <= k
  {
    if k == 0 then []
    else NeighbourAngles(ps, angles, p, k - 1) + (if IsNeighbour(p, ps[k - 1]) then [angles[k - 1]] else [])
  }

  /** The neighbour relation is symmetric. */
  lemma NeighbourSymmetric(p: Vec, q: Vec)
    ensures IsNeighbour(p, q) <==> IsNeighbour(q, p)
  {
    assert (p.x - q.x) * (p.x - q.x) == (q.x - p.x) * (q.x - p.x);
    assert (p.y - q.y) * (p.y - q.y) == (q.y - p.y) * (q.y - p.y);
  }

  /** The index list holds exactly the neighbours among the first k particles. */
  lemma {:induction false} NeighbourIndicesExact(ps: seq<Vec>, p: Vec, k: nat, j: int)
    requires k <= |ps|
    ensures j in NeighbourIndices(ps, p, k) <==> 0 <= j < k && IsNeighbour(p, ps[j])
  {
    if k > 0 {
      NeighbourIndicesExact(ps, p, k - 1, j);
    }
  }

  /** The angle list is the heading of each listed neighbour, in the same order. */
  lemma {:induction false} NeighbourAnglesIndexed(ps: seq<Vec>, angles: seq<real>, p: Vec, k: nat)
    requires k <= |ps| == |angles|
    ensures |NeighbourAngles(ps, angles, p, k)| == |NeighbourIndices(ps, p, k)|
    ensures forall m :: 0 <= m < |NeighbourIndices(ps, p, k)| ==>
              NeighbourAngles(ps, angles, p, k)[m] == angles[NeighbourIndices(ps, p, k)[m]]
  {
    if k > 0 {
      NeighbourAnglesIndexed(ps, angles, p, k - 1);
    }
  }

  /** j is a neighbour of i exactly when i is a neighbour of j. */
  lemma NeighbourListsSymmetric(ps: seq<Vec>, i: nat, j: nat)
    requires i < |ps| && j < |ps|
    ensures j in NeighbourIndices(ps, ps[i], |ps|) <==> i in NeighbourIndices(ps, ps[j], |ps|)
  {
    NeighbourIndicesExact(ps, ps[i], |ps|, j);
    NeighbourIndicesExact(ps, ps[j], |ps|, i);
    NeighbourSymmetric(ps[i], ps[j]);
  }

  /** A particle's neighbour list is never empty, so the keep-old-heading
      branch of the heading rule is never taken in a step. */
  lemma NeighbourListNonEmpty(ps: seq<Vec>, angles: seq<real>, i: nat)
    requires i < |ps| == |angles|
    ensures |NeighbourAngles(ps, angles, ps[i], |ps|)| > 0
  {
    NeighbourIndicesExact(ps, ps[i], |ps|, i);
    NeighbourAnglesIndexed(ps, angles, ps[i], |ps|);
  }

  /** The inner loop over j: collects the headings of all particles strictly
      closer than R0 to particle i, reading only the current arrays. */
  method CollectNeighbourAngles(positions: array<Vec>, angles: array<real>, i: nat) returns (neighbourAngles: seq<real>)
    requires positions.Length == angles.Length && i < positions.Length
    ensures neighbourAngles == NeighbourAngles(positions[..], angles[..], positions[i], positions.Length)
  {
    neighbourAngles := [];
    var j := 0;
    while j < positions.Length
      invariant 0 <= j <= positions.Length
      invariant neighbourAngles == NeighbourAngles(positions[..], angles[..], positions[i], j)
    {
      if SqDist(positions[i], positions[j]) < R0 * R0 {
        neighbourAngles := neighbourAngles + [angles[j]];
      }
      j := j + 1;
    }
  }
}
