/** One tick of the swarm, the double-buffered update that combines the four
    rules, the global state it replaces, and the initial placement. */
module Swarm {
  import opened Params
  import opened Geometry
  import opened Collision
  import opened Heading
  import opened Neighbours

  /** New heading of particle i, computed from the snapshot `ps`, `angles`
      and the i-th uniform noise draw. Since every particle is its own
      neighbour, the result is always the mean plus the noise term. */
  function NewAngle(ps: seq<Vec>, angles: seq<real>, draws: seq<real>, i: nat): (r: real)
    requires i < |ps| == |angles| <= |draws|
    ensures |NeighbourAngles(ps, angles, ps[i], |ps|)| > 0
    ensures r == Mean(NeighbourAngles(ps, angles, ps[i], |ps|)) + Eta * draws[i]
  {
    NeighbourListNonEmpty(ps, angles, i);
    NewHeading(NeighbourAngles(ps, angles, ps[i], |ps|), angles[i], draws[i])
  }

  /** New position of particle i: the collision rule applied with the new
      heading, then wrapped into the box. */
  function NewPosition(ps: seq<Vec>, angles: seq<real>, draws: seq<real>, cosSin: real -> Vec, i: nat): (r: Vec)
    requires i < |ps| == |angles| <= |draws|
    ensures InBox(r)
    // particle i either stays frozen or makes its full move, then wraps
    ensures r == WrapVec(ps[i]) || r == WrapVec(Add(ps[i], Displacement(NewAngle(ps, angles, draws, i), cosSin)))
  {
    WrapVec(BarrierCollision(ps[i], NewAngle(ps, angles, draws, i), cosSin))
  }

  /** All new headings of one tick: one per particle. */
  function StepAngles(ps: seq<Vec>, angles: seq<real>, draws: seq<real>): (r: seq<real>)
    requires |ps| == |angles| <= |draws|
    ensures |r| == |ps|
  {
    seq(|ps|, i requires 0 <= i < |ps| => NewAngle(ps, angles, draws, i))
  }

  /** All new positions of one tick: one per particle. */
  function StepPositions(ps: seq<Vec>, angles: seq<real>, draws: seq<real>, cosSin: real -> Vec): (r: seq<Vec>)
    requires |ps| == |angles| <= |draws|
    ensures |r| == |ps|
  {
    seq(|ps|, i requires 0 <= i < |ps| => NewPosition(ps, angles, draws, cosSin, i))
  }

  /** Slot i of a tick is particle i: its new heading is the mean of its
      neighbour headings plus its own noise term, and its new position is its
      old one, frozen or moved by that heading, wrapped into the box. */
  lemma StepShape(ps: seq<Vec>, angles: seq<real>, draws: seq<real>, cosSin: real -> Vec, i: nat)
    requires i < |ps| == |angles| <= |draws|
    ensures |NeighbourAngles(ps, angles, ps[i], |ps|)| > 0
    ensures StepAngles(ps, angles, draws)[i] == Mean(NeighbourAngles(ps, angles, ps[i], |ps|)) + Eta * draws[i]
    ensures InBox(StepPositions(ps, angles, draws, cosSin)[i])
    ensures StepPositions(ps, angles, draws, cosSin)[i] == WrapVec(ps[i])
         || StepPositions(ps, angles, draws, cosSin)[i]
            == WrapVec(Add(ps[i], Displacement(StepAngles(ps, angles, draws)[i], cosSin)))
  {
    assert StepAngles(ps, angles, draws)[i] == NewAngle(ps, angles, draws, i);
    assert StepPositions(ps, angles, draws, cosSin)[i] == NewPosition(ps, angles, draws, cosSin, i);
  }

  /** Every position lies in the box and outside the closed barrier. */
  ghost predicate AllPlaced(ps: seq<Vec>) {
    forall i :: 0 <= i < |ps| ==> InBox(ps[i]) && !InBarrier(ps[i])
  }

  /** No particle ever enters the barrier: a step from placed positions gives
      placed positions. */
  lemma StepKeepsOutsideBarrier(ps: seq<Vec>, angles: seq<real>, draws: seq<real>, cosSin: real -> Vec)
    requires |ps| == |angles| <= |draws|
    requires AllPlaced(ps) && UnitBounded(cosSin)
    ensures AllPlaced(StepPositions(ps, angles, draws, cosSin))
  {
    forall i | 0 <= i < |ps|
      ensures InBox(StepPositions(ps, angles, draws, cosSin)[i])
      ensures !InBarrier(StepPositions(ps, angles, draws, cosSin)[i])
    {
      MoveStaysOutsideBarrier(ps[i], NewAngle(ps, angles, draws, i), cosSin);
    }
  }

  /** Without noise every new heading is the plain mean of the neighbour
      headings: the keep-old-heading branch is never taken. */
  lemma NoiselessStepAverages(ps: seq<Vec>, angles: seq<real>, draws: seq<real>, i: nat)
    requires i < |ps| == |angles| <= |draws|
    requires draws[i] == 0.0
    ensures |NeighbourAngles(ps, angles, ps[i], |ps|)| > 0
    ensures StepAngles(ps, angles, draws)[i] == Mean(NeighbourAngles(ps, angles, ps[i], |ps|))
  {
    StepShape(ps, angles, draws, (a: real) => Vec(0.0, 0.0), i);
  }

  /** Writes `f(order[0])`, `f(order[1])`, ... into the slots they name, in
      that order: the loop over particles, taken in any order. */
  function WriteInOrder<T>(buf: seq<T>, order: seq<nat>, f: nat --> T): (r: seq<T>)
    requires forall k :: 0 <= k < |order| ==> order[k] < |buf|
    requires forall i :: 0 <= i < |buf| ==> f.requires(i)
    ensures |r| == |buf|
    decreases |order|
  {
    if order == [] then buf else WriteInOrder(buf[order[0] := f(order[0])], order[1..], f)
  }

  /** A slot named in `order` ends up holding f of its index; any other slot
      keeps its old content. */
  lemma {:induction false} WriteInOrderAt<T>(buf: seq<T>, order: seq<nat>, f: nat --> T, i: nat)
    requires forall k :: 0 <= k < |order| ==> order[k] < |buf|
    requires forall i :: 0 <= i < |buf| ==> f.requires(i)
    requires i < |buf|
    ensures WriteInOrder(buf, order, f)[i] == if i in order then f(i) else buf[i]
    decreases |order|
  {
    if order != [] {
      WriteInOrderAt(buf[order[0] := f(order[0])], order[1..], f, i);
      assert i in order <==> i == order[0] || i in order[1..];
    }
  }

  /** When `order` visits every slot, each slot ends up holding f of its
      index, whatever the buffer held before. */
  lemma WriteInCoveringOrder<T>(buf: seq<T>, order: seq<nat>, f: nat --> T)
    requires forall k :: 0 <= k < |order| ==> order[k] < |buf|
    requires forall i :: 0 <= i < |buf| ==> f.requires(i)
    requires forall i :: 0 <= i < |buf| ==> i in order
    ensures forall i :: 0 <= i < |buf| ==> WriteInOrder(buf, order, f)[i] == f(i)
  {
    forall i | 0 <= i < |buf|
      ensures WriteInOrder(buf, order, f)[i] == f(i)
    {
      WriteInOrderAt(buf, order, f, i);
    }
  }

  /** Synchronous update of the headings: since every heading written is
      computed from the snapshot and never from the buffer, visiting the
      particles in ANY order that covers them all, starting from ANY buffer
      content, gives the tick's headings. */
  lemma AnglesAreOrderIndependent(ps: seq<Vec>, angles: seq<real>, draws: seq<real>,
                                  order: seq<nat>, angleBuf: seq<real>)
    requires |ps| == |angles| <= |draws| && |angleBuf| == |ps|
    requires forall k :: 0 <= k < |order| ==> order[k] < |ps|
    requires forall i :: 0 <= i < |ps| ==> i in order
    ensures WriteInOrder(angleBuf, order, (i: nat) requires i < |ps| => NewAngle(ps, angles, draws, i))
            == StepAngles(ps, angles, draws)
  {
    var f := (i: nat) requires i < |ps| => NewAngle(ps, angles, draws, i);
    WriteInCoveringOrder(angleBuf, order, f);
    var r := WriteInOrder(angleBuf, order, f);
    assert forall i :: 0 <= i < |ps| ==> r[i] == StepAngles(ps, angles, draws)[i];
  }

  /** Synchronous update of the positions, in the same sense. */
  lemma PositionsAreOrderIndependent(ps: seq<Vec>, angles: seq<real>, draws: seq<real>, cosSin: real -> Vec,
                                     order: seq<nat>, posBuf: seq<Vec>)
    requires |ps| == |angles| <= |draws| && |posBuf| == |ps|
    requires forall k :: 0 <= k < |order| ==> order[k] < |ps|
    requires forall i :: 0 <= i < |ps| ==> i in order
    ensures WriteInOrder(posBuf, order, (i: nat) requires i < |ps| => NewPosition(ps, angles, draws, cosSin, i))
            == StepPositions(ps, angles, draws, cosSin)
  {
    var f := (i: nat) requires i < |ps| => NewPosition(ps, angles, draws, cosSin, i);
    WriteInCoveringOrder(posBuf, order, f);
    var r := WriteInOrder(posBuf, order, f);
    assert forall i :: 0 <= i < |ps| ==> r[i] == StepPositions(ps, angles, draws, cosSin)[i];
  }

  /** The simulation state the script keeps in its globals. */
  class Swarm {
    var positions: array<Vec>
    var angles: array<real>

    /** One position and one heading per particle. */
    ghost predicate Valid()
      reads this
    {
      positions.Length == N && angles.Length == N
    }

    /** Every particle is in the box and outside the barrier. */
    ghost predicate Placed()
      reads this, positions
    {
      AllPlaced(positions[..])
    }

    constructor (positions: array<Vec>, angles: array<real>)
      requires positions.Length == N && angles.Length == N
      ensures Valid() && this.positions == positions && this.angles == angles
    {
      this.positions := positions;
      this.angles := angles;
    }

    /** One frame of the animation: fills fresh arrays from the current ones,
        particle by particle, then replaces both globals. `draws[i]` is the
        uniform draw on [-pi, pi] for particle i; `cosSin` stands for the pair
        (cos, sin). */
    method Animate(draws: seq<real>, cosSin: real -> Vec)
      requires Valid() && |draws| >= N
      modifies this
      ensures Valid() && fresh(positions) && fresh(angles)
      ensures angles[..] == StepAngles(old(positions[..]), old(angles[..]), draws)
      ensures positions[..] == StepPositions(old(positions[..]), old(angles[..]), draws, cosSin)
      ensures old(Placed()) && UnitBounded(cosSin) ==> Placed()
    {
      var ps, hs := positions, angles;
      ghost var snapPs, snapAs := ps[..], hs[..];
      var newPositions := new Vec[N];
      var newAngles := new real[N];
      for i := 0 to N
        invariant ps[..] == snapPs && hs[..] == snapAs
        invariant forall k :: 0 <= k < i ==> newAngles[k] == NewAngle(snapPs, snapAs, draws, k)
        invariant forall k :: 0 <= k < i ==> newPositions[k] == NewPosition(snapPs, snapAs, draws, cosSin, k)
      {
        var neighbourAngles := CollectNeighbourAngles(ps, hs, i);
        newAngles[i] := NewHeading(neighbourAngles, hs[i], draws[i]);
        assert newAngles[i] == NewAngle(snapPs, snapAs, draws, i);
        newPositions[i] := BarrierCollision(ps[i], newAngles[i], cosSin);
        newPositions[i] := WrapVec(newPositions[i]);
      }
      assert newAngles[..] == StepAngles(snapPs, snapAs, draws);
      assert newPositions[..] == StepPositions(snapPs, snapAs, draws, cosSin);
      positions, angles := newPositions, newAngles;
      if old(Placed()) && UnitBounded(cosSin) {
        StepKeepsOutsideBarrier(snapPs, snapAs, draws, cosSin);
      }
    }
  }

  /** Some candidate lies outside the closed barrier. */
  ghost predicate HasFreeCandidate(candidates: seq<Vec>) {
    exists j :: 0 <= j < |candidates| && !InBarrier(candidates[j])
  }

  /** The rejection loop for one particle: the first candidate outside the
      closed barrier. `candidates` is the stream of uniform draws; the model
      reports `found == false` if the stream runs out. */
  method DrawOutsideBarrier(candidates: seq<Vec>) returns (found: bool, k: nat)
    ensures found <==> HasFreeCandidate(candidates)
    ensures found ==> k < |candidates| && !InBarrier(candidates[k])
    ensures found ==> forall j :: 0 <= j < k ==> InBarrier(candidates[j])
  {
    k := 0;
    while k < |candidates| && InBarrier(candidates[k])
      invariant k <= |candidates|
      invariant forall j :: 0 <= j < k ==> InBarrier(candidates[j])
    {
      k := k + 1;
    }
    found := k < |candidates|;
  }

  /** Initial placement: particle i takes the first of its candidates that is
      outside the barrier. Candidates are uniform on [0, L) x [0, L). */
  method PlaceParticles(candidates: seq<seq<Vec>>) returns (positions: array<Vec>, ok: bool)
    requires |candidates| == N
    requires forall i, j :: 0 <= i < N && 0 <= j < |candidates[i]| ==> InBox(candidates[i][j])
    ensures fresh(positions) && positions.Length == N
    ensures ok ==> AllPlaced(positions[..])
    ensures ok ==> forall i :: 0 <= i < N ==> positions[i] in candidates[i]
    ensures !ok <==> exists i :: 0 <= i < N && !HasFreeCandidate(candidates[i])
  {
    positions := new Vec[N];
    ok := true;
    var i := 0;
    while i < N
      invariant 0 <= i <= N
      invariant forall m :: 0 <= m < i ==> InBox(positions[m]) && !InBarrier(positions[m]) && positions[m] in candidates[m]
      invariant forall m :: 0 <= m < i ==> HasFreeCandidate(candidates[m])
    {
      var found, k := DrawOutsideBarrier(candidates[i]);
      if !found {
        ok := false;
        return;
      }
      positions[i] := candidates[i][k];
      i := i + 1;
    }
  }
}
