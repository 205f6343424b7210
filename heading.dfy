/** The heading rule: the new heading is the plain arithmetic mean of the
    neighbour headings plus a scaled noise draw; with no neighbours the old
    heading is kept. Headings are raw reals and are never reduced to (-pi, pi]. */
module Heading {
  import opened Params

  /** Sum of a list of headings. */
  function Sum(s: seq<real>): real {
    if s == [] then 0.0 else s[0] + Sum(s[1..])
  }

  /** The arithmetic mean of a non-empty list: the linear mean of the raw
      values, not the argument of the mean unit vector. */
  function Mean(s: seq<real>): (r: real)
    requires |s| > 0
    ensures r * |s| as real == Sum(s)
  {
    Sum(s) / |s| as real
  }

  /** New heading of one particle from the headings of its neighbours, its
      current heading and a uniform draw `draw` (the noise is Eta * draw). */
  function NewHeading(neighbourAngles: seq<real>, current: real, draw: real): (r: real)
    ensures neighbourAngles == [] ==> r == current
    ensures neighbourAngles != [] && draw == 0.0 ==> r == Mean(neighbourAngles)
  {
    if |neighbourAngles| > 0 then Mean(neighbourAngles) + Eta * draw else current
  }

  /** The noise is purely additive: the rule is the noiseless heading plus
      Eta * draw, never reduced to (-pi, pi]. */
  lemma NoiseIsAdditive(neighbourAngles: seq<real>, current: real, draw: real)
    requires neighbourAngles != []
    ensures NewHeading(neighbourAngles, current, draw) == NewHeading(neighbourAngles, current, 0.0) + Eta * draw
  {
  }

  /** A sum of values in [lo, hi] lies between |s| * lo and |s| * hi. */
  lemma {:induction false} SumBounds(s: seq<real>, lo: real, hi: real)
    requires forall k :: 0 <= k < |s| ==> lo <= s[k] <= hi
    ensures |s| as real * lo <= Sum(s) <= |s| as real * hi
  {
    if s != [] {
      SumBounds(s[1..], lo, hi);
      assert |s| as real * lo == lo + |s[1..]| as real * lo;
      assert |s| as real * hi == hi + |s[1..]| as real * hi;
    }
  }

  /** The mean lies between the smallest and the largest value. */
  lemma MeanBounds(s: seq<real>, lo: real, hi: real)
    requires |s| > 0
    requires forall k :: 0 <= k < |s| ==> lo <= s[k] <= hi
    ensures lo <= Mean(s) <= hi
  {
    var n := |s| as real;
    SumBounds(s, lo, hi);
    assert Mean(s) * n == Sum(s);
  }

  /** Neighbours that all share one heading pass it on unchanged when there
      is no noise. */
  lemma AlignedNeighboursKeepHeading(neighbourAngles: seq<real>, current: real, c: real)
    requires |neighbourAngles| > 0
    requires forall k :: 0 <= k < |neighbourAngles| ==> neighbourAngles[k] == c
    ensures NewHeading(neighbourAngles, current, 0.0) == c
  {
    MeanBounds(neighbourAngles, c, c);
  }

  /** The new heading lies in the range of the neighbour headings, shifted by
      the noise term. */
  lemma HeadingWithinNeighbourRange(neighbourAngles: seq<real>, current: real, draw: real, lo: real, hi: real)
    requires |neighbourAngles| > 0
    requires forall k :: 0 <= k < |neighbourAngles| ==> lo <= neighbourAngles[k] <= hi
    ensures lo + Eta * draw <= NewHeading(neighbourAngles, current, draw) <= hi + Eta * draw
  {
    MeanBounds(neighbourAngles, lo, hi);
  }

  /** Linear averaging of two opposed raw angles gives 0 whatever their size:
      two headings just either side of +-pi (nearly the same direction)
      average to the opposite direction. */
  lemma LinearMeanOfOpposedAngles(a: real)
    ensures Mean([a, -a]) == 0.0
  {
    assert [a, -a][1..] == [-a] && [-a][1..] == [];
    assert Sum([a, -a]) == a + Sum([-a]) == a + (-a + Sum([]));
  }
}
