/** The two numpy primitives the sinusoid is built on: `np.linspace` from 0,
    which lays out both of its grids, and the first-occurrence
    `np.argmin(np.abs(grid - x))`, which maps a location or an instant to the
    nearest grid index. Real numbers stand for numpy's floats. */
module Grid {

  /** The number of points on the time grid and on the space grid. */
  const N: nat := 1000

  /** The first k multiples of step, `np.arange(k) * step`. */
  function Ramp(step: real, k: nat): (r: seq<real>)
    ensures |r| == k
  {
    if k == 0 then [] else Ramp(step, k - 1) + [((k - 1) as real) * step]
  }

  lemma {:induction false} RampAt(step: real, k: nat, i: nat)
    requires i < k
    ensures Ramp(step, k)[i] == (i as real) * step
  {
    if i < k - 1 {
      RampAt(step, k - 1, i);
    }
  }

  /** `np.linspace(0, stop, n)`: n evenly spaced samples from 0 to stop, both
      ends included. numpy computes the samples as multiples of the step
      stop / (n - 1) and then sets the last one to stop exactly; a single sample
      is the start, 0. */
  function Linspace(stop: real, n: nat): (r: seq<real>)
    ensures |r| == n
    ensures n >= 1 ==> r[0] == 0.0
    ensures n >= 2 ==> r[n - 1] == stop
  {
    if n < 2 then seq(n, i => 0.0)
    else
      RampAt(stop / ((n - 1) as real), n - 1, 0);
      Ramp(stop / ((n - 1) as real), n - 1) + [stop]
  }

  /** Every sample but the last is its multiple of the step; the last is stop,
      which is also (n - 1) steps. */
  lemma LinspaceAt(stop: real, n: nat, i: nat)
    requires 2 <= n && i < n
    ensures Linspace(stop, n)[i] == LinspacePoint(stop, n, i)
  {
    if i < n - 1 {
      RampAt(stop / ((n - 1) as real), n - 1, i);
    } else {
      LastStep(stop, n);
    }
  }

  /** Sample i of an n-point linspace to stop (n >= 2): i · stop / (n - 1). */
  function LinspacePoint(stop: real, n: nat, i: nat): real
    requires n >= 2
  {
    (i as real) * (stop / ((n - 1) as real))
  }

  ghost predicate StrictlyIncreasing(s: seq<real>) {
    forall i, j :: 0 <= i < j < |s| ==> s[i] < s[j]
  }

  lemma StepGrows(stop: real, n: nat, i: nat, j: nat)
    requires stop > 0.0 && 2 <= n && i < j <= n - 1
    ensures (i as real) * (stop / ((n - 1) as real)) < (j as real) * (stop / ((n - 1) as real))
  {
    var step := stop / ((n - 1) as real);
    assert step > 0.0;
  }

  lemma LastStep(stop: real, n: nat)
    requires 2 <= n
    ensures ((n - 1) as real) * (stop / ((n - 1) as real)) == stop
  {
  }

  /** With a positive end point the grid is strictly increasing. */
  lemma LinspaceIncreasing(stop: real, n: nat)
    requires stop > 0.0
    ensures StrictlyIncreasing(Linspace(stop, n))
  {
    var s := Linspace(stop, n);
    if n >= 2 {
      forall i, j | 0 <= i < j < n
        ensures s[i] < s[j]
      {
        LinspaceAt(stop, n, i);
        LinspaceAt(stop, n, j);
        StepGrows(stop, n, i, j);
      }
    }
  }

  /** |a - x|, numpy's `np.abs` of the difference. */
  function Dist(a: real, x: real): real {
    if a < x then x - a else a - x
  }

  /** k is where `np.argmin(np.abs(s - x))` lands: a valid index whose distance
      to x is least, and no earlier index is as close (the first minimum). */
  ghost predicate IsFirstNearest(s: seq<real>, x: real, k: nat) {
    k < |s| &&
    (forall j :: 0 <= j < |s| ==> Dist(s[k], x) <= Dist(s[j], x)) &&
    (forall j :: 0 <= j < k ==> Dist(s[k], x) < Dist(s[j], x))
  }

  /** The first index of the minimum of |s[j] - x| over j, found by scanning
      the prefixes of s. */
  function FirstNearest(s: seq<real>, x: real): (k: nat)
    requires |s| > 0
    ensures IsFirstNearest(s, x, k)
    decreases |s|
  {
    if |s| == 1 then 0
    else
      var k := FirstNearest(s[..|s| - 1], x);
      if Dist(s[|s| - 1], x) < Dist(s[k], x) then |s| - 1 else k
  }

  /** `np.argmin(np.abs(s[:, None] - z[None, :]), axis=0)`: the first nearest
      index of s for every target in z, in the order of z. */
  function NearestIndices(s: seq<real>, z: seq<real>): (r: seq<nat>)
    requires |s| > 0
    ensures |r| == |z|
  {
    if z == [] then [] else [FirstNearest(s, z[0])] + NearestIndices(s, z[1..])
  }

  lemma {:induction false} NearestIndicesAt(s: seq<real>, z: seq<real>, t: nat)
    requires |s| > 0 && t < |z|
    ensures NearestIndices(s, z)[t] == FirstNearest(s, z[t])
  {
    if t > 0 {
      NearestIndicesAt(s, z[1..], t - 1);
    }
  }

  /** The first-minimum property determines the index: argmin has exactly one
      answer. */
  lemma FirstNearestUnique(s: seq<real>, x: real, k1: nat, k2: nat)
    requires IsFirstNearest(s, x, k1) && IsFirstNearest(s, x, k2)
    ensures k1 == k2
  {
    assert Dist(s[k1], x) <= Dist(s[k2], x) && Dist(s[k2], x) <= Dist(s[k1], x);
  }

  /** On an increasing grid the lookup clamps to the ends and finds grid
      points exactly: a query at or below the first sample gives 0, one at or
      above the last sample gives the last index, and one equal to a sample
      gives that sample's index. */
  lemma NearestOnIncreasingGrid(s: seq<real>, x: real)
    requires StrictlyIncreasing(s) && |s| > 0
    ensures x <= s[0] ==> FirstNearest(s, x) == 0
    ensures x >= s[|s| - 1] ==> FirstNearest(s, x) == |s| - 1
    ensures forall i :: 0 <= i < |s| && s[i] == x ==> FirstNearest(s, x) == i
  {
    var k := FirstNearest(s, x);
    var last := |s| - 1;
    assert s[0] <= s[k] <= s[last];
    forall i | 0 <= i < |s| && s[i] == x
      ensures k == i
    {
      assert Dist(s[k], x) <= Dist(s[i], x);
    }
  }

  /** On an increasing grid the lookup is monotone: a larger query never maps
      to an earlier index. */
  lemma NearestMonotone(s: seq<real>, x: real, y: real)
    requires StrictlyIncreasing(s) && |s| > 0
    requires x <= y
    ensures FirstNearest(s, x) <= FirstNearest(s, y)
  {
    var kx := FirstNearest(s, x);
    // every sample before s[kx] is strictly farther from y than s[kx] is
    forall j | 0 <= j < kx
      ensures Dist(s[kx], y) < Dist(s[j], y)
    {
      StaysNearer(s[j], s[kx], x, y);
    }
  }

  /** If b > a is strictly nearer to x than a, it stays strictly nearer to
      every point beyond x. */
  lemma StaysNearer(a: real, b: real, x: real, y: real)
    requires a < b && x <= y && Dist(b, x) < Dist(a, x)
    ensures Dist(b, y) < Dist(a, y)
  {
  }

  /** On a linspace from 0, index 0 is the nearest sample to 0. */
  lemma LinspaceNearestStart(stop: real, n: nat)
    requires stop > 0.0 && n >= 1
    ensures IsFirstNearest(Linspace(stop, n), 0.0, 0)
  {
    LinspaceIncreasing(stop, n);
    NearestOnIncreasingGrid(Linspace(stop, n), 0.0);
  }
}
