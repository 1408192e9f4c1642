/** A traveling sinusoid v(z, t) = Re{ p(z) e^{j omega t} } held both as a
    phasor over a space grid and as a sampled time-domain field over a time x
    space grid, with two cursors (a current time and a current location) that
    are kept snapped to the nearest grid index. */
module Sinusoidal {
  import opened Complexes
  import opened Grid

  datatype Option<T> = None | Some(value: T)

  /** numpy's `np.pi`. */
  const Pi: real := 3.141592653589793

  // ---------------------------------------------------------------------------
  // Sample locations
  // ---------------------------------------------------------------------------

  /** The locations that `generate_z_samples` looks up: numSamples points over
      one wavelength 2·pi/beta when beta > 0 (a negative count makes
      `np.linspace` raise, modelled as None), otherwise always 8 points over the
      whole space window, whatever numSamples is. */
  function ZTargets(beta: real, maxSpace: real, numSamples: int): (r: Option<seq<real>>)
    ensures r.None? <==> beta > 0.0 && numSamples < 0
    ensures r.Some? ==> |r.value| == if beta > 0.0 then numSamples else 8
    ensures r.Some? && |r.value| >= 1 ==> r.value[0] == 0.0
    ensures r.Some? && |r.value| >= 2 ==> r.value[|r.value| - 1] == if beta > 0.0 then 2.0 * Pi / beta else maxSpace
  {
    if beta > 0.0 then
      if numSamples < 0 then None else Some(Linspace(2.0 * Pi / beta, numSamples))
    else
      Some(Linspace(maxSpace, 8))
  }

  /** `generate_z_samples`: the nearest space index of every target location. */
  function ZSamples(space: seq<real>, beta: real, maxSpace: real, numSamples: int): (r: Option<seq<nat>>)
    requires |space| > 0
    ensures r.None? <==> beta > 0.0 && numSamples < 0
    ensures r.Some? ==> |r.value| == if beta > 0.0 then numSamples else 8
  {
    match ZTargets(beta, maxSpace, numSamples)
    case None => None
    case Some(z) => Some(NearestIndices(space, z))
  }

  /** Each sample index is the first nearest space index of its target. */
  lemma ZSamplesAreNearest(space: seq<real>, beta: real, maxSpace: real, numSamples: int)
    requires |space| > 0
    ensures var r := ZSamples(space, beta, maxSpace, numSamples);
      r.Some? ==> forall t :: 0 <= t < |r.value| ==>
        IsFirstNearest(space, ZTargets(beta, maxSpace, numSamples).value[t], r.value[t])
  {
    var targets := ZTargets(beta, maxSpace, numSamples);
    if targets.Some? {
      forall t | 0 <= t < |targets.value|
        ensures IsFirstNearest(space, targets.value[t], NearestIndices(space, targets.value)[t])
      {
        NearestIndicesAt(space, targets.value, t);
      }
    }
  }

  lemma WavelengthPositive(beta: real)
    requires beta > 0.0
    ensures 2.0 * Pi / beta > 0.0
  {
    var w := 2.0 * Pi / beta;
    assert w * beta == 2.0 * Pi;
  }

  /** The target locations increase, and so, on an increasing grid, the sample
      indices never decrease. */
  lemma ZSamplesSorted(space: seq<real>, beta: real, maxSpace: real, numSamples: int)
    requires |space| > 0 && StrictlyIncreasing(space) && maxSpace > 0.0
    ensures ZSamples(space, beta, maxSpace, numSamples).Some? ==>
      var r := ZSamples(space, beta, maxSpace, numSamples).value;
      forall a, b :: 0 <= a <= b < |r| ==> r[a] <= r[b]
  {
    var targets := ZTargets(beta, maxSpace, numSamples);
    if targets.Some? {
      var z := targets.value;
      if beta > 0.0 {
        WavelengthPositive(beta);
        LinspaceIncreasing(2.0 * Pi / beta, numSamples);
      } else {
        LinspaceIncreasing(maxSpace, 8);
      }
      var r := ZSamples(space, beta, maxSpace, numSamples).value;
      forall a, b | 0 <= a <= b < |r|
        ensures r[a] <= r[b]
      {
        assert z[a] <= z[b];
        NearestIndicesAt(space, z, a);
        NearestIndicesAt(space, z, b);
        NearestMonotone(space, z[a], z[b]);
      }
    }
  }

  /** A target at or beyond the end of the space window maps to the last
      index. */
  lemma ZSamplesClampAtEnd(space: seq<real>, beta: real, maxSpace: real, numSamples: int, t: nat)
    requires |space| > 0 && StrictlyIncreasing(space)
    requires ZTargets(beta, maxSpace, numSamples).Some?
    requires t < |ZTargets(beta, maxSpace, numSamples).value|
    requires ZTargets(beta, maxSpace, numSamples).value[t] >= space[|space| - 1]
    ensures ZSamples(space, beta, maxSpace, numSamples).value[t] == |space| - 1
  {
    var z := ZTargets(beta, maxSpace, numSamples).value;
    NearestIndicesAt(space, z, t);
    NearestOnIncreasingGrid(space, z[t]);
  }

  /** On the object's own space grid the samples run from index 0 to the last
      index whenever the targets reach the end of the window: always when
      beta <= 0, and when beta > 0 as soon as one wavelength is at least the
      window (with at least two samples). */
  lemma ZSamplesSpanWindow(beta: real, maxSpace: real, numSamples: int)
    requires maxSpace > 0.0
    requires beta <= 0.0 || (numSamples >= 2 && 2.0 * Pi / beta >= maxSpace)
    ensures var r := ZSamples(Linspace(maxSpace, N), beta, maxSpace, numSamples);
      r.Some? && |r.value| >= 2 && r.value[0] == 0 && r.value[|r.value| - 1] == N - 1
  {
    var space := Linspace(maxSpace, N);
    LinspaceIncreasing(maxSpace, N);
    var z := ZTargets(beta, maxSpace, numSamples).value;
    NearestIndicesAt(space, z, 0);
    NearestIndicesAt(space, z, |z| - 1);
    NearestOnIncreasingGrid(space, z[0]);
    NearestOnIncreasingGrid(space, z[|z| - 1]);
  }

  // ---------------------------------------------------------------------------
  // The phasor and the space-time fields
  // ---------------------------------------------------------------------------

  /** `np.exp(theta * 1j)` is supplied as a function expj; these are the two laws
      of the complex exponential that the lemmas below rely on. */
  ghost predicate IsExponential(expj: real -> Complex) {
    forall a, b {:trigger Mul(expj(a), expj(b))} :: Mul(expj(a), expj(b)) == expj(a + b)
  }

  ghost predicate OnUnitCircle(expj: real -> Complex) {
    forall a :: NormSq(expj(a)) == 1.0
  }

  /** e^{-j beta z}, the phase lag of the wave at location z. */
  function SpaceFactor(expj: real -> Complex, beta: real, z: real): Complex {
    expj(-beta * z)
  }

  /** e^{j omega t}, the rotation of the phasor at instant t. */
  function TimeFactor(expj: real -> Complex, omega: real, t: real): Complex {
    expj(omega * t)
  }

  /** The phasor over the space grid:
      magnitude · e^{j phase} · e^{-j beta z} at every location z. */
  function PhasorField(expj: real -> Complex, magnitude: real, phase: real, beta: real, space: seq<real>): (r: seq<Complex>)
    ensures |r| == |space|
  {
    if space == [] then []
    else [Mul(Scale(magnitude, expj(phase)), SpaceFactor(expj, beta, space[0]))] + PhasorField(expj, magnitude, phase, beta, space[1..])
  }

  /** A row of complex values, each multiplied by w. */
  function Rotate(row: seq<Complex>, w: Complex): (r: seq<Complex>)
    ensures |r| == |row|
  {
    if row == [] then [] else [Mul(row[0], w)] + Rotate(row[1..], w)
  }

  /** The space-time field: one row per instant t, the phasor times
      e^{j omega t}. */
  function SpaceTimeField(expj: real -> Complex, phasor: seq<Complex>, omega: real, time: seq<real>): (r: seq<seq<Complex>>)
    ensures |r| == |time|
  {
    if time == [] then [] else [Rotate(phasor, TimeFactor(expj, omega, time[0]))] + SpaceTimeField(expj, phasor, omega, time[1..])
  }

  /** `np.real` of a row. */
  function RealRow(row: seq<Complex>): (r: seq<real>)
    ensures |r| == |row|
  {
    if row == [] then [] else [row[0].re] + RealRow(row[1..])
  }

  /** `np.real` of a matrix. */
  function RealPart(f: seq<seq<Complex>>): (r: seq<seq<real>>)
    ensures |r| == |f|
  {
    if f == [] then [] else [RealRow(f[0])] + RealPart(f[1..])
  }

  lemma {:induction false} PhasorFieldAt(expj: real -> Complex, magnitude: real, phase: real, beta: real, space: seq<real>, j: nat)
    requires j < |space|
    ensures PhasorField(expj, magnitude, phase, beta, space)[j] == Mul(Scale(magnitude, expj(phase)), SpaceFactor(expj, beta, space[j]))
  {
    if j > 0 {
      PhasorFieldAt(expj, magnitude, phase, beta, space[1..], j - 1);
    }
  }

  lemma {:induction false} RotateAt(row: seq<Complex>, w: Complex, j: nat)
    requires j < |row|
    ensures Rotate(row, w)[j] == Mul(row[j], w)
  {
    if j > 0 {
      RotateAt(row[1..], w, j - 1);
    }
  }

  lemma {:induction false} SpaceTimeFieldAt(expj: real -> Complex, phasor: seq<Complex>, omega: real, time: seq<real>, i: nat)
    requires i < |time|
    ensures SpaceTimeField(expj, phasor, omega, time)[i] == Rotate(phasor, TimeFactor(expj, omega, time[i]))
  {
    if i > 0 {
      SpaceTimeFieldAt(expj, phasor, omega, time[1..], i - 1);
    }
  }

  lemma {:induction false} RealRowAt(row: seq<Complex>, j: nat)
    requires j < |row|
    ensures RealRow(row)[j] == row[j].re
  {
    if j > 0 {
      RealRowAt(row[1..], j - 1);
    }
  }

  lemma {:induction false} RealPartAt(f: seq<seq<Complex>>, i: nat)
    requires i < |f|
    ensures RealPart(f)[i] == RealRow(f[i])
  {
    if i > 0 {
      RealPartAt(f[1..], i - 1);
    }
  }

  /** What `set_phasor` computes, point by point: the phasor has one entry per
      location; the space-time field and its real part have one row per
      instant and one column per location; entry (i, j) of the field is
      phasor[j] · e^{j omega time[i]}, and the real field holds its real
      part. */
  lemma FieldsAt(expj: real -> Complex, magnitude: real, phase: real, beta: real, omega: real,
                 time: seq<real>, space: seq<real>, i: nat, j: nat)
    requires i < |time| && j < |space|
    ensures var p := PhasorField(expj, magnitude, phase, beta, space);
      var f := SpaceTimeField(expj, p, omega, time);
      var v := RealPart(f);
      |p| == |space| && |f| == |time| && |v| == |time| && |f[i]| == |space| && |v[i]| == |space| &&
      p[j] == Mul(Scale(magnitude, expj(phase)), SpaceFactor(expj, beta, space[j])) &&
      f[i][j] == Mul(p[j], TimeFactor(expj, omega, time[i])) &&
      v[i][j] == f[i][j].re
  {
    var p := PhasorField(expj, magnitude, phase, beta, space);
    var f := SpaceTimeField(expj, p, omega, time);
    PhasorFieldAt(expj, magnitude, phase, beta, space, j);
    SpaceTimeFieldAt(expj, p, omega, time, i);
    RotateAt(p, TimeFactor(expj, omega, time[i]), j);
    RealPartAt(f, i);
    RealRowAt(f[i], j);
  }

  /** The reference signal v(z, t) = magnitude · cos(omega t - beta z + phase),
      with cos written as the real part of expj. */
  function Wave(expj: real -> Complex, magnitude: real, phase: real, beta: real, omega: real, z: real, t: real): real {
    magnitude * expj(phase - beta * z + omega * t).re
  }

  /** magnitude · e^{ja} · e^{jb} · e^{jc} = magnitude · e^{j(a + b + c)}. */
  lemma ProductOfRotations(expj: real -> Complex, magnitude: real, a: real, b: real, c: real)
    requires IsExponential(expj)
    ensures Mul(Mul(Scale(magnitude, expj(a)), expj(b)), expj(c)) == Scale(magnitude, expj(a + b + c))
  {
    MulScaleLeft(magnitude, expj(a), expj(b));
    assert Mul(expj(a), expj(b)) == expj(a + b);
    MulScaleLeft(magnitude, expj(a + b), expj(c));
    assert Mul(expj(a + b), expj(c)) == expj(a + b + c);
  }

  /** The sampled real field is the traveling wave at every grid point. */
  lemma RealFieldIsWave(expj: real -> Complex, magnitude: real, phase: real, beta: real, omega: real,
                        time: seq<real>, space: seq<real>, i: nat, j: nat)
    requires IsExponential(expj)
    requires i < |time| && j < |space|
    ensures var f := RealPart(SpaceTimeField(expj, PhasorField(expj, magnitude, phase, beta, space), omega, time));
      |f| == |time| && |f[i]| == |space| &&
      f[i][j] == Wave(expj, magnitude, phase, beta, omega, space[j], time[i])
  {
    FieldsAt(expj, magnitude, phase, beta, omega, time, space, i, j);
    ProductOfRotations(expj, magnitude, phase, -beta * space[j], omega * time[i]);
    assert phase + -beta * space[j] + omega * time[i] == phase - beta * space[j] + omega * time[i];
  }

  /** |phasor[j]| = |magnitude| and |field[i][j]| = |magnitude| at every grid
      point: the exponentials only rotate. */
  lemma FieldModulus(expj: real -> Complex, magnitude: real, phase: real, beta: real, omega: real,
                     time: seq<real>, space: seq<real>, i: nat, j: nat)
    requires OnUnitCircle(expj)
    requires i < |time| && j < |space|
    ensures var p := PhasorField(expj, magnitude, phase, beta, space);
      var f := SpaceTimeField(expj, p, omega, time);
      NormSq(p[j]) == magnitude * magnitude &&
      |f[i]| == |space| && NormSq(f[i][j]) == magnitude * magnitude
  {
    FieldsAt(expj, magnitude, phase, beta, omega, time, space, i, j);
    var p, q, w := expj(phase), SpaceFactor(expj, beta, space[j]), TimeFactor(expj, omega, time[i]);
    NormSqScale(magnitude, p);
    NormSqMul(Scale(magnitude, p), q);
    NormSqMul(Mul(Scale(magnitude, p), q), w);
  }

  /** With beta = 0 nothing depends on the location: every row of the real
      field is constant over space (a standing, non-propagating signal). */
  lemma StandingWhenBetaZero(expj: real -> Complex, magnitude: real, phase: real, omega: real,
                             time: seq<real>, space: seq<real>, i: nat, j: nat)
    requires i < |time| && j < |space|
    ensures var f := RealPart(SpaceTimeField(expj, PhasorField(expj, magnitude, phase, 0.0, space), omega, time));
      |f| == |time| && |f[i]| == |space| && f[i][j] == f[i][0]
  {
    FieldsAt(expj, magnitude, phase, 0.0, omega, time, space, i, j);
    FieldsAt(expj, magnitude, phase, 0.0, omega, time, space, i, 0);
    var p := PhasorField(expj, magnitude, phase, 0.0, space);
    assert -0.0 * space[j] == -0.0 * space[0];
    assert p[j] == p[0];
  }

  /** The only complex number on the unit circle that equals its own square
      is 1. */
  lemma UnitSquareRoot(x: real, y: real)
    requires x == x * x - y * y && y == 2.0 * x * y && x * x + y * y == 1.0
    ensures x == 1.0 && y == 0.0
  {
    // a = (2x + 1)(x - 1) and b = x(x - 1)(1 - 2x) both vanish, and
    // (x - 1)a + b = -(x - 1)
    var a := (2.0 * x + 1.0) * (x - 1.0);
    var b := x * (x - 1.0) * (1.0 - 2.0 * x);
    assert a == 0.0;
    assert y * y * (1.0 - 2.0 * x) == 0.0;
    assert b == 0.0;
    assert (x - 1.0) * a + b == 1.0 - x;
  }

  /** The exponential laws force e^{j·0} = 1. */
  lemma ExpjAtZero(expj: real -> Complex)
    requires IsExponential(expj) && OnUnitCircle(expj)
    ensures expj(0.0) == Complex(1.0, 0.0)
  {
    var e := expj(0.0);
    SquareAtZero(expj);
    UnitSquareRoot(e.re, e.im);
  }

  /** e^{j·0} is its own square and lies on the unit circle, written out in
      components. */
  lemma SquareAtZero(expj: real -> Complex)
    requires IsExponential(expj) && OnUnitCircle(expj)
    ensures var e := expj(0.0);
      e.re == e.re * e.re - e.im * e.im && e.im == 2.0 * e.re * e.im && e.re * e.re + e.im * e.im == 1.0
  {
    var e := expj(0.0);
    assert Mul(e, e) == expj(0.0 + 0.0);
    assert NormSq(e) == 1.0;
  }

  /** With phase 0 and beta 0 the signal at time 0 equals the magnitude at
      every location. */
  lemma StartRowIsMagnitude(expj: real -> Complex, magnitude: real, omega: real, maxTime: real,
                            space: seq<real>, j: nat)
    requires IsExponential(expj) && OnUnitCircle(expj)
    requires maxTime > 0.0 && j < |space|
    ensures RealPart(SpaceTimeField(expj, PhasorField(expj, magnitude, 0.0, 0.0, space), omega, Linspace(maxTime, N)))[0][j] == magnitude
  {
    var time := Linspace(maxTime, N);
    RealFieldIsWave(expj, magnitude, 0.0, 0.0, omega, time, space, 0, j);
    assert 0.0 - 0.0 * space[j] + omega * time[0] == 0.0;
    ExpjAtZero(expj);
  }

  // ---------------------------------------------------------------------------
  // The signal object
  // ---------------------------------------------------------------------------

  class SinusoidSignal {
    var magnitude: real
    var phase: real
    // nothing in the class reassigns these four parameters or expj
    const beta: real
    const omega: real
    const maxTime: real
    const maxSpace: real
    /** `np.exp(theta * 1j)` */
    const expj: real -> Complex

    // the grids and the sample indices are set once, by the constructor
    const time: seq<real>
    const space: seq<real>
    const spaceSampleIndices: seq<nat>
    var currentTime: real
    var currentTimeIdx: nat
    var currentLoc: real
    var currentLocIdx: nat
    var phasor: seq<Complex>
    var spaceTimeVec: seq<seq<Complex>>
    var vzt: seq<seq<real>>
    var currentPhasor: seq<Complex>

    /** Both grids are the 1000-point linspaces of their windows. */
    ghost predicate GridsValid() {
      maxTime > 0.0 && maxSpace > 0.0 &&
      time == Linspace(maxTime, N) && space == Linspace(maxSpace, N)
    }

    /** The cached fields are those of the current magnitude and phase. */
    ghost predicate FieldsCurrent()
      reads this`magnitude, this`phase, this`phasor, this`spaceTimeVec, this`vzt
    {
      phasor == PhasorField(expj, magnitude, phase, beta, space) &&
      spaceTimeVec == SpaceTimeField(expj, phasor, omega, time) &&
      vzt == RealPart(spaceTimeVec)
    }

    /** The time cursor's index is the nearest time-grid index of the cursor. */
    ghost predicate TimeCursorValid()
      reads this`currentTime, this`currentTimeIdx
    {
      IsFirstNearest(time, currentTime, currentTimeIdx)
    }

    /** The location cursor's index is the nearest space-grid index of the
        cursor. */
    ghost predicate LocCursorValid()
      reads this`currentLoc, this`currentLocIdx
    {
      IsFirstNearest(space, currentLoc, currentLocIdx)
    }

    /** The current phasor is the field row at the current time index. */
    ghost predicate RowCurrent()
      reads this`spaceTimeVec, this`currentTimeIdx, this`currentPhasor
    {
      currentTimeIdx < |spaceTimeVec| && currentPhasor == spaceTimeVec[currentTimeIdx]
    }

    /** The sample indices are those of `generate_z_samples()` on the space
        grid, with its default count of 8. */
    ghost predicate SamplesValid() {
      |space| > 0 && Some(spaceSampleIndices) == ZSamples(space, beta, maxSpace, 8)
    }

    /** What the invariant promises about the stored samples: 8 indices into
        the space grid, non-decreasing, each the first nearest index of its
        target location, starting at index 0, and ending at the last index
        when beta <= 0 (the targets then span the whole window). */
    lemma SamplesOfValid()
      requires GridsValid() && SamplesValid()
      ensures |spaceSampleIndices| == 8
      ensures forall a, b :: 0 <= a <= b < 8 ==> spaceSampleIndices[a] <= spaceSampleIndices[b]
      ensures forall t :: 0 <= t < 8 ==>
        spaceSampleIndices[t] < N && IsFirstNearest(space, ZTargets(beta, maxSpace, 8).value[t], spaceSampleIndices[t])
      ensures spaceSampleIndices[0] == 0
      ensures beta <= 0.0 ==> spaceSampleIndices[7] == N - 1
    {
      LinspaceIncreasing(maxSpace, N);
      ZSamplesSorted(space, beta, maxSpace, 8);
      ZSamplesAreNearest(space, beta, maxSpace, 8);
      var z := ZTargets(beta, maxSpace, 8).value;
      NearestIndicesAt(space, z, 0);
      NearestOnIncreasingGrid(space, z[0]);
      NearestIndicesAt(space, z, 7);
      NearestOnIncreasingGrid(space, z[7]);
    }

    /** The object invariant: everything above at once. */
    ghost predicate Valid()
      reads this
    {
      GridsValid() && SamplesValid() && FieldsCurrent() &&
      TimeCursorValid() && LocCursorValid() && RowCurrent()
    }

    /** `__post_init__`: lay out both grids, put both cursors at 0, take the
        8 space samples, compute the three fields exactly as SetPhasor does
        and take the field row at time index 0 as the current phasor. */
    constructor (expj: real -> Complex, magnitude: real, phase: real, beta: real, omega: real,
                 maxTime: real := 10.0, maxSpace: real := 1.0)
      requires maxTime > 0.0 && maxSpace > 0.0
      ensures Valid()
      ensures this.magnitude == magnitude && this.phase == phase && this.beta == beta && this.omega == omega
      ensures this.maxTime == maxTime && this.maxSpace == maxSpace && this.expj == expj
      ensures currentTime == 0.0 && currentTimeIdx == 0 && currentLoc == 0.0 && currentLocIdx == 0
      ensures Some(spaceSampleIndices) == ZSamples(space, beta, maxSpace, 8)
      ensures time == Linspace(maxTime, N) && space == Linspace(maxSpace, N)
      ensures currentPhasor == spaceTimeVec[0]
    {
      var t := Linspace(maxTime, N);
      var z := Linspace(maxSpace, N);
      var p := PhasorField(expj, magnitude, phase, beta, z);
      var f := SpaceTimeField(expj, p, omega, t);
      this.magnitude := magnitude;
      this.phase := phase;
      this.beta := beta;
      this.omega := omega;
      this.maxTime := maxTime;
      this.maxSpace := maxSpace;
      this.expj := expj;
      time := t;
      currentTime := 0.0;
      currentTimeIdx := 0;
      space := z;
      currentLoc := 0.0;
      currentLocIdx := 0;
      spaceSampleIndices := ZSamples(z, beta, maxSpace, 8).value;
      phasor := p;
      spaceTimeVec := f;
      vzt := RealPart(f);
      currentPhasor := f[0];
      LinspaceNearestStart(maxTime, N);
      LinspaceNearestStart(maxSpace, N);
    }

    /** `set_phasor`: recompute the phasor, the space-time field and its real
        part from the current magnitude and phase; shapes are |space| and
        |time| x |space|. Recomputing with nothing changed leaves every field
        as it was. */
    method SetPhasor()
      modifies this`phasor, this`spaceTimeVec, this`vzt
      ensures FieldsCurrent()
      ensures old(FieldsCurrent()) ==> unchanged(this`phasor, this`spaceTimeVec, this`vzt)
    {
      phasor := PhasorField(expj, magnitude, phase, beta, space);
      spaceTimeVec := SpaceTimeField(expj, phasor, omega, time);
      vzt := RealPart(spaceTimeVec);
    }

    /** `get_time_index`: the first nearest time-grid index; it clamps to 0 and
        to the last index outside the window and finds grid instants exactly. */
    function GetTimeIndex(t: real): (k: nat)
      requires GridsValid()
      ensures k < N && IsFirstNearest(time, t, k)
      ensures t <= 0.0 ==> k == 0
      ensures t >= maxTime ==> k == N - 1
      ensures forall i :: 0 <= i < N && time[i] == t ==> k == i
    {
      LinspaceIncreasing(maxTime, N);
      NearestOnIncreasingGrid(time, t);
      FirstNearest(time, t)
    }

    /** `get_space_index`: the same lookup on the space grid. */
    function GetSpaceIndex(z: real): (k: nat)
      requires GridsValid()
      ensures k < N && IsFirstNearest(space, z, k)
      ensures z <= 0.0 ==> k == 0
      ensures z >= maxSpace ==> k == N - 1
      ensures forall i :: 0 <= i < N && space[i] == z ==> k == i
    {
      LinspaceIncreasing(maxSpace, N);
      NearestOnIncreasingGrid(space, z);
      FirstNearest(space, z)
    }

    /** The `magnitude` setter: store the value, recompute the fields and the
        current phasor; both cursor indices stay (the grids and the samples
        are constant). */
    method SetMagnitude(val: real)
      requires Valid()
      modifies this`magnitude, this`phasor, this`spaceTimeVec, this`vzt, this`currentPhasor
      ensures Valid()
      ensures magnitude == val
      ensures currentPhasor == spaceTimeVec[currentTimeIdx]
      ensures unchanged(this`currentTimeIdx, this`currentLocIdx)
    {
      magnitude := val;
      SetPhasor();
      currentPhasor := spaceTimeVec[currentTimeIdx];
    }

    /** The `phase` setter: as for magnitude. */
    method SetPhase(val: real)
      requires Valid()
      modifies this`phase, this`phasor, this`spaceTimeVec, this`vzt, this`currentPhasor
      ensures Valid()
      ensures phase == val
      ensures currentPhasor == spaceTimeVec[currentTimeIdx]
      ensures unchanged(this`currentTimeIdx, this`currentLocIdx)
    {
      phase := val;
      SetPhasor();
      currentPhasor := spaceTimeVec[currentTimeIdx];
    }

    /** The `current_time` setter: snap to the nearest instant and take that
        row of the field; no field is recomputed. Out-of-window times clamp. */
    method SetCurrentTime(val: real)
      requires Valid()
      modifies this`currentTime, this`currentTimeIdx, this`currentPhasor
      ensures Valid()
      ensures currentTime == val && currentTimeIdx == GetTimeIndex(val)
      ensures currentPhasor == spaceTimeVec[currentTimeIdx]
      ensures val >= maxTime ==> currentTimeIdx == N - 1
      ensures val <= 0.0 ==> currentTimeIdx == 0
      ensures unchanged(this`phasor, this`spaceTimeVec, this`vzt, this`currentLocIdx)
    {
      currentTime := val;
      currentTimeIdx := GetTimeIndex(val);
      currentPhasor := spaceTimeVec[currentTimeIdx];
    }

    /** The `current_loc` setter: snap to the nearest location; nothing else
        changes, the current phasor included. */
    method SetCurrentLoc(val: real)
      requires Valid()
      modifies this`currentLoc, this`currentLocIdx
      ensures Valid()
      ensures currentLoc == val && currentLocIdx == GetSpaceIndex(val)
      ensures val >= maxSpace ==> currentLocIdx == N - 1
      ensures val <= 0.0 ==> currentLocIdx == 0
      ensures unchanged(this`currentPhasor, this`currentTimeIdx, this`phasor, this`spaceTimeVec, this`vzt)
    {
      currentLoc := val;
      currentLocIdx := GetSpaceIndex(val);
    }
  }
}
