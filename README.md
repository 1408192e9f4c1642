# SinusoidSignal in Dafny

This project models `SinusoidSignal` from `src/phasors/sinusoidal.py`. The class
describes a traveling sinusoid v(z, t) = Re{ magnitude · e^{j phase} ·
e^{-j beta z} · e^{j omega t} } and keeps several views of it:

- a 1000-point time grid over [0, max_time] and a 1000-point space grid over
  [0, max_space];
- the phasor over the space grid;
- the complex space-time field, one row per instant;
- its real part, the sampled signal v(z, t);
- the space-grid indices of 8 sample locations: spread over one wavelength
  2·pi/beta when beta > 0, and over the whole space window [0, max_space]
  otherwise;
- two cursors, a current time and a current location, each snapped to the
  nearest grid index, and the field row at the current time (the current
  phasor).

Changing the magnitude or the phase recomputes every field and the current
phasor. Moving the time cursor looks up the nearest instant and takes that
field row as the current phasor. Moving the location cursor only looks up the
nearest location.

The model has three modules:

- `Complexes` (`complexes.dfy`): complex numbers over the reals. It has the
  product, scaling by a real and the squared modulus, with their algebra.
- `Grid` (`grid.dfy`): the two numpy primitives the class relies on.
  - `np.linspace(0, stop, n)`, written the way numpy computes it: multiples of
    the step stop / (n - 1), with the last sample set to stop.
  - The first-occurrence `np.argmin(np.abs(grid - x))`, as the recursive
    function `FirstNearest`. It is specified by `IsFirstNearest`: the distance
    is least, and no earlier index is as close.
- `Sinusoidal` (`sinusoidal.dfy`): the sample locations, the three fields as
  functions of the parameters, and the class `SinusoidSignal`. The class has
  the same fields as the Python object. Its methods are the constructor, the
  recomputation, the two index lookups and the four setters. `Valid()` is the
  object invariant every method keeps:
  - both grids are the two linspaces;
  - the stored sample indices are those of `generate_z_samples()` with its
    default count of 8;
  - the cached fields are those of the current magnitude and phase;
  - each cursor index is the first nearest grid index of its cursor;
  - the current phasor is the field row at the current time index.

`np.exp(theta * 1j)` is a constructor parameter `expj: real -> Complex`. It is
stored as a constant of the object. The lemmas that need its behaviour assume
`IsExponential` (e^{ja} · e^{jb} = e^{j(a+b)}) and `OnUnitCircle`
(|e^{ja}| = 1). No other lemma assumes anything about it.

`generate_z_samples` ignores `num_samples` when beta <= 0 and always takes 8
targets over [0, max_space] (`src/phasors/sinusoidal.py:49`). `ZTargets` and
`ZSamples` model it that way. The class validates none of its inputs, and the
setters accept every real.

## Model

| member | source | states |
|---|---|---|
| Grid.Linspace | src/phasors/sinusoidal.py:28-31 | `np.linspace(0, stop, n)` has n samples; the first is 0 and, for n >= 2, the last is exactly stop |
| Grid.LinspaceAt | src/phasors/sinusoidal.py:28-31 | sample i of the grid is i · stop / (n - 1), the last sample included |
| Grid.LinspaceIncreasing | src/phasors/sinusoidal.py:28-31 | with a positive end point the grid is strictly increasing |
| Grid.FirstNearest | src/phasors/sinusoidal.py:67-71 | the argmin is a valid index, no index is closer to the query, and every earlier index is strictly farther (ties go to the first occurrence) |
| Grid.FirstNearestUnique | src/phasors/sinusoidal.py:67-71 | the first-minimum property has exactly one solution, so the lookup is determined by it |
| Grid.NearestOnIncreasingGrid | src/phasors/sinusoidal.py:67-71 | on an increasing grid a query at or below the first point gives index 0, one at or above the last point gives the last index, and a grid point gives its own index |
| Grid.NearestMonotone | src/phasors/sinusoidal.py:67-71 | on an increasing grid a larger query never gives an earlier index |
| Grid.NearestIndices | src/phasors/sinusoidal.py:50-52 | the column-wise argmin over a vector of targets has one index per target |
| Grid.NearestIndicesAt | src/phasors/sinusoidal.py:50-52 | entry t of the column-wise argmin is the first nearest index of target t |
| Grid.LinspaceNearestStart | src/phasors/sinusoidal.py:28-33 | on a positive-length linspace, index 0 is the first nearest index of 0, so the initial cursors are consistent |
| Sinusoidal.ZTargets | src/phasors/sinusoidal.py:45-49 | the targets fail (numpy raises) exactly when beta > 0 and the count is negative; otherwise there are num_samples of them when beta > 0 and always 8 when beta <= 0; they start at 0 and end at the wavelength 2·pi/beta when beta > 0 and at max_space otherwise |
| Sinusoidal.ZSamples | src/phasors/sinusoidal.py:44-53 | the samples fail (numpy raises) exactly when beta > 0 and the count is negative; otherwise there are num_samples indices when beta > 0 and always 8 when beta <= 0 |
| Sinusoidal.ZSamplesAreNearest | src/phasors/sinusoidal.py:50-52 | every sample index is the first nearest space index of its target location |
| Sinusoidal.ZSamplesSorted | src/phasors/sinusoidal.py:44-53 | on an increasing space grid the sample indices never decrease |
| Sinusoidal.ZSamplesClampAtEnd | src/phasors/sinusoidal.py:45-53 | a target at or beyond the end of the space grid gets the last index |
| Sinusoidal.ZSamplesSpanWindow | src/phasors/sinusoidal.py:44-53 | on the object's space grid the samples start at index 0 and end at index 999 whenever the targets reach the end of the window: always when beta <= 0, and when beta > 0 from two samples and a wavelength of at least max_space on |
| Sinusoidal.PhasorField | src/phasors/sinusoidal.py:57-61 | the phasor has one entry per location |
| Sinusoidal.PhasorFieldAt | src/phasors/sinusoidal.py:57-61 | phasor entry j is magnitude · e^{j phase} · e^{-j beta space[j]} |
| Sinusoidal.Rotate | src/phasors/sinusoidal.py:62-64 | a row multiplied by one factor keeps its length |
| Sinusoidal.RotateAt | src/phasors/sinusoidal.py:62-64 | entry j of a row times w is the entry times w |
| Sinusoidal.SpaceTimeField | src/phasors/sinusoidal.py:62-64 | the space-time field has one row per instant |
| Sinusoidal.SpaceTimeFieldAt | src/phasors/sinusoidal.py:62-64 | row i of the field is the phasor times e^{j omega time[i]} |
| Sinusoidal.RealRow | src/phasors/sinusoidal.py:65 | the real part of a row keeps its length |
| Sinusoidal.RealRowAt | src/phasors/sinusoidal.py:65 | entry j of the real part is the real part of entry j |
| Sinusoidal.RealPart | src/phasors/sinusoidal.py:65 | the real part of the field has one row per instant |
| Sinusoidal.RealPartAt | src/phasors/sinusoidal.py:65 | row i of the real part is the real part of row i |
| Sinusoidal.FieldsAt | src/phasors/sinusoidal.py:55-65 | the shapes are \|space\| and \|time\| x \|space\|, and entry (i, j) of the field is phasor[j] · e^{j omega time[i]}, with its real part in the real field |
| Sinusoidal.RealFieldIsWave | src/phasors/sinusoidal.py:55-65 | for an exponential expj, every entry of the real field is the traveling wave magnitude · Re e^{j(phase - beta z + omega t)} at its grid point |
| Sinusoidal.FieldModulus | src/phasors/sinusoidal.py:57-64 | for a unit-modulus expj, every phasor entry and every field entry has squared modulus magnitude² |
| Sinusoidal.StandingWhenBetaZero | src/phasors/sinusoidal.py:57-65 | with beta = 0, every row of the real field is constant over space |
| Sinusoidal.ExpjAtZero | src/phasors/sinusoidal.py:59-60 | an exponential on the unit circle maps 0 to 1 |
| Sinusoidal.StartRowIsMagnitude | src/phasors/sinusoidal.py:28-65 | with phase 0 and beta 0, the real field at time index 0 equals the magnitude at every location |
| Sinusoidal.SinusoidSignal.constructor | src/phasors/sinusoidal.py:27-42 | establishes the invariant from the parameters: both grids are the 1000-point linspaces, both cursors are 0 with index 0, the samples are those of `generate_z_samples()` with 8 samples, the fields are computed, and the current phasor is field row 0 |
| Sinusoidal.SinusoidSignal.SamplesOfValid | src/phasors/sinusoidal.py:35 | the samples of a valid object are 8 indices below 1000, non-decreasing, each the first nearest space index of its target, starting at index 0 and, when beta <= 0, ending at index 999 |
| Sinusoidal.SinusoidSignal.SetPhasor | src/phasors/sinusoidal.py:55-65 | the three fields are those of the current magnitude and phase; recomputing when they are already current changes nothing |
| Sinusoidal.SinusoidSignal.GetTimeIndex | src/phasors/sinusoidal.py:67-68 | a time index below 1000; the first nearest instant; clamps to 0 at or below 0 and to 999 at or beyond max_time; a grid instant gives its own index |
| Sinusoidal.SinusoidSignal.GetSpaceIndex | src/phasors/sinusoidal.py:70-71 | the same for locations on the space grid, clamping at 0 and max_space |
| Sinusoidal.SinusoidSignal.SetMagnitude | src/phasors/sinusoidal.py:77-81 | stores the magnitude and keeps the invariant, so the fields are recomputed and the current phasor is the row at the unchanged time index; grids, samples and both cursor indices stay |
| Sinusoidal.SinusoidSignal.SetPhase | src/phasors/sinusoidal.py:87-91 | the same for the phase |
| Sinusoidal.SinusoidSignal.SetCurrentTime | src/phasors/sinusoidal.py:97-101 | stores the time, snaps the index to the nearest instant (clamping at both ends) and takes that row as the current phasor; no field and no location index changes |
| Sinusoidal.SinusoidSignal.SetCurrentLoc | src/phasors/sinusoidal.py:107-110 | stores the location and snaps its index to the nearest location (clamping at both ends); the current phasor, the time index and the fields stay |

## Left out

- Floating point: grids, fields and lookups are over exact reals. Rounding in `np.linspace`, the products and the `np.abs` comparisons, NaN and infinities are not modelled.
- `np.exp` is the parameter `expj`. Properties that need it hold for any function with the exponential law and unit modulus. cos and sin are not defined.
- `np.pi` is the literal 3.141592653589793.
- numpy broadcasting (`[None, :]`, `[:, None]`) is written out as explicit per-row and per-entry recursion.
- `generate_z_samples`: `num_samples` is an integer. A float count, which numpy would also reject, is not modelled.
- The read-only properties `magnitude`, `phase`, `current_time` and `current_loc` only return a field. In Dafny they are plain field reads and have no members of their own.
- Sinusoidal.SinusoidSignal.constructor: it computes the three fields with the same functions as `SetPhasor` instead of calling it. Its contract states the same fields.
- Assigning the object's attributes directly, from outside the methods, is not modelled. In the model, `beta`, `omega`, `max_time`, `max_space`, `expj`, both grids and the sample indices are constants, because nothing after `__post_init__` reassigns them.
- Sinusoidal.SinusoidSignal.constructor: requires max_time > 0 and max_space > 0. The class checks neither. With max_time <= 0 or max_space <= 0 it builds a constant or decreasing grid, on which the nearest-index lookups no longer clamp as stated; the model does not cover such objects.
- The plotting described in the class docstring is not modelled: it is not part of the file's code.
