# Brake test calculations: a Dafny model

This project models the deterministic core of `brakecalculations.py`.
`BrakeTest` builds a synthetic brake test:
- a rolling phase of `n_roll` samples;
- a force delay of `force_delay` samples, which fixes the wake-up pressure;
- linear pressure and force ramps, clipped at the first sample where either
  reaches its maximum (3.7 bar, 45 kN).

`BrakePlotting` sorts the part of the run after the force delay by pressure
and fits a line to it. The sorted window ends at the cutoff for the 6-bar
extrapolation and runs to the end of the series for the z plot. Key presses
move a plot through four stages; stage 3 stores the fit and stage 4 uses it.

Modules:
- `Results`: the Python exceptions the core can raise, and `Option`/`Result`.
- `PyRound`: Python's `round` (half to even) on an exact quotient.
- `Series`: the numpy array operations used (`arange`, `zeros`, tail
  assignment, counting the elements below a threshold, slicing with clamped
  bounds).
- `BrakeData`: `BrakeTest.__init__`, with the three `np.random.rand()` draws
  as parameters in [0, 1).
- `Generation`: `generate_data` before the noise step. It covers the ramps,
  the cutoff and the facts every accepted run satisfies.
- `FitWindow`: the argsort-by-pressure windows of `plot_calc_6bar` and
  `plot_calc_z`.
- `Plotting`: `line_from_pts` and the `create_plot`/`advance_plot` stage
  machine.
- `Pipeline`: what the fit windows receive from the generator.

Python floats are modelled as exact reals and Python ints as unbounded
integers.

## Model

| member | source | states |
|---|---|---|
| PyRound.RoundHalfEven | brakecalculations/brakecalculations.py:36-37 | `round(num/den)` is an integer within one half of the quotient, and an exact tie gives the even neighbour |
| PyRound.RoundHalfEvenUnique | brakecalculations/brakecalculations.py:36-37 | these two conditions pin the rounded value down uniquely, so `RoundHalfEven` is Python's `round` and nothing else |
| BrakeData.ForceDelayZeroIffShort | brakecalculations/brakecalculations.py:36-37 | for n >= 0, `force_delay = round(round(n/6)/2)` is 0 exactly when n <= 8 |
| BrakeData.PartitionFitsRun | brakecalculations/brakecalculations.py:36-37 | for n >= 9: n_roll >= 2, force_delay >= 1, at least two samples follow the force delay, and 0.2·(n - n_roll - 1) < 3.7·force_delay < n - n_roll - 1 |
| BrakeData.MinK | brakecalculations/brakecalculations.py:44 | min_k times the rising-ramp length n - n_roll - 1 is exactly 3.7 |
| BrakeData.MaxK | brakecalculations/brakecalculations.py:45 | max_k times force_delay is exactly 1 |
| BrakeData.Init | brakecalculations/brakecalculations.py:34-48 | the constructor raises ZeroDivisionError exactly when n - n_roll - 1 = 0 or force_delay = 0; otherwise the test carries n, the rounded partition, press_k = min_k + u1·(max_k - min_k), force_k = press_k·(3 + 13·u2) and roll_res = 2 + 8·u3 |
| BrakeData.InitSucceedsIffLongEnough | brakecalculations/brakecalculations.py:34-48 | for n >= 0, construction succeeds if and only if n >= 9 |
| BrakeData.InitialisedRunIsLong | brakecalculations/brakecalculations.py:34-37 | every constructed test with n >= 0 has n >= 9 and room for the rolling phase, the delay and two rising samples |
| BrakeData.InitSlopeBounds | brakecalculations/brakecalculations.py:42-48 | 0 < min_k < max_k <= 1; press_k in [min_k, max_k); the wake-up pressure press_k·force_delay lies between 0.2 and 1 bar, as the comment at :42-43 promises; the last ideal pressure reaches 3.7; force_k in [3·press_k, 16·press_k); roll_res in [2, 10) |
| BrakeData.PressKInRange | brakecalculations/brakecalculations.py:44-46 | `min_k + u·(max_k - min_k)` with u in [0, 1) lies in [min_k, max_k), and min_k < max_k |
| BrakeData.WakeUpBelowOne | brakecalculations/brakecalculations.py:42-45 | any slope below max_k gives a pressure below 1 bar when the force starts rising |
| BrakeData.WakeUpAtLeastFifth | brakecalculations/brakecalculations.py:42-44 | any slope of at least min_k gives a pressure of at least 0.2 bar when the force starts rising |
| BrakeData.LastPressureReachesMax | brakecalculations/brakecalculations.py:42-44 | any slope of at least min_k gives a pressure of at least 3.7 at the last sample |
| BrakeData.SlopeOrder | brakecalculations/brakecalculations.py:44-45 | for n >= 9 neither divisor is zero and 0 < min_k < max_k <= 1 |
| BrakeData.ForceSlopeRange | brakecalculations/brakecalculations.py:47 | `press_k·(3 + 13u)` with u in [0, 1) lies in [3·press_k, 16·press_k) |
| Series.Arange | brakecalculations/brakecalculations.py:55 | `np.arange(0, n)` has n elements and element i is i |
| Series.Full | brakecalculations/brakecalculations.py:58 | `np.zeros(n) + v` has n elements, all equal to v |
| Series.AssignTail | brakecalculations/brakecalculations.py:59-64 | `a[start:] = tail` keeps the length and the prefix and puts the tail in place |
| Series.FreezeFrom | brakecalculations/brakecalculations.py:72-73 | `a[c:] = a[c]` keeps the prefix and sets every later element to a[c] |
| Series.CountBelowAllOrNone | brakecalculations/brakecalculations.py:67-68 | the size of the below-threshold selection is the whole length if and only if every element is below, and 0 if and only if none is |
| Series.CountBelowSplitsSorted | brakecalculations/brakecalculations.py:67-68 | on a non-decreasing series the count splits it: every element before the count is below the threshold and every element from it on is not |
| Series.CountBelowIsFirstReach | brakecalculations/brakecalculations.py:67-68 | on a non-decreasing series the count is the first index whose element reaches the threshold |
| Series.PySlice | brakecalculations/brakecalculations.py:224 | a Python slice `a[lo:hi]` clamps its bounds: it is `a[lo..hi]` when in range, the tail when hi runs past the end, and empty when lo >= hi or lo is past the end |
| Generation.PressureRamp | brakecalculations/brakecalculations.py:58-60 | pressure is 0 during the rolling phase and press_k·(i - n_roll) from n_roll on |
| Generation.ForceRamp | brakecalculations/brakecalculations.py:61-64 | force is roll_res until n_roll + force_delay and then rises by force_k per sample |
| Generation.PressureRampNonDecreasing | brakecalculations/brakecalculations.py:58-60 | with a non-negative slope the pressure ramp never decreases |
| Generation.ForceRampNonDecreasing | brakecalculations/brakecalculations.py:61-64 | with a non-negative slope the force ramp never decreases |
| Generation.ApplyCutoff | brakecalculations/brakecalculations.py:66-78 | t_cutoff is the smaller of the two below-maximum counts; both series keep their length and their values before t_cutoff, and are frozen at their t_cutoff value from there on; without a breach nothing changes |
| Generation.NoCutoffIffAllBelow | brakecalculations/brakecalculations.py:66-78 | t_cutoff stays n if and only if every pressure is below 3.7 and every force below 45 |
| Generation.CutoffIsFirstBreach | brakecalculations/brakecalculations.py:66-78 | on non-decreasing series every sample before t_cutoff is below both maxima, and the sample at t_cutoff breaches one of them |
| Generation.CutoffKeepsOrder | brakecalculations/brakecalculations.py:66-78 | clipping non-decreasing series leaves them non-decreasing |
| Generation.CutoffBetween | brakecalculations/brakecalculations.py:66-78 | if sample w is below both maxima and the last pressure reaches 3.7, then the cutoff lies strictly between w and n |
| Generation.GenerateData | brakecalculations/brakecalculations.py:51-78 | a negative length fails with ValueError; otherwise all three axes have n samples, the time axis is 0..n-1 and the cutoff is at most n |
| Generation.InitSlopesInRange | brakecalculations/brakecalculations.py:34-48 | every successfully constructed test has n >= 9 and slopes within the bounds the fit relies on |
| Generation.IdealPressureLandmarks | brakecalculations/brakecalculations.py:55-60 | the ideal pressure lies between 0.2 and 1 bar at the end of the force delay, below 3.7 one sample later, and at least 3.7 at the end |
| Generation.IdealForceLandmarks | brakecalculations/brakecalculations.py:61-64 | the ideal force is below 45 one sample after the end of the force delay |
| Generation.GeneratedRun | brakecalculations/brakecalculations.py:34-78 | for every accepted run: the cutoff leaves at least two rising samples after the force delay and falls before n; every sample before it is below both maxima; the sample at it breaches one; both series are flat from it on and non-decreasing; pressure is 0 while rolling; force is roll_res until the delay ends; the wake-up pressure lies between 0.2 and 1 bar |
| Generation.GeneratedIsCutoffOfRamps | brakecalculations/brakecalculations.py:55-78 | the series `GenerateData` returns are the cutoff applied to the two ideal ramps: before t_cutoff they equal the ramps sample by sample, and from t_cutoff on both stay at the ramps' value at t_cutoff |
| Generation.CutoffWindow | brakecalculations/brakecalculations.py:66-78 | for a constructed test the cutoff of the ideal ramps falls after the sample following the force delay and before the end |
| Generation.ClippedRun | brakecalculations/brakecalculations.py:66-78 | for non-decreasing series below both maxima at s+1 and with pressure reaching 3.7 at the end, the cutoff lies in [s+2, n), is the first breach, and keeps both series non-decreasing |
| Generation.IdealClippedCutoff | brakecalculations/brakecalculations.py:55-78 | the cutoff facts of `GeneratedRun`, for the clipped ideal ramps of a constructed test |
| Generation.IdealClippedShape | brakecalculations/brakecalculations.py:55-78 | the clipped ideal pressure is 0 while rolling, the force is roll_res until the delay ends, and the wake-up pressure lies between 0.2 and 1 bar |
| FitWindow.ZipUnzip | brakecalculations/brakecalculations.py:224-226 | pairing the two series and splitting them again are inverse to each other |
| FitWindow.Insert | brakecalculations/brakecalculations.py:224-226 | inserting a sample into a pressure-sorted sequence keeps it sorted and adds exactly that sample |
| FitWindow.SortByPressure | brakecalculations/brakecalculations.py:224-226 | the sorted samples are non-decreasing in pressure and a permutation of the input |
| FitWindow.PressuresOfPermutation | brakecalculations/brakecalculations.py:224-226 | permuting samples permutes their pressures |
| FitWindow.SortedIsUnique | brakecalculations/brakecalculations.py:224-225 | two non-decreasing permutations of the same reals are equal |
| FitWindow.SortedPermutationsShareKeys | brakecalculations/brakecalculations.py:224-226 | any two sorted permutations of the same samples have the same pressure sequence, so the sorted pressures do not depend on how argsort breaks ties |
| FitWindow.SortWindow | brakecalculations/brakecalculations.py:223-226 | the window `[lo:hi]` sorted by argsort: its pressures are non-decreasing, and its (pressure, force) pairs are a permutation of the window's pairs |
| FitWindow.SixBarWindow | brakecalculations/brakecalculations.py:222-226 | the 6-bar window runs from n_roll + force_delay to t_cutoff, is sorted by pressure and permutes the window's pairs |
| FitWindow.ZWindow | brakecalculations/brakecalculations.py:271-275 | the z window runs from n_roll + force_delay to the end, is sorted by pressure and permutes the window's pairs |
| FitWindow.SortingSortedWindowKeepsPressures | brakecalculations/brakecalculations.py:223-226 | when the window is already non-decreasing in pressure, sorting leaves its pressure sequence unchanged |
| Pipeline.RisingWindow | brakecalculations/brakecalculations.py:223-226 | any window of a non-decreasing pressure series sorts to itself |
| Pipeline.AcceptedRunRises | brakecalculations/brakecalculations.py:34-78 | every accepted run gives the fit a rising run: equal lengths n, non-decreasing pressure, and at least two samples between the end of the force delay and the cutoff |
| Pipeline.SixBarWindowOfRisingRun | brakecalculations/brakecalculations.py:222-228 | on a rising run the 6-bar window has at least two samples, enough for `polyfit` of degree 1, and its sorted pressures are the run's in order |
| Pipeline.ZWindowOfRisingRun | brakecalculations/brakecalculations.py:271-275 | on a rising run the z window has at least two samples and its sorted pressures are the run's in order |
| Plotting.LineFromPts | brakecalculations/brakecalculations.py:95-101 | equal abscissae raise ZeroDivisionError; otherwise the returned [a, b] passes through both points |
| Plotting.LineFromPtsIsTheLine | brakecalculations/brakecalculations.py:95-101 | any line through two points with different abscissae is the one `line_from_pts` returns |
| Plotting.UnloadedEdge | brakecalculations/brakecalculations.py:297 | an example of `line_from_pts` at its first call site: the unloaded corridor edge through (0.2, 0) and (5.5, 0.8) is y = (8/53)x - 1.6/53 |
| Plotting.LoadedEdge | brakecalculations/brakecalculations.py:310 | an example of `line_from_pts` at its second call site: the loaded corridor edge through (0.2, 0) and (7.5, 0.8) is y = (8/73)x - 1.6/73 |
| Plotting.CreatePlot | brakecalculations/brakecalculations.py:103-111 | after `create_plot` the status is 1 and any stored fit is kept |
| Plotting.AdvancePlot | brakecalculations/brakecalculations.py:131-148 | a key press without a plot raises AttributeError; otherwise statuses 1 to 4 advance cyclically (1→2→3→4→1) and others stay; only 2→3 stores the fit (:228); 3→4 raises AttributeError exactly when no fit is stored (:278) |
| Plotting.AdvanceKeepsConsistent | brakecalculations/brakecalculations.py:136-148 | from a status in 1..4 that has a fit whenever it is 3 or more, a press never raises and leads to such a state again |
| Plotting.StageFourOnlyFromThree | brakecalculations/brakecalculations.py:144-146 | status 4 is reached only by a press in status 3 |
| Plotting.Run | brakecalculations/brakecalculations.py:111 | after `create_plot` and k presses the state is consistent and the status is k mod 4 + 1 |
| Plotting.RunNeverRaises | brakecalculations/brakecalculations.py:136-148 | no key press after `create_plot` raises, so the read of `lin_fit` at :278 always finds a fit |
| Plotting.FitIsFromLastStageThree | brakecalculations/brakecalculations.py:141-146 | in stages 3 and 4 the stored fit is the one computed at the most recent 2→3 press |
| Plotting.FourPressesReturn | brakecalculations/brakecalculations.py:136-148 | four presses bring a consistent state back to its status |

## Left out

- Noise (brakecalculations.py:79-85): Gaussian noise scaled by the square root of the signal is floating-point randomness. The model stops at the clipped ideal ramps, and every property of the windows is stated for them.
- The random generator: `np.random.rand()` becomes the three draws u1, u2, u3 in [0, 1), passed to `Init`.
- Floating point: floats are exact reals and 3.7 is exact. With doubles, `min_k·(n - n_roll - 1)` can land just below 3.7, so the last pressure might not breach the maximum.
- `np.polyfit`, `np.polyval` and `np.linspace`: the least-squares line is an opaque `Line` parameter of `AdvancePlot`. The model proves only that the 6-bar window holds at least two samples, the minimum a degree-1 fit needs.
- `z_fit` (brakecalculations.py:279): the scaling of the fitted line to z = 0.8 needs the polyfit result and is not modelled.
- Drawing and animation: matplotlib, `plot_raw_data`, the animation callbacks and their `StopIteration`, `reset_plot`'s axis handling, legends and titles. The model keeps only `status` and `lin_fit`. The float indices `(t_cutoff + n_roll)/2` at :195 and :198 and `np.size(press_sort)/2` at :251 are display bugs inside that drawing code (true division gives a float index) and are left out with it.
- `__main__` (brakecalculations.py:351-355): it builds `BrakeTest(60)`, generates its data and opens the plot. It reads no arguments; it is only wiring of the modelled operations and the left-out drawing.
- Init: both divisions by zero (min_k at :44 and max_k at :45) are reported as one `ZeroDivisionError`. Python raises at the first failing one, which gives the same exception type.
- Generation.GenerateData: for negative n, the model returns `ValueError` because `np.zeros` rejects negative sizes. It does not model which numpy call raises first. Every property of accepted runs assumes n >= 0.
- FitWindow.SortByPressure: `np.argsort` uses an unstable quicksort, and the model picks one sorted permutation (insertion order). The contracts state only sortedness and the permutation. `SortedPermutationsShareKeys` shows that the sorted pressures are the same for every tie-break. The order of the forces among equal pressures is not fixed.
- Cutoff tie-break (brakecalculations.py:69-78): when both counts are equal, the branch taken does not change the outcome, so `ApplyCutoff` uses the minimum of the two counts.
