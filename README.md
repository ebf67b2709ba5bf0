# Spectra Normalization Tool: a verified model of the continuum-fitting core

The Spectra Normalization Tool (SNT) fits the continuum of a stellar spectrum.

1. It picks the local flux maxima.
2. It rolls an "alpha shape" of radius r over them. The radius can be modulated by a penalty map built from two rolling-maximum continua.
3. It refines the chosen anchor points:
   - it clips outliers with an interquartile rule;
   - it removes the sharpest peaks and anchors that lie too close together;
   - it replaces anchors by window medians.
4. A small configuration layer validates the user's parameters against composable constraints.

This Dafny project models that core. Each module follows one Python module:

| Dafny file | module | models |
|---|---|---|
| `common.dfy` | `Common` | the exceptions as `PyError`, plus `Result`, `Outcome` (a call returning `None` or raising) and `Option` |
| `stats.dfy` | `Stats` | `np.percentile` (linear), `np.median`, `min`/`max` |
| `pylist.dfy` | `PyLists` | the Python list operations the smoothing code mutates its arguments with: `pop`, `remove`, `index`, item assignment |
| `smooth.dfy` | `Smooth` | `normalize`, `rolling_sigma_clip` |
| `peaks.dfy` | `Peaks` | `abs_rl_slope`, `remove_peaks` |
| `close.dfy` | `Close` | `sigma_clip_iqr`, `distance`, `remove_close` |
| `denoise.dfy` | `Denoise` | `denoise` |
| `penalty.dfy` | `Penalty` | `b_search`, `rolling_max`, `penalty`, `step_transform`, `r_map` |
| `alphashape.dfy` | `AlphaShape` | the anchor walk of `anchors` |
| `validators.dfy` | `Validators` | `Constraint` and its subclasses, `+`, the predefined constraints |
| `configs.dfy` | `Configs` | `UserParam`, `ConfigHolder` |
| `snt_configs.dfy` | `SntConfigs` | `_default_params`, `construct_SNT_configs` |

The code's style decides the model's form:
- Functions that mutate the lists they are given become methods on `PyList` objects, proved against pure specification functions. This covers `remove_peaks`, `sigma_clip_iqr`, `remove_close` and `denoise`.
- `step_transform` works on an `array`.
- Loops become methods with invariants. This covers `b_search`, `rolling_max`, `penalty`, the alpha-shape walk and `check_if_value_meets_constraint`.
- The configuration objects are classes whose methods update their fields.

Each such method's postcondition ties the result to a specification function. Lemmas state the properties the code promises about those functions.

## Model

| member | source | states |
|---|---|---|
| Common.Select | src/SNT/smooth.py:32-35 | a filtered list keeps, in order, exactly the chosen positions of the original |
| Common.SelectAppend | src/SNT/smooth.py:32-47 | filtering window by window and concatenating the results is filtering by the concatenated positions |
| Stats.InsertSorted | src/SNT/smooth.py:28 | inserting into a sorted list keeps it sorted and adds exactly one element (the sort behind np.percentile) |
| Stats.SortSorted | src/SNT/smooth.py:28 | the sort used by np.percentile yields an ascending permutation of its input |
| Stats.Min | src/SNT/penalty.py:67 | min(ps) is an element that bounds every element from below |
| Stats.Max | src/SNT/penalty.py:68 | max(ps) is an element that bounds every element from above |
| Stats.SortFirst | src/SNT/smooth.py:28 | the first sorted element is the minimum |
| Stats.SortLast | src/SNT/smooth.py:28 | the last sorted element is the maximum |
| Stats.PercentileBounds | src/SNT/smooth.py:28 | any percentile of a non-empty list lies between its minimum and maximum |
| Stats.PercentileMonotone | src/SNT/smooth.py:28-30 | a higher percentile rank never gives a smaller value, so q25 <= q75 and the IQR is non-negative |
| Stats.MedianBounds | src/SNT/smooth.py:129 | np.median of a non-empty window lies between its minimum and maximum |
| Stats.InterpolateMonotone | src/SNT/smooth.py:28 | linear interpolation in a sorted list is monotone in the position |
| PyLists.IndexOf | src/SNT/smooth.py:96 | list.index finds the first occurrence, and finds none exactly when the value is absent |
| PyLists.RemoveAt | src/SNT/smooth.py:62-63 | removing position i shifts every later element down by one and keeps the earlier ones |
| PyLists.PyList.Pop | src/SNT/smooth.py:62-63 | pop(i) returns the i-th element and removes it, or raises IndexError and changes nothing |
| PyLists.PyList.Remove | src/SNT/smooth.py:97-99 | remove(v) deletes the first occurrence of v, or raises ValueError and changes nothing |
| PyLists.PyList.Index | src/SNT/smooth.py:96 | index(v) is the first position of v, or ValueError |
| PyLists.PyList.SetItem | src/SNT/smooth.py:129 | item assignment replaces exactly one element, or raises IndexError |
| Smooth.Normalize | src/SNT/smooth.py:7-11 | the flux is scaled by the wavelength-to-flux range ratio and divided by the stretch; a zero stretch raises ZeroDivisionError |
| Smooth.NormalizeRoundTrip | src/SNT/smooth.py:7-11 | normalisation is invertible on non-degenerate ranges: denormalising a normalised flux gives it back |
| Smooth.NormalizeMonotone | src/SNT/smooth.py:7-11 | with ascending ranges and a positive stretch, normalisation preserves the order of fluxes |
| Smooth.KeepBlockMembers | src/SNT/smooth.py:32-35 | a window keeps exactly its samples that are not above the upper fence |
| Smooth.WholeWindowsMembers | src/SNT/smooth.py:23-36 | a sample of the q-th full window survives the full-window pass iff it survives its own window's clip |
| Smooth.ClipWith | src/SNT/smooth.py:14-48 | the clip keeps an increasing list of positions of y |
| Smooth.ClippedMembers | src/SNT/smooth.py:14-48 | a sample survives iff it is not above q75 + 1.5 IQR of its own window (the last, shorter window included) |
| Smooth.ClipKeepsLowSamples | src/SNT/smooth.py:28-35 | any sample at or below its window's 75th percentile survives |
| Smooth.ClipKeepsOnePerWindow | src/SNT/smooth.py:28-35 | every window keeps at least one sample, so the clip never empties a non-empty window |
| Smooth.WholeCountSpan | src/SNT/smooth.py:19-20 | the number of full windows times the window size plus the remainder covers the list exactly |
| Smooth.WindowCount | src/SNT/smooth.py:19-20 | len // w_size and len % w_size split the list into full windows and a remainder shorter than a window |
| Smooth.WindowElements | src/SNT/smooth.py:25-27 | the window's (y, x) pairs are those of its positions, in order |
| Smooth.KeepNotAbove | src/SNT/smooth.py:32-35 | the loop appends to y_clipped and x_clipped exactly the window's samples that are not above the fence |
| Smooth.ClipWindow | src/SNT/smooth.py:25-35 | one window's pass keeps the window's surviving samples of y and x, paired |
| Smooth.ClipWholeWindows | src/SNT/smooth.py:23-36 | the full-window loop ends at nwindows * w_size with the surviving samples of all full windows |
| Smooth.RollingSigmaClip | src/SNT/smooth.py:14-48 | the result is y and x filtered by the same surviving positions |
| Peaks.AbsRlSlope | src/SNT/smooth.py:71-78 | the score is never negative |
| Peaks.AbsRlSlopeExtremum | src/SNT/smooth.py:71-78 | on increasing wavelengths the score is positive exactly at strict local maxima and minima |
| Peaks.InitialPeaksExtrema | src/SNT/smooth.py:84-89 | an interior anchor enters the derivatives list iff it is a strict local extremum |
| Peaks.PeaksBelowOrder | src/SNT/smooth.py:84-89 | the derivatives list is ordered by wavelength, holds interior anchors only, and has positive scores |
| Peaks.PeaksBelowMember | src/SNT/smooth.py:84-89 | an interior anchor is listed iff its score is non-zero |
| Peaks.PeaksBelowFluxes | src/SNT/smooth.py:84-89 | the listed fluxes are drawn from the interior fluxes |
| Peaks.InitialValid | src/SNT/smooth.py:83-90 | the initial derivatives list and anchor lists satisfy the sweep invariant |
| Peaks.RemoveKeepsValid | src/SNT/smooth.py:95-99 | one removal keeps the three anchor lists aligned and the derivatives list consistent with them |
| Peaks.RoundValid | src/SNT/smooth.py:93-99 | a sweep over the derivatives keeps the invariant |
| Peaks.RoundPartition | src/SNT/smooth.py:93-99 | a sweep splits the derivatives into kept and removed, losing none |
| Peaks.RoundRemovesHighScores | src/SNT/smooth.py:94 | every removed peak scored above the percentile |
| Peaks.RoundKeepsLowScores | src/SNT/smooth.py:94 | no peak at or below the percentile is removed |
| Peaks.RoundCount | src/SNT/smooth.py:93-99 | each removal takes exactly one anchor out of the lists |
| Peaks.RoundShape | src/SNT/smooth.py:93-99 | a sweep keeps the first and last anchor and the increasing wavelengths |
| Peaks.RoundsOutcome | src/SNT/smooth.py:91-92 | iterating raises IndexError exactly when no peaks are left at a round (np.percentile of an empty list), leaving the anchors as they were |
| Peaks.RoundsShape | src/SNT/smooth.py:91-99 | any number of rounds keeps the end anchors and the increasing wavelengths |
| Peaks.RoundsValid | src/SNT/smooth.py:91-99 | any number of rounds keeps the invariant |
| Peaks.RoundsStep | src/SNT/smooth.py:91-99 | a round is one sweep at the 99.5th percentile of the remaining scores |
| Peaks.NoPeaksIffFlat | src/SNT/smooth.py:84-89 | the derivatives list is empty iff no interior anchor is a strict local extremum |
| Peaks.RemovePeaksFails | src/SNT/smooth.py:81-100 | remove_peaks raises IndexError iff ntimes > 0 and there is no interior extremum |
| Peaks.RemovePeaksKeepsPairs | src/SNT/smooth.py:81-100 | as written, the wavelength and index lists stay paired, but the fluxes need not |
| Peaks.RemovePeaksMisalignsFluxes | src/SNT/smooth.py:97-98 | an input where removing by equal flux detaches a flux from its wavelength |
| Peaks.CorrectedRemovalKeepsAnchors | src/SNT/smooth.py:95-99 | removing the peak's own position keeps every surviving (x, y, index) triple intact |
| Peaks.ScorePeaks | src/SNT/smooth.py:83-90 | the loop builds exactly the specified derivatives list |
| Peaks.Sweep | src/SNT/smooth.py:93-99 | the enumerate-and-remove loop mutates the three lists as one sweep of the specification |
| Peaks.RemovePeaks | src/SNT/smooth.py:81-100 | the lists end as the specification of ntimes rounds says, with its outcome |
| Close.CloseSweepFacts | src/SNT/smooth.py:58-67 | the sweep keeps an increasing index list that starts at the first anchor; on success one anchor is gone per close pair |
| Close.KeepUnmarkedFacts | src/SNT/smooth.py:58-67 | the corrected removal keeps exactly the unmarked anchors, in order |
| Close.SigmaClipShiftsIndices | src/SNT/smooth.py:62-67 | an input where popping by the original index removes the wrong anchor after an earlier pop |
| Close.CorrectedCloseRemoval | src/SNT/smooth.py:58-67 | the corrected removal keeps both end anchors and exactly the anchors not marked as close |
| Close.SigmaClipIqr | src/SNT/smooth.py:51-68 | both lists end filtered by the specification's surviving positions, with its outcome |
| Close.Distances | src/SNT/smooth.py:108-112 | there is one distance per neighbouring pair |
| Close.RemoveClose | src/SNT/smooth.py:107-115 | remove_close filters both lists by the clip applied to the neighbour distances |
| Close.RemoveCloseFacts | src/SNT/smooth.py:107-115 | fewer than two anchors raise IndexError (np.percentile of no distances); otherwise the first anchor always survives |
| Denoise.WindowPositionsMembers | src/SNT/smooth.py:124-128 | the window holds exactly the in-range positions closer than window_size, position 0 only for the anchor at 0 |
| Denoise.WindowCenterCount | src/SNT/smooth.py:124-128 | the anchor's own flux enters the window twice, or once at index 0 |
| Denoise.DenoiseFacts | src/SNT/smooth.py:118-130 | each anchor's flux becomes its window's median; an out-of-range index raises IndexError; other entries are untouched |
| Denoise.DenoiseBounds | src/SNT/smooth.py:129 | the new flux lies between the window's minimum and maximum |
| Denoise.DenoiseWindow | src/SNT/smooth.py:123-128 | the inner loop collects the specified window, or raises IndexError for an index past the spectrum |
| Denoise.Denoise | src/SNT/smooth.py:118-130 | the flux list ends as the specification says, with its outcome |
| Penalty.SearchIn | src/SNT/penalty.py:12-20 | a found index holds x and lies in the searched range |
| Penalty.SearchCorrect | src/SNT/penalty.py:8-20 | on an ascending list, b_search returns -1 iff x is absent, and otherwise an index holding x |
| Penalty.BSearch | src/SNT/penalty.py:8-20 | the while loop computes the specified search |
| Penalty.WindowEndIsProduct | src/SNT/penalty.py:29-41 | after k steps the window end is min(xs) + (k + 1) * w_size |
| Penalty.FirstMax | src/SNT/penalty.py:38 | max(..., key=flux) is the first point of highest flux |
| Penalty.CollectWindow | src/SNT/penalty.py:32-37 | the inner loop collects the points before the window end; a first point past the end makes max raise ValueError; reaching the last point stops early; the maximum is the first largest flux |
| Penalty.ChooseWindow | src/SNT/penalty.py:38-41 | appending a window's maximum and its block end keeps the chosen windows a partition of the samples scanned |
| Penalty.RollingMax | src/SNT/penalty.py:23-53 | the continuum points are each window's first highest point; empty input and empty windows raise ValueError; a one-point spectrum raises IndexError; the last point is never scanned |
| Penalty.RollingMaxWindows | src/SNT/penalty.py:29-41 | on sorted wavelengths, window k holds exactly the points in [min + k w, min + (k + 1) w) |
| Penalty.RollingMaxIncreasing | src/SNT/penalty.py:23-53 | on strictly increasing wavelengths, the continuum's wavelengths strictly increase |
| Penalty.RawEntry | src/SNT/penalty.py:62-66 | a NaN or a zero s2 gives penalty 0, otherwise s2 - s1 |
| Penalty.RawPenalties | src/SNT/penalty.py:62-66 | zip pairs the two continua up to the shorter one, entry by entry |
| Penalty.RescaleInverse | src/SNT/penalty.py:70 | min-max rescaling is inverted by lo + p (hi - lo) |
| Penalty.RescaleBounds | src/SNT/penalty.py:67-70 | rescaled penalties lie in [0, 1], the minimum maps to 0, the maximum to 1, and order is kept |
| Penalty.RescaleAll | src/SNT/penalty.py:69-70 | every penalty is rescaled by the same min and max |
| Penalty.PenaltyBounds | src/SNT/penalty.py:56-71 | with distinct extremes every penalty ends in [0, 1] with order kept |
| Penalty.PenaltyDegenerate | src/SNT/penalty.py:67-70 | all-equal penalties raise ZeroDivisionError when the first is the integer 0, and otherwise all become NaN |
| Penalty.CollectRaw | src/SNT/penalty.py:58-66 | the first loop appends one raw entry per pair of zip(s1_w, s2_w): the int 0 for a NaN or a zero s2w, s2w - s1w otherwise |
| Penalty.ComputePenalty | src/SNT/penalty.py:56-71 | the loops compute the specified penalty list or error |
| Penalty.PlateauSorted | src/SNT/penalty.py:80-87 | on sorted wavelengths, a peak's plateau is exactly the points closer than step_size to it |
| Penalty.StepsOutside | src/SNT/penalty.py:78-87 | a point outside every processed plateau keeps its flux |
| Penalty.StepsValues | src/SNT/penalty.py:78-87 | the transform only copies existing fluxes, so every new flux is an old one |
| Penalty.ProcessedByHeight | src/SNT/penalty.py:78-79 | the peaks are processed from the highest down |
| Penalty.ApplyPlateau | src/SNT/penalty.py:80-87 | the two while loops set the peak's plateau to its flux in place |
| Penalty.StepTransform | src/SNT/penalty.py:74-88 | the array ends as the specified sequence of plateaus |
| Penalty.PowUnit | src/SNT/penalty.py:96 | p ** nu stays in [0, 1] for p in [0, 1] |
| Penalty.PenaltyIndexCases | src/SNT/penalty.py:93-94 | a wavelength on the grid reads its own penalty; one off the grid reads the last penalty (index -1), or raises IndexError on an empty map |
| Penalty.RMap | src/SNT/penalty.py:91-96 | r_map raises exactly when the penalty lookup does |
| Penalty.RMapBounds | src/SNT/penalty.py:91-96 | with penalties in [0, 1] the radius lies between c r_min and c r_max, for c = x / lambda_min |
| AlphaShape.Points | src/SNT/alphashape.py:27-29 | the walk works on the (wavelength, normalised flux) of each maximum |
| AlphaShape.ResetRadius | src/SNT/alphashape.py:40-45 | without the penalty map the radius is r_min; with it, r_map's value or error |
| AlphaShape.ScanMembers | src/SNT/alphashape.py:50-57 | a point is a candidate iff it is within 2r, distinct from P, and no earlier point lies beyond P + 2r |
| AlphaShape.ScanIncreasing | src/SNT/alphashape.py:50-57 | the candidates are increasing indices to the right of P |
| AlphaShape.ScanNonpositive | src/SNT/alphashape.py:53-57 | a radius <= 0 admits no candidate |
| AlphaShape.ScanRound | src/SNT/alphashape.py:50-57 | the for loop with its break collects the specified candidates |
| AlphaShape.GrowLinear | src/SNT/alphashape.py:58 | each 1.5 growth adds at least r0 / 2 |
| AlphaShape.GrowMonotone | src/SNT/alphashape.py:58 | a positive radius only grows |
| AlphaShape.GrowUnbounded | src/SNT/alphashape.py:58-60 | a positive radius eventually exceeds any bound, so the search ends |
| AlphaShape.LoopsForever | src/SNT/alphashape.py:49-60 | with r <= 0 and P not already past the furthest point, every round is empty and never returns |
| AlphaShape.ScanUntilFound | src/SNT/alphashape.py:49-61 | the radius grows by 1.5 until candidates appear (the last growth undone) or the walk returns; a non-positive radius loops forever |
| AlphaShape.FirstMin | src/SNT/alphashape.py:76-77 | min(A, key=angle) is the first candidate of least angle |
| AlphaShape.Angles | src/SNT/alphashape.py:62-74 | each candidate gets its own turning angle |
| AlphaShape.ChosenFacts | src/SNT/alphashape.py:62-81 | the next anchor is a candidate to the right of P with the least angle, the first such |
| AlphaShape.ChooseNext | src/SNT/alphashape.py:62-81 | the deque loop picks the first candidate of least angle |
| AlphaShape.NextAnchor | src/SNT/alphashape.py:47-81 | one step of the walk finds the next anchor to the right, or returns, or loops forever |
| AlphaShape.AnchoredExtend | src/SNT/alphashape.py:86-88 | appending a pick keeps the three anchor lists aligned with the maxima |
| AlphaShape.SteppedExtend | src/SNT/alphashape.py:79-88 | a found step extends the record of the walk |
| AlphaShape.Anchors | src/SNT/alphashape.py:16-88 | the anchors start at the first maximum and move strictly right; each is the chosen candidate at its radius; errors are ValueError on an empty spectrum, IndexError on no maxima, and IndexError when r_map fails, either at the first maximum or at the candidate just chosen from the last anchor reached (not appended), every earlier step being the walk's own; otherwise the walk returns or loops forever |
| Validators.Numeric | src/SNT/utils/parameter_validators.py:81-83 | bool, int and float values compare as numbers; nothing else does |
| Validators.Evaluate | src/SNT/utils/parameter_validators.py:50-51 | an evaluator raises InvalidConfiguration or TypeError, nothing else |
| Validators.CheckAllMeaning | src/SNT/utils/parameter_validators.py:36-48 | a check passes iff every evaluator passes, and otherwise fails with the first failing evaluator's error |
| Validators.CheckAllAppend | src/SNT/utils/parameter_validators.py:36-48 | checking a concatenation checks the first part, then the second |
| Validators.CheckIfValueMeetsConstraint | src/SNT/utils/parameter_validators.py:36-48 | the for loop computes the specified check |
| Validators.ValueFromDtype | src/SNT/utils/parameter_validators.py:97-111 | construction raises InternalError iff the types are not a tuple |
| Validators.IterableMustHave | src/SNT/utils/parameter_validators.py:148-165 | construction raises InternalError iff the mode is neither "all" nor "either" |
| Validators.IntervalEdges | src/SNT/utils/parameter_validators.py:77-93 | including the edges accepts everything the open interval does, and gains exactly the ends of a non-empty interval; an incomparable value raises InvalidConfiguration either way |
| Validators.FromListExtend | src/SNT/utils/parameter_validators.py:132-144 | adding options never refuses a value that passed before |
| Validators.FromListPointwise | src/SNT/utils/parameter_validators.py:132-144 | a list or tuple of plain values passes iff each of its elements passes on its own |
| Validators.MustHaveAllThenEither | src/SNT/utils/parameter_validators.py:167-185 | with at least one option, a value passing "all" also passes "either" |
| Validators.MustHaveString | src/SNT/utils/parameter_validators.py:167-185 | on a string, a non-string option raises TypeError, and otherwise the options are looked for as substrings |
| Validators.SubstringOfConcat | src/SNT/utils/parameter_validators.py:172 | a string is `in` every string that contains it |
| Validators.MustHaveStringOrList | src/SNT/utils/parameter_validators.py:167-185 | "lin" is in "linear" but not in ["linear"]: strings match substrings, lists whole elements |
| Validators.MustHaveCases | tests/test_parameter_validation.py:12-27 | IterableMustHave((1, 2, 3)) accepts [1, 2, 3], (1, 2, 3) and {1, 2, 3} with "all" and {1, 2}, {1} with "either"; it refuses [1, 2] with "all" and [55] with "either" |
| Validators.FromListCases | tests/test_parameter_validation.py:30-42 | ValueFromList((1, None, "text")) accepts 1, None and "text" and refuses [1, 2, 3] |
| Validators.IntervalCases | tests/test_parameter_validation.py:45-60 | ValueInInterval((0, 5)) refuses 0, 5 and 6 without edges, refuses 6 and accepts 5, 0 and 2 with them |
| Validators.DtypeCases | tests/test_parameter_validation.py:63-74 | ValueFromDtype([int]) raises InternalError; ValueFromDtype((int,)) refuses 0.0 and accepts 0 |
| Validators.SumOfConditionsCases | src/SNT/utils/parameter_validators.py:24-48 | interval + list + dtype accepts 1 and 2, refuses 4.5, refuses 0 and 5 without the edges, and 6 |
| Validators.Add | src/SNT/utils/parameter_validators.py:24-31 | a + b holds a copy of a's evaluators followed by b's own evaluator, with text "A and B" |
| Validators.AddLeaf | src/SNT/utils/parameter_validators.py:24-31 | adding a one-class constraint checks a, then b |
| Validators.AddDropsRightChecks | src/SNT/utils/parameter_validators.py:24-31 | with a sum as right operand, every value a accepts is refused with TypeError |
| Validators.AddNestedExample | src/SNT/utils/parameter_validators.py:24-31 | Positive_Value_Constraint + (IntegerValue + NumericValue) refuses 5, which each part accepts |
| Validators.AddAllMeaning | src/SNT/utils/parameter_validators.py:24-31 | the corrected sum passes iff both operands pass, and equals a + b when b is of one class |
| Validators.PositiveValueMeaning | src/SNT/utils/parameter_validators.py:201 | Positive_Value_Constraint accepts exactly the numbers in [0, +inf], booleans as 0 and 1 |
| Configs.Validation | src/SNT/utils/configs.py:20-23 | without a constraint every value is accepted; with one, iff every evaluator passes |
| Configs.UserParam.New | src/SNT/utils/configs.py:13-26 | the default becomes the current value, and a default the constraint refuses makes construction raise |
| Configs.UserParam.UpdateValue | src/SNT/utils/configs.py:40-49 | validate then assign: a refused value leaves the parameter unchanged, and validity is kept |
| Configs.UserParam.ResetValue | src/SNT/utils/configs.py:55-57 | the current value is the default again, and validity is kept |
| Configs.ConfigHolder.constructor | src/SNT/utils/configs.py:92-93 | the holder keeps the given dictionary by reference |
| Configs.ConfigHolder.CurrentValue | src/SNT/utils/configs.py:95-96 | the named parameter's current value, or KeyError |
| Configs.ConfigHolder.AllCurrentValues | src/SNT/utils/configs.py:105-107 | exactly the holder's keys, each with its parameter's current value |
| Configs.ConfigHolder.UpdateValue | src/SNT/utils/configs.py:98-99 | only the named parameter changes, as its update_value says; an unknown name raises KeyError |
| SntConfigs.DefaultNames | src/SNT/utils/SNT_configs.py:14-105 | the table's fifteen names are distinct |
| SntConfigs.DefaultNamesKnown | src/SNT/utils/SNT_configs.py:14-105 | every name of the table is a count parameter, a flag, interp, nu or Ncores |
| SntConfigs.ConstraintsByName | src/SNT/utils/SNT_configs.py:14-105 | each parameter carries the constraint its group calls for |
| SntConfigs.DefaultsSatisfyConstraints | src/SNT/utils/SNT_configs.py:14-105 | every default meets its own constraint |
| SntConfigs.CountParamMeaning | src/SNT/utils/SNT_configs.py:15-44 | the count parameters accept the integers >= 0 and, being ints to Python, the booleans |
| SntConfigs.FlagParamMeaning | src/SNT/utils/SNT_configs.py:45-68 | the flags accept exactly the booleans |
| SntConfigs.InterpParamMeaning | src/SNT/utils/SNT_configs.py:51-56 | interp accepts "cubic", "linear", or a list or tuple of only those |
| SntConfigs.NuParamMeaning | src/SNT/utils/SNT_configs.py:69-74 | nu accepts any number, negative or infinite included |
| SntConfigs.DefaultParams | src/SNT/utils/SNT_configs.py:14-105 | the table builds one fresh, valid parameter per name, never raising |
| SntConfigs.ConstructSntConfigs | src/SNT/utils/SNT_configs.py:108-121 | as written, the holder wraps the table itself and the call raises AttributeError for any input |
| SntConfigs.AppliedStep | src/SNT/utils/SNT_configs.py:118-120 | with distinct keys, setting the next user value keeps the earlier ones in place |
| SntConfigs.ConstructSntConfigsFromDict | src/SNT/utils/SNT_configs.py:118-120 | corrected: the user's values are applied in order until one is refused; only those parameters change |

## Left out

- Printing (`print` in `sigma_clip_iqr`) and the pipeline in `snt.py`, with its file I/O, plots and orchestration, are not modelled.
- `math.sqrt` is a parameter of `Close.Distance` and `Close.Distances`, so the distances are abstract.
- The alpha-shape geometry is abstract and passed in a `Geometry` value:
  - the normalisation of fluxes;
  - `np.linalg.norm`, assumed non-negative;
  - the turning angle, which uses `acos`, `asin` and `sqrt`;
  - the furthest point.
- `scipy.signal.find_peaks` and `np.argpartition` in `step_transform` are not modelled. The peak indices, heights and processing order are inputs, and the order must rank the heights from the highest.
- `interpolate.interp1d` in `rolling_max` and `penalty` is not modelled. `rolling_max` returns the continuum points, and `penalty` takes the two interpolated continua as sequences, with `None` for NaN.
- Floating point is modelled as exact reals, so rounding is ignored.
  - `Penalty.PenaltyResult` represents NaN as `None`.
  - `Validators.Ext` covers the infinities but not NaN.
- `Penalty.RMap`: `nu` is a natural number, so fractional and negative exponents are not modelled. `lambda_min = 0` is excluded by a precondition; numpy would give inf there.
- `Smooth.Normalize`: `maxf == minf` is excluded by a precondition; numpy would give inf or NaN there.
- `Smooth.RollingSigmaClip`: a zero window size is excluded; Python raises ZeroDivisionError on it.
- `Denoise.Denoise`: an empty spectrum and a zero window are excluded; np.median of an empty window gives NaN.
- Several members require paired lists to have equal length (`|ys| == |xs|`). The callers always pass such lists.
- `AlphaShape.Anchors`: a walk that never ends is reported as the `Loops` ending. The contract proves it loops; it does not return.
- `Peaks.RemovePeaks`, `Close.SigmaClipIqr`: anchor indices are integers and `ntimes` is a natural number.
- `Peaks.RemovePeaks`, `Peaks.ScorePeaks`, `Peaks.AbsRlSlope`: the anchors' wavelengths are assumed strictly increasing, as a spectrum's are; `remove_peaks` itself does not check this. Two behaviours of other inputs are therefore not captured: the division by zero in `abs_rl_slope` (src/SNT/smooth.py:72-73) when two neighbouring wavelengths are equal, and, when a wavelength repeats, `anchors_x.index(d[0])` and `anchors_x.remove(d[0])` (src/SNT/smooth.py:97-98) acting on its first occurrence rather than on the peak's own anchor.
- `Validators`:
  - `PathExists` and `PathValue` query the filesystem and are not modelled;
  - values are None, bools, ints, floats, strings, lists, tuples and sets; dicts and other iterables are not modelled, and a set is given by its elements, its `in` being equality with one of them (hashing is not modelled);
  - `__radd__` and `__call__` are not modelled: `+` between constraints never reaches `__radd__`;
  - leaf constraint texts take the Python repr of their arguments as given strings.
- `Configs`:
  - the description argument of `UserParam` is not modelled;
  - the broken members of `UserParam` (`validate`, `apply_constraints_to_value` and the properties reading attributes that are never set) are not modelled, and neither is `ConfigHolder.validate_all`, which calls `validate` and so raises instead of validating.
- `SntConfigs.ConstructSntConfigsFromDict` requires the table's parameters to be distinct objects, as `DefaultParams` builds them. With shared objects, one update would show under several names.
- The legacy `src/SNT/SNT_configs.py` and the unseen `SNT.configs` module it imports are not part of this model.

## Findings

| source | as written | input that shows it | evidently intended | confidence | as-written member | corrected member |
|---|---|---|---|---|---|---|
| src/SNT/smooth.py:97-98 | `anchors_y.remove(d[1])` deletes the first anchor with an equal flux, which may not be the peak's own | xs = [0, 1, 2, 3], ys = [3, 0, 3, -10], ntimes = 1: the peak at x = 2 removes the flux 3 of x = 0, so x = 0 is left paired with flux 0 | remove the peak's own flux, at the position of its wavelength | not executed | Peaks.RemovePeaksMisalignsFluxes | Peaks.CorrectedRemovalKeepsAnchors |
| src/SNT/smooth.py:58-67 | anchors are popped at the loop's index into the original distances, while earlier pops have shifted the lists | distances [10, 1, 10, 1, 10, 10, 10, 10] for 9 anchors: the second close pair (anchors 3 and 4) removes anchor 5 instead of 4 | remove the chosen anchor of each close pair, by its original index | not executed | Close.SigmaClipShiftsIndices | Close.CorrectedCloseRemoval |
| src/SNT/utils/parameter_validators.py:24-31 | `a + b` appends only `b._evaluate`; when `b` is itself a sum, that is the base evaluator, which rejects the two-argument call | Positive_Value_Constraint + (IntegerValue + NumericValue) checked on 5 raises TypeError | a + b checks all of a's and all of b's evaluators | not executed | Validators.AddNestedExample | Validators.AddAllMeaning |
| src/SNT/utils/SNT_configs.py:120 | `construct_SNT_configs` calls `update_values_from_dict`, which `ConfigHolder` does not define | construct_SNT_configs(None) raises AttributeError | apply each user value through `update_value` | not executed | SntConfigs.ConstructSntConfigs | SntConfigs.ConstructSntConfigsFromDict |
