# Cell-event detection core, modelled in Dafny

`app.py` turns two intensity time series read from a single-cell
mass-spectrometry instrument (a sample and a blank) into a set of detected
"cells" and a summary report. This project models the signal-processing
part of its `run` command and the three per-row helpers it applies:

- **Blank mean** (`ionBlankThreshold`): the mean of the present blank
  intensities (`Series.Mean`, pandas' skip-NaN mean).
- **Ion-intensity classification** (`calcIonIntensity`): a reading that is
  missing or above the ion threshold `it` becomes missing; a reading above
  the blank mean is kept; any other becomes 0 (`Rows.CalcIonIntensity`).
- **Signal average** (`ionIntensityAvg`): the mean of the present
  ion-intensity values.
- **Background subtraction** (`calcBlankSubstracted`): a reading above the
  same threshold `it` minus the signal average, otherwise missing
  (`Rows.CalcBlankSubtracted`).
- **Mass conversion** (`calcElementMass`): `v*dt/1000/ds*sf*ne/60*10000`,
  missing stays missing (`Rows.CalcElementMass`).
- **Segmentation**: one ordered pass that sums present masses and emits the
  sum at a missing row only when it is positive, with a final flush
  (`Segmentation.Segment`, a `for` loop proved against the fold
  `Segmentation.Cells`).
- **Aggregation**: cell count, mean, population variance, and
  `ionicConcentration = ionIntensityAvg / ds` (`Pipeline.Aggregate`).

`Pipeline.Run` is the run as a method: it builds the columns one after
another and takes the cells from the segmentation loop. `Pipeline.Process`
is the same run as a function, with the fold `Segmentation.Cells` in place
of the loop. Lemmas cannot call a method, so the lemmas about a whole run
are stated over `Process`, and `Run` is proved to return what `Process`
returns. In the same way `Segmentation.Step`, `ScanFrom`, `Flush` and
`Cells` are the fold that the loop in `Segmentation.Segment` is proved
against.

A missing value (NaN or an empty field) is `None` of `Series.Option<real>`.
Numbers are `real`. Where the code relies on NaN, the model keeps the same
outcome with `Option`:
- If the blank has no present value, its mean is absent. No reading
  compares above it, so every in-range reading is classified 0, as
  `x > NaN` is false.
- If no ion-intensity value is present, the signal average is absent. The
  subtraction is then missing on every row, as `x - NaN` is NaN.
- The guard `intensity != np.nan` in `calcElementMass` is always true, so
  mass conversion is a plain map over `Option`.

Edge cases of the code that the model keeps:
- A run whose sum is not positive emits nothing. So `[0, 0, missing]`
  yields no cell (`Segmentation.ExampleZeroRun`).
- Such a non-positive sum is not reset at the gap. It is carried into the
  next run (`Segmentation.ExampleCarryAcrossGap`).
- The classifier's upper comparison is strict. So a reading equal to `it`
  is kept, not made missing (`Rows.ClassifierBoundaries`).
- For the instrument defaults, 1000 cps converts to 11/6300 ≈ 0.001746
  (`Rows.DefaultCalibrationExample`).
- A sample with no reading at or below `it` leaves nothing to average. The
  signal average is then NaN, so every subtracted and mass row is NaN and
  no cell is detected, however strong the signal
  (`Pipeline.FullySaturatedNoCells`).

The main results:
- The segmentation loop computes `Cells`. Every cell is positive. The cells
  plus the non-positive leftover add up to the total present mass.
- When every present mass is positive, the cells are exactly the sums of
  the maximal runs of present masses (`Segmentation.RunSums`, an
  independent definition).
- With positive calibration constants and `it >= 0`, every present mass is
  positive. Provided at least one reading is at most `it` (so that the
  signal average exists), the mass column is present exactly on the sample
  rows above `it`. So a run's cells are the run sums of the mass column
  (`Pipeline.CellsAreSaturatedRuns`), and each cell is the converted sum of
  the subtracted intensities of one run (`Pipeline.CellMassesAreConvertedRuns`).
- The reported variance is the population variance: it times the number
  of cells is the sum of squared deviations from their mean
  (`Series.Variance`), and for two cells it is a quarter of their squared
  difference (`Series.VarianceOfTwo`).

## Model

| member | source | states |
|---|---|---|
| `Rows.CalcIonIntensity` | app.py:104-111 | missing exactly when the reading is missing or above `it`; a present result is 0 or the reading itself lying in (blank mean, `it`]; a reading in that band is kept |
| `Rows.IonIntensityAtMost` | app.py:104-111 | with `it >= 0` every present classified value is at most `it` |
| `Rows.ClassifierBoundaries` | app.py:106-110 | with `it` = 100 and blank mean 10: 100 is kept, 100.5 and missing become missing, 50 is kept, 10 and 5 become 0 |
| `Rows.CalcBlankSubtracted` | app.py:113-117 | present exactly when the reading is present, above `it`, and the average exists; then it is reading minus average, and positive when the average is at most `it` |
| `Rows.SubtractedRowsAreSaturatedRows` | app.py:104-117 | for a present reading and a present signal average, the subtractor keeps it exactly when the classifier made it missing (same threshold) |
| `Rows.CalcElementMass` | app.py:119-124 | missing stays missing; a present value is scaled by the factor dt·sf·ne/(6·ds), the chained formula in closed form |
| `Rows.MassFactorPositive` | app.py:123 | positive calibration constants give a positive mass factor |
| `Rows.DefaultCalibrationExample` | app.py:123 | 1000 cps with dt 0.10, ds 2100, sf 0.02, ne 11 gives 11/6300 |
| `Series.MapRows` | app.py:55-62 | a derived column has one row per input row and row i is the transform of input row i |
| `Series.PresentEmpty` | app.py:53-57 | a column has no present value exactly when every row is missing |
| `Series.Mean` | app.py:53-57 | the skip-missing mean: absent exactly when every row is missing, otherwise times the number of present values it gives their sum |
| `Series.MeanAtMost` | app.py:57 | a bound on every present row bounds the column mean |
| `Series.MeanOf` | app.py:81 | the mean of the cells: absent exactly for no cell, otherwise times the count it gives the sum |
| `Series.MeanOfPositive` | app.py:81 | the mean of positive values is positive |
| `Series.Variance` | app.py:82 | population variance: absent exactly for no cell, otherwise non-negative, and times the number of cells it gives the sum of squared deviations from the mean |
| `Series.VarianceOfTwo` | app.py:82 | two values a, b have variance (a − b)²/4, which divides by n and not by n − 1 |
| `Series.PresentScaled` | app.py:62 | multiplying every present row by k multiplies the sum of the present values by k |
| `Series.VarianceOfEqualValues` | app.py:82 | equal values (for example a single cell) have variance 0 |
| `Pipeline.IonIntensityColumn` | app.py:55 | the ion-intensity column is aligned with the sample and row i is the classification of sample row i |
| `Pipeline.BlankSubtractedColumn` | app.py:60 | the subtracted column is aligned with the sample and row i is the subtraction of sample row i |
| `Pipeline.ElementMassColumn` | app.py:62 | the mass column is aligned with the subtracted column and row i is the conversion of its row i |
| `Segmentation.Flush` | app.py:74-75 | after the last row a positive leftover sum becomes one last cell; otherwise the cells are unchanged |
| `Segmentation.Cells` | app.py:64-75 | the scan from the empty state followed by the flush; every cell it yields is positive; the segmentation lemmas below are about it |
| `Segmentation.Step` | app.py:66-72 | a cell is emitted exactly at a missing row whose running sum is positive, and it is that sum; otherwise the cells are unchanged; the emitted total plus the running sum grows by exactly the row's mass |
| `Segmentation.Segment` | app.py:64-75 | the loop's result is the fold `Cells` of the mass column |
| `Segmentation.CellsPositive` | app.py:70-75 | every emitted cell is strictly positive |
| `Segmentation.CellsConserveMass` | app.py:64-75 | the leftover is at most 0, and the cells plus the leftover add up to the sum of all present masses |
| `Segmentation.AllMissingNoCells` | app.py:64-75 | an all-missing column yields no cell |
| `Segmentation.RunLength` | app.py:66-72 | the leading run of present rows is maximal: every row of the run is present and the row after it, if any, is missing |
| `Segmentation.LeadSumIsSumOfRun` | app.py:66-68 | the sum of the leading run is the sum of its present values |
| `Segmentation.ScanMatchesRuns` | app.py:64-75 | from a state with a non-negative sum and positive masses, the scan merges the carried sum into the first run and then yields the run sums |
| `Segmentation.CellsAreRunSums` | app.py:64-75 | when every present mass is positive, the cells are, in order, the sums of the maximal runs of present masses |
| `Segmentation.RunSumsScaled` | app.py:62-75 | scaling every present row of a column by k scales each of its run sums by k and keeps their number |
| `Segmentation.ExampleRuns` | app.py:64-75 | [5, 3, missing, 2, missing, missing, 7] yields [8, 2, 7] |
| `Segmentation.ExampleSingleRow` | app.py:64-75 | [missing, 4, missing] yields [4] |
| `Segmentation.ExampleZeroRun` | app.py:70-72 | [0, 0, missing] yields no cell |
| `Segmentation.ExampleCarryAcrossGap` | app.py:70-75 | [-3, missing, 5, missing] yields [2]: the negative sum crosses the gap |
| `Pipeline.Aggregate` | app.py:80-83 | the cell count is the number of cells; the mean exists exactly when there are cells and gives their sum; the variance is the population variance of the cells; the ionic concentration exists exactly when the signal average does and times ds gives it back |
| `Pipeline.Process` | app.py:53-83 | the whole run as a function: an error exactly for ds = 0, otherwise columns aligned with the sample, the cells of the mass column, a count equal to the number of cells and the blank mean as reported threshold; the run lemmas are about it |
| `Pipeline.Run` | app.py:53-83 | the run computes `Process`: an error exactly for ds = 0, otherwise the columns, the scanned cells and the report |
| `Pipeline.RowAlignment` | app.py:53-83 | a run fails exactly when ds = 0; otherwise every derived column has the sample's length, row i of each comes from sample row i and the two means, and the cell count is the number of cells |
| `Pipeline.IonMeanAtMostThreshold` | app.py:55-57 | with `it >= 0` the signal average is at most `it` |
| `Pipeline.MassRowsPositive` | app.py:60-62 | with an average at most `it` and positive constants, a mass row is present exactly on sample rows above `it` when the average exists, and positive there |
| `Pipeline.MassColumnScaled` | app.py:62 | the mass column is the subtracted column with every present row multiplied by the calibration factor |
| `Pipeline.TotalMassIsConverted` | app.py:62 | the sum of the present masses is the sum of the present subtracted intensities times the calibration factor |
| `Pipeline.CellMassesAreConvertedRuns` | app.py:60-75 | with `it >= 0` and positive constants, there is one cell per maximal run of present subtracted rows, and each cell is that run's sum times the calibration factor |
| `Pipeline.CellsAreSaturatedRuns` | app.py:53-83 | with `it >= 0` and positive constants: the run succeeds, a mass row is present exactly where the sample is above `it` provided the signal average exists, every present mass is positive, the cells are the run sums of the mass column, each positive, and the mass mean is positive |
| `Pipeline.RunConservesMass` | app.py:64-83 | in every run the cells are positive and, with the non-positive leftover, add up to the total present mass |
| `Pipeline.NoSaturatedRowNoCells` | app.py:60-82 | a sample never above `it` yields no cell, a count of 0, and no mass mean or variance |
| `Pipeline.FullySaturatedNoCells` | app.py:53-83 | a sample above `it` on every present row has no signal average, so every subtracted and mass row is missing, no cell is detected, and the mass mean and ionic concentration are absent |

## Left out

- Command-line options and prompts (app.py:9-22) are user interface. So is
  the timestamped output directory (app.py:24-25). The settings arrive as a
  `Pipeline.Config`.
- Reading and writing CSV files (app.py:36-45, 92-97) is file I/O through
  pandas. The core receives the sample and blank intensity columns.
- The time columns are passed through to the output table untouched and
  are not modelled.
- Timing (`time.time`) and console output (`print`) are left out.
- `ca`, `te_std`, `ct` and `d` are prompted for but never used by the core,
  so they are not part of `Config`.
- `app.py` has one threshold policy and draws no histogram, so neither
  a second threshold nor a histogram is modelled.
- Pipeline.Aggregate: reports the population variance, not `np.std`. The
  standard deviation is its square root, which is not modelled on reals.
- Pipeline.Run: a detection sensitivity of 0 makes NumPy produce infinities
  or NaN. The model returns `Err(ZeroSensitivity)` instead. Every per-row
  mass conversion requires `ds != 0`.
- Floating-point rounding is not modelled; all arithmetic is on reals.
  NumPy's NaN for the mean of an empty list is an absent `Option`.
- In `calcIonIntensity` a value that is the empty string counts as missing.
  Under Python 3, comparing such a string with `>` in `calcBlankSubstracted`
  would raise. The model treats it as missing there too.
- pandas' `apply` over rows and the dataframe column assignments are
  modelled as pure maps over sequences. No row ever reads another row's
  value, so in-place assignment adds nothing observable.
