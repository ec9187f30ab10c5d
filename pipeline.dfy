/** The processing run: blank mean, ion-intensity column and its mean,
    background-subtracted column, element-mass column, cell segmentation and
    the summary report. */
module Pipeline {
  import opened Series
  import opened Rows
  import opened Segmentation

  /** The settings the core reads. */
  datatype Config = Config(
    sampleFlow: real,              // sf, mL/min
    dwellTime: real,               // dt, ms
    nebulizationEfficiency: real,  // ne, percent
    detectionSensitivity: real,    // ds, cps per ug/L
    ionThreshold: real)            // it, cps

  /** The summary written at the end of a run. A value NumPy would report as
      NaN (the mean of no reading, of no cell) is None. */
  datatype Report = Report(
    ionBlankThreshold: Option<real>,
    detectedCells: nat,
    massMean: Option<real>,
    massVariance: Option<real>,
    ionicConcentration: Option<real>)

  /** The derived columns, the cells and the report. */
  datatype Output = Output(
    ionIntensity: Column,
    blankSubtracted: Column,
    elementMass: Column,
    cells: seq<real>,
    report: Report)

  datatype Error = ZeroSensitivity

  datatype Result<T> = Ok(value: T) | Err(error: Error)

  function IonIntensityColumn(sample: Column, ionThreshold: real, baseline: Option<real>): (col: Column)
    ensures |col| == |sample|
    ensures forall i :: 0 <= i < |sample| ==> col[i] == CalcIonIntensity(sample[i], ionThreshold, baseline)
  {
    MapRows(x => CalcIonIntensity(x, ionThreshold, baseline), sample)
  }

  function BlankSubtractedColumn(sample: Column, ionThreshold: real, avg: Option<real>): (col: Column)
    ensures |col| == |sample|
    ensures forall i :: 0 <= i < |sample| ==> col[i] == CalcBlankSubtracted(sample[i], ionThreshold, avg)
  {
    MapRows(x => CalcBlankSubtracted(x, ionThreshold, avg), sample)
  }

  function ElementMassColumn(subtracted: Column, cfg: Config): (col: Column)
    requires cfg.detectionSensitivity != 0.0
    ensures |col| == |subtracted|
    ensures forall i :: 0 <= i < |subtracted| ==>
      col[i] == CalcElementMass(subtracted[i], cfg.dwellTime, cfg.detectionSensitivity, cfg.sampleFlow, cfg.nebulizationEfficiency)
  {
    MapRows(x => CalcElementMass(x, cfg.dwellTime, cfg.detectionSensitivity, cfg.sampleFlow, cfg.nebulizationEfficiency), subtracted)
  }

  /** The summary statistics of a run. */
  function Aggregate(baseline: Option<real>, cells: seq<real>, avg: Option<real>, ds: real): (r: Report)
    requires ds != 0.0
    ensures r.ionBlankThreshold == baseline
    ensures r.detectedCells == |cells|
    ensures r.massMean.Some? <==> cells != []
    ensures r.massMean.Some? ==> r.massMean.value * |cells| as real == Sum(cells)
    ensures r.massVariance == Variance(cells)
    ensures r.ionicConcentration.Some? <==> avg.Some?
    ensures r.ionicConcentration.Some? ==> r.ionicConcentration.value * ds == avg.value
  {
    Report(baseline, |cells|, MeanOf(cells), Variance(cells),
           if avg.Some? then Some(avg.value / ds) else None)
  }

  /** The whole run as a function of the two intensity columns and the settings. */
  function Process(sample: Column, blank: Column, cfg: Config): (r: Result<Output>)
    ensures r.Err? <==> cfg.detectionSensitivity == 0.0
    ensures r.Ok? ==>
      && |r.value.ionIntensity| == |sample|
      && |r.value.blankSubtracted| == |sample|
      && |r.value.elementMass| == |sample|
      && r.value.cells == Cells(r.value.elementMass)
      && r.value.report.detectedCells == |r.value.cells|
      && r.value.report.ionBlankThreshold == Mean(blank)
  {
    if cfg.detectionSensitivity == 0.0 then Err(ZeroSensitivity)
    else
      var baseline := Mean(blank);
      var ion := IonIntensityColumn(sample, cfg.ionThreshold, baseline);
      var avg := Mean(ion);
      var subtracted := BlankSubtractedColumn(sample, cfg.ionThreshold, avg);
      var mass := ElementMassColumn(subtracted, cfg);
      var cells := Cells(mass);
      Ok(Output(ion, subtracted, mass, cells, Aggregate(baseline, cells, avg, cfg.detectionSensitivity)))
  }

  /** The run itself: the columns are built one after another and the cells
      come from the segmentation loop. */
  method Run(sample: Column, blank: Column, cfg: Config) returns (out: Result<Output>)
    ensures out == Process(sample, blank, cfg)
  {
    if cfg.detectionSensitivity == 0.0 {
      return Err(ZeroSensitivity);
    }
    var ionBlankThreshold := Mean(blank);
    var ion := IonIntensityColumn(sample, cfg.ionThreshold, ionBlankThreshold);
    var ionIntensityAvg := Mean(ion);
    var subtracted := BlankSubtractedColumn(sample, cfg.ionThreshold, ionIntensityAvg);
    var mass := ElementMassColumn(subtracted, cfg);
    var cells := Segment(mass);
    var report := Aggregate(ionBlankThreshold, cells, ionIntensityAvg, cfg.detectionSensitivity);
    out := Ok(Output(ion, subtracted, mass, cells, report));
  }

  // ---------------------------------------------------------------------
  // Properties of a run.

  /** A run fails only on a zero detection sensitivity; otherwise every
      derived column has one row per sample row, row i of each is computed
      from row i of the sample and the two means, and the report counts the
      cells. */
  lemma RowAlignment(sample: Column, blank: Column, cfg: Config)
    ensures Process(sample, blank, cfg).Err? <==> cfg.detectionSensitivity == 0.0
    ensures Process(sample, blank, cfg).Ok? ==>
      var out := Process(sample, blank, cfg).value;
      var avg := Mean(out.ionIntensity);
      && |out.ionIntensity| == |sample|
      && |out.blankSubtracted| == |sample|
      && |out.elementMass| == |sample|
      && out.report.detectedCells == |out.cells|
      && forall i :: 0 <= i < |sample| ==>
           && out.ionIntensity[i] == CalcIonIntensity(sample[i], cfg.ionThreshold, Mean(blank))
           && out.blankSubtracted[i] == CalcBlankSubtracted(sample[i], cfg.ionThreshold, avg)
           && out.elementMass[i] == CalcElementMass(out.blankSubtracted[i], cfg.dwellTime,
                cfg.detectionSensitivity, cfg.sampleFlow, cfg.nebulizationEfficiency)
  {
  }

  /** With a non-negative ion threshold the mean ion intensity does not exceed
      the threshold, since every value it averages is 0 or a reading at most
      the threshold. */
  lemma IonMeanAtMostThreshold(sample: Column, ionThreshold: real, baseline: Option<real>)
    requires ionThreshold >= 0.0
    requires Mean(IonIntensityColumn(sample, ionThreshold, baseline)).Some?
    ensures Mean(IonIntensityColumn(sample, ionThreshold, baseline)).value <= ionThreshold
  {
    var ion := IonIntensityColumn(sample, ionThreshold, baseline);
    forall i | 0 <= i < |ion| && ion[i].Some? ensures ion[i].value <= ionThreshold {
      IonIntensityAtMost(sample[i], ionThreshold, baseline);
    }
    MeanAtMost(ion, ionThreshold);
  }

  /** With positive calibration constants and a mean ion intensity at most
      the threshold, the mass column is present exactly on the rows above the
      threshold, and positive there. */
  lemma MassRowsPositive(sample: Column, cfg: Config, avg: Option<real>)
    requires avg.Some? ==> avg.value <= cfg.ionThreshold
    requires cfg.dwellTime > 0.0 && cfg.detectionSensitivity > 0.0
    requires cfg.sampleFlow > 0.0 && cfg.nebulizationEfficiency > 0.0
    ensures
      var mass := ElementMassColumn(BlankSubtractedColumn(sample, cfg.ionThreshold, avg), cfg);
      && (forall i :: 0 <= i < |sample| ==>
            (mass[i].Some? <==> avg.Some? && sample[i].Some? && sample[i].value > cfg.ionThreshold))
      && AllPresentPositive(mass)
  {
    var subtracted := BlankSubtractedColumn(sample, cfg.ionThreshold, avg);
    var mass := ElementMassColumn(subtracted, cfg);
    var k := MassFactor(cfg.dwellTime, cfg.detectionSensitivity, cfg.sampleFlow, cfg.nebulizationEfficiency);
    MassFactorPositive(cfg.dwellTime, cfg.detectionSensitivity, cfg.sampleFlow, cfg.nebulizationEfficiency);
    forall i | 0 <= i < |mass| && mass[i].Some? ensures mass[i].value > 0.0 {
      var d := subtracted[i].value;
      assert d > 0.0;
      assert mass[i].value == d * k;
    }
  }

  /** With positive calibration constants and a non-negative ion threshold,
      the mass column is present exactly on the sample rows above the
      threshold (when at least one row was averaged), every present mass is
      positive, so the cells are the sums of the maximal runs of present
      masses, each positive, and so is their mean. */
  lemma CellsAreSaturatedRuns(sample: Column, blank: Column, cfg: Config)
    requires cfg.ionThreshold >= 0.0
    requires cfg.dwellTime > 0.0 && cfg.detectionSensitivity > 0.0
    requires cfg.sampleFlow > 0.0 && cfg.nebulizationEfficiency > 0.0
    ensures Process(sample, blank, cfg).Ok?
    ensures
      var out := Process(sample, blank, cfg).value;
      && (forall i :: 0 <= i < |sample| ==>
            (out.elementMass[i].Some? <==>
              Mean(out.ionIntensity).Some? && sample[i].Some? && sample[i].value > cfg.ionThreshold))
      && (forall i :: 0 <= i < |sample| && out.elementMass[i].Some? ==> out.elementMass[i].value > 0.0)
      && out.cells == RunSums(out.elementMass)
      && (forall k :: 0 <= k < |out.cells| ==> out.cells[k] > 0.0)
      && (out.report.massMean.Some? ==> out.report.massMean.value > 0.0)
  {
    var ion := IonIntensityColumn(sample, cfg.ionThreshold, Mean(blank));
    var avg := Mean(ion);
    if avg.Some? {
      IonMeanAtMostThreshold(sample, cfg.ionThreshold, Mean(blank));
    }
    MassRowsPositive(sample, cfg, avg);
    var mass := ElementMassColumn(BlankSubtractedColumn(sample, cfg.ionThreshold, avg), cfg);
    var cells := Cells(mass);
    CellsAreRunSums(mass);
    CellsPositive(mass);
    if cells != [] {
      MeanOfPositive(cells);
    }
    var out := Process(sample, blank, cfg).value;
    assert out.elementMass == mass && out.cells == cells && out.ionIntensity == ion;
  }

  /** The mass column is the subtracted column scaled by the calibration factor. */
  lemma MassColumnScaled(subtracted: Column, cfg: Config)
    requires cfg.detectionSensitivity != 0.0
    ensures Scaled(ElementMassColumn(subtracted, cfg), subtracted,
                   MassFactor(cfg.dwellTime, cfg.detectionSensitivity, cfg.sampleFlow, cfg.nebulizationEfficiency))
  {
  }

  /** The total present mass is the converted total of the present
      subtracted intensities. */
  lemma TotalMassIsConverted(subtracted: Column, cfg: Config)
    requires cfg.detectionSensitivity != 0.0
    ensures
      var k := MassFactor(cfg.dwellTime, cfg.detectionSensitivity, cfg.sampleFlow, cfg.nebulizationEfficiency);
      Sum(Present(ElementMassColumn(subtracted, cfg))) == Sum(Present(subtracted)) * k
  {
    var k := MassFactor(cfg.dwellTime, cfg.detectionSensitivity, cfg.sampleFlow, cfg.nebulizationEfficiency);
    MassColumnScaled(subtracted, cfg);
    PresentScaled(ElementMassColumn(subtracted, cfg), subtracted, k);
  }

  /** With positive calibration constants and a non-negative ion threshold,
      each cell's mass is the converted sum of the subtracted intensities of
      one maximal run of rows, in order. */
  lemma CellMassesAreConvertedRuns(sample: Column, blank: Column, cfg: Config)
    requires cfg.ionThreshold >= 0.0
    requires cfg.dwellTime > 0.0 && cfg.detectionSensitivity > 0.0
    requires cfg.sampleFlow > 0.0 && cfg.nebulizationEfficiency > 0.0
    ensures
      var out := Process(sample, blank, cfg).value;
      var k := MassFactor(cfg.dwellTime, cfg.detectionSensitivity, cfg.sampleFlow, cfg.nebulizationEfficiency);
      && |out.cells| == |RunSums(out.blankSubtracted)|
      && forall n :: 0 <= n < |out.cells| ==> out.cells[n] == RunSums(out.blankSubtracted)[n] * k
  {
    CellsAreSaturatedRuns(sample, blank, cfg);
    var out := Process(sample, blank, cfg).value;
    var k := MassFactor(cfg.dwellTime, cfg.detectionSensitivity, cfg.sampleFlow, cfg.nebulizationEfficiency);
    MassColumnScaled(out.blankSubtracted, cfg);
    RunSumsScaled(out.elementMass, out.blankSubtracted, k);
  }

  /** A sample that is above the ion threshold (or missing) on every row leaves
      nothing to average: the signal average is absent, so every subtracted
      and mass row is missing and no cell is detected. */
  lemma FullySaturatedNoCells(sample: Column, blank: Column, cfg: Config)
    requires cfg.detectionSensitivity != 0.0
    requires forall i :: 0 <= i < |sample| && sample[i].Some? ==> sample[i].value > cfg.ionThreshold
    ensures
      var out := Process(sample, blank, cfg).value;
      && Mean(out.ionIntensity).None?
      && (forall i :: 0 <= i < |sample| ==> out.blankSubtracted[i].None? && out.elementMass[i].None?)
      && out.cells == []
      && out.report.detectedCells == 0
      && out.report.massMean.None?
      && out.report.ionicConcentration.None?
  {
    var out := Process(sample, blank, cfg).value;
    assert forall i :: 0 <= i < |out.ionIntensity| ==> out.ionIntensity[i].None?;
    AllMissingNoCells(out.elementMass);
  }

  /** Every run reports only positive cells, and the cells plus the
      non-positive remainder of the scan add up to the total present mass. */
  lemma RunConservesMass(sample: Column, blank: Column, cfg: Config)
    requires cfg.detectionSensitivity != 0.0
    ensures
      var out := Process(sample, blank, cfg).value;
      && (forall k :: 0 <= k < |out.cells| ==> out.cells[k] > 0.0)
      && Leftover(out.elementMass) <= 0.0
      && Sum(out.cells) + Leftover(out.elementMass) == Sum(Present(out.elementMass))
  {
    var out := Process(sample, blank, cfg).value;
    CellsPositive(out.elementMass);
    CellsConserveMass(out.elementMass);
  }

  /** A sample that never rises above the ion threshold yields no cell, so the
      mass mean and variance are reported as absent. */
  lemma NoSaturatedRowNoCells(sample: Column, blank: Column, cfg: Config)
    requires cfg.detectionSensitivity != 0.0
    requires forall i :: 0 <= i < |sample| && sample[i].Some? ==> sample[i].value <= cfg.ionThreshold
    ensures
      var out := Process(sample, blank, cfg).value;
      && out.cells == []
      && out.report.detectedCells == 0
      && out.report.massMean.None?
      && out.report.massVariance.None?
  {
    var out := Process(sample, blank, cfg).value;
    AllMissingNoCells(out.elementMass);
  }
}
