/** Cell-event segmentation: one left-to-right pass over the element-mass
    column that adds up present masses and emits the running sum at a gap,
    but only when that sum is positive. */
module Segmentation {
  import opened Series

  /** What the scan carries from row to row: the cells emitted so far and the
      running sum. */
  datatype ScanState = ScanState(cells: seq<real>, sum: real)

  const Start := ScanState([], 0.0)

  /** One row of the scan. A present mass is added to the sum. A missing one
      emits the sum as a cell and resets it, if the sum is positive; otherwise
      nothing changes, so a non-positive sum is carried across the gap. */
  function Step(st: ScanState, x: Option<real>): (next: ScanState)
    ensures next.cells == st.cells || (st.sum > 0.0 && next.cells == st.cells + [st.sum])
    ensures next.cells != st.cells <==> x.None? && st.sum > 0.0
    ensures Sum(next.cells) + next.sum == Sum(st.cells) + st.sum + (if x.Some? then x.value else 0.0)
  {
    match x
    case Some(a) => ScanState(st.cells, st.sum + a)
    case None =>
      if st.sum > 0.0 then
        SumAppend(st.cells, [st.sum]);
        assert Sum([st.sum]) == st.sum + Sum([]);
        ScanState(st.cells + [st.sum], 0.0)
      else st
  }

  /** The scan over the remaining rows, from a given state. */
  function ScanFrom(st: ScanState, xs: Column): (final: ScanState)
    decreases |xs|
  {
    if xs == [] then st else ScanFrom(Step(st, xs[0]), xs[1..])
  }

  /** After the last row a positive sum is emitted as a final cell. */
  function Flush(st: ScanState): (cells: seq<real>)
    ensures cells != st.cells <==> st.sum > 0.0
    ensures cells == st.cells || cells == st.cells + [st.sum]
  {
    if st.sum > 0.0 then st.cells + [st.sum] else st.cells
  }

  /** The cells the pass yields for a mass column. */
  function Cells(xs: Column): (cells: seq<real>)
    ensures forall i :: 0 <= i < |cells| ==> cells[i] > 0.0
  {
    ScanKeepsCellsPositive(Start, xs);
    Flush(ScanFrom(Start, xs))
  }

  /** What is left over and never emitted: the final sum when it is not positive. */
  function Leftover(xs: Column): (rest: real)
  {
    var st := ScanFrom(Start, xs);
    if st.sum > 0.0 then 0.0 else st.sum
  }

  /** The segmentation loop of the pipeline. */
  method Segment(masses: Column) returns (cells: seq<real>)
    ensures cells == Cells(masses)
  {
    cells := [];
    var sum := 0.0;
    assert masses[0..] == masses;
    for i := 0 to |masses|
      invariant ScanFrom(ScanState(cells, sum), masses[i..]) == ScanFrom(Start, masses)
    {
      assert masses[i..][1..] == masses[i + 1..];
      match masses[i]
      case Some(a) =>
        sum := sum + a;
      case None =>
        if sum > 0.0 {
          cells := cells + [sum];
          sum := 0.0;
        }
    }
    if sum > 0.0 {
      cells := cells + [sum];
    }
  }

  // ---------------------------------------------------------------------
  // Every emitted cell is positive.

  lemma {:induction false} ScanKeepsCellsPositive(st: ScanState, xs: Column)
    requires forall i :: 0 <= i < |st.cells| ==> st.cells[i] > 0.0
    ensures forall i :: 0 <= i < |ScanFrom(st, xs).cells| ==> ScanFrom(st, xs).cells[i] > 0.0
    decreases |xs|
  {
    if xs != [] {
      ScanKeepsCellsPositive(Step(st, xs[0]), xs[1..]);
    }
  }

  lemma CellsPositive(xs: Column)
    ensures forall i :: 0 <= i < |Cells(xs)| ==> Cells(xs)[i] > 0.0
  {
    ScanKeepsCellsPositive(Start, xs);
  }

  // ---------------------------------------------------------------------
  // No mass is lost: what is emitted plus what is left over is the total.

  lemma {:induction false} ScanConservesMass(st: ScanState, xs: Column)
    ensures Sum(ScanFrom(st, xs).cells) + ScanFrom(st, xs).sum == Sum(st.cells) + st.sum + Sum(Present(xs))
    decreases |xs|
  {
    if xs != [] {
      ScanConservesMass(Step(st, xs[0]), xs[1..]);
      match xs[0]
      case Some(a) =>
        SumCons(a, Present(xs[1..]));
      case None =>
    }
  }

  /** The emitted cells plus the non-positive leftover account for every
      present mass. */
  lemma CellsConserveMass(xs: Column)
    ensures Leftover(xs) <= 0.0
    ensures Sum(Cells(xs)) + Leftover(xs) == Sum(Present(xs))
  {
    var st := ScanFrom(Start, xs);
    ScanConservesMass(Start, xs);
    if st.sum > 0.0 {
      SumAppend(st.cells, [st.sum]);
      assert Sum([st.sum]) == st.sum + Sum([]);
    }
  }

  // ---------------------------------------------------------------------
  // A column with no present value yields no cell.

  lemma {:induction false} ScanOverMissing(st: ScanState, xs: Column)
    requires st.sum == 0.0
    requires forall i :: 0 <= i < |xs| ==> xs[i].None?
    ensures ScanFrom(st, xs) == st
  {
    if xs != [] {
      ScanOverMissing(Step(st, xs[0]), xs[1..]);
    }
  }

  lemma AllMissingNoCells(xs: Column)
    requires forall i :: 0 <= i < |xs| ==> xs[i].None?
    ensures Cells(xs) == []
  {
    ScanOverMissing(Start, xs);
  }

  // ---------------------------------------------------------------------
  // Reference definition: the sums of the maximal runs of present values.

  /** Length of the run of present values that starts the column. */
  function RunLength(xs: Column): (k: nat)
    ensures k <= |xs|
    ensures forall i :: 0 <= i < k ==> xs[i].Some?
    ensures k < |xs| ==> xs[k].None?
  {
    if xs == [] || xs[0].None? then 0 else 1 + RunLength(xs[1..])
  }

  /** Sum of the run of present values that starts the column. */
  function LeadSum(xs: Column): (total: real)
  {
    if xs == [] || xs[0].None? then 0.0 else xs[0].value + LeadSum(xs[1..])
  }

  /** LeadSum adds up exactly the present values of the leading run. */
  lemma {:induction false} LeadSumIsSumOfRun(xs: Column)
    ensures LeadSum(xs) == Sum(Present(xs[..RunLength(xs)]))
  {
    if xs == [] || xs[0].None? {
      assert xs[..0] == [];
    } else {
      var k := RunLength(xs);
      var p := Present(xs[1..][..k - 1]);
      LeadSumIsSumOfRun(xs[1..]);
      assert xs[..k] == [xs[0]] + xs[1..][..k - 1];
      assert (xs[..k])[1..] == xs[1..][..k - 1];
      assert Present(xs[..k]) == [xs[0].value] + p;
      assert ([xs[0].value] + p)[1..] == p;
    }
  }

  /** The sum of each maximal run of consecutive present values, in order. */
  function RunSums(xs: Column): (sums: seq<real>)
    decreases |xs|
  {
    if xs == [] then []
    else if xs[0].None? then RunSums(xs[1..])
    else [LeadSum(xs)] + RunSums(xs[RunLength(xs)..])
  }

  ghost predicate AllPresentPositive(xs: Column)
  {
    forall i :: 0 <= i < |xs| && xs[i].Some? ==> xs[i].value > 0.0
  }

  function Pending(h: real): (pending: seq<real>)
  {
    if h > 0.0 then [h] else []
  }

  lemma {:induction false} LeadSumPositive(xs: Column)
    requires AllPresentPositive(xs)
    ensures LeadSum(xs) >= 0.0
    ensures xs != [] && xs[0].Some? ==> LeadSum(xs) > 0.0
  {
    if xs != [] && xs[0].Some? {
      TailPresentPositive(xs);
      LeadSumPositive(xs[1..]);
    }
  }

  /** RunSums split after its first run (which may be empty). */
  lemma RunSumsFirstRun(xs: Column)
    requires AllPresentPositive(xs)
    ensures RunSums(xs) == Pending(LeadSum(xs)) + RunSums(xs[RunLength(xs)..])
  {
    if xs == [] {
    } else if xs[0].None? {
      assert xs[0..] == xs;
    } else {
      LeadSumPositive(xs);
    }
  }

  lemma TailPresentPositive(xs: Column)
    requires xs != []
    requires AllPresentPositive(xs)
    ensures AllPresentPositive(xs[1..])
  {
    forall i | 0 <= i < |xs[1..]| && xs[1..][i].Some? ensures xs[1..][i].value > 0.0 {
      assert xs[1..][i] == xs[i + 1];
    }
  }

  /** RunSums of a column that starts with a gap. */
  lemma GapRuns(xs: Column)
    requires xs != [] && xs[0].None?
    requires AllPresentPositive(xs[1..])
    ensures LeadSum(xs) == 0.0
    ensures xs[RunLength(xs)..] == xs
    ensures RunSums(xs) == Pending(LeadSum(xs[1..])) + RunSums(xs[1..][RunLength(xs[1..])..])
  {
    assert xs[0..] == xs;
    RunSumsFirstRun(xs[1..]);
  }

  /** The scan from any state with a non-negative sum: the sum joins the run
      the remaining column starts with, and the rest are the run sums. */
  lemma {:induction false} ScanMatchesRuns(c: seq<real>, acc: real, xs: Column)
    requires acc >= 0.0
    requires AllPresentPositive(xs)
    ensures Flush(ScanFrom(ScanState(c, acc), xs))
         == c + Pending(acc + LeadSum(xs)) + RunSums(xs[RunLength(xs)..])
    decreases |xs|, 1
  {
    if xs == [] {
      assert c + Pending(acc) + [] == c + Pending(acc);
    } else if xs[0].Some? {
      ScanPresentRow(c, acc, xs);
    } else {
      ScanGapRow(c, acc, xs);
    }
  }

  /** ScanMatchesRuns when the next row is present. */
  lemma {:induction false} ScanPresentRow(c: seq<real>, acc: real, xs: Column)
    requires acc >= 0.0
    requires AllPresentPositive(xs)
    requires xs != [] && xs[0].Some?
    ensures Flush(ScanFrom(ScanState(c, acc), xs))
         == c + Pending(acc + LeadSum(xs)) + RunSums(xs[RunLength(xs)..])
    decreases |xs|, 0
  {
    var t := xs[1..];
    var v := xs[0].value;
    TailPresentPositive(xs);
    assert ScanFrom(ScanState(c, acc), xs) == ScanFrom(ScanState(c, acc + v), t);
    ScanMatchesRuns(c, acc + v, t);
    assert acc + LeadSum(xs) == (acc + v) + LeadSum(t);
    assert xs[RunLength(xs)..] == t[RunLength(t)..];
  }

  /** ScanMatchesRuns when the next row is missing: a positive sum is
      emitted and reset, a zero sum stays. */
  lemma {:induction false} ScanGapRow(c: seq<real>, acc: real, xs: Column)
    requires acc >= 0.0
    requires AllPresentPositive(xs)
    requires xs != [] && xs[0].None?
    ensures Flush(ScanFrom(ScanState(c, acc), xs))
         == c + Pending(acc + LeadSum(xs)) + RunSums(xs[RunLength(xs)..])
    decreases |xs|, 0
  {
    var t := xs[1..];
    TailPresentPositive(xs);
    GapRuns(xs);
    var emitted := c + Pending(acc);
    assert Step(ScanState(c, acc), xs[0]) == ScanState(emitted, 0.0);
    ScanMatchesRuns(emitted, 0.0, t);
    assert emitted + Pending(LeadSum(t)) + RunSums(t[RunLength(t)..])
        == emitted + (Pending(LeadSum(t)) + RunSums(t[RunLength(t)..]));
  }

  /** When every present mass is positive, the cells are exactly the sums of
      the maximal runs of present masses, in order. */
  lemma CellsAreRunSums(xs: Column)
    requires AllPresentPositive(xs)
    ensures Cells(xs) == RunSums(xs)
  {
    ScanMatchesRuns([], 0.0, xs);
    RunSumsFirstRun(xs);
    assert [] + Pending(0.0 + LeadSum(xs)) + RunSums(xs[RunLength(xs)..])
        == Pending(LeadSum(xs)) + RunSums(xs[RunLength(xs)..]);
  }

  // ---------------------------------------------------------------------
  // Scaling a column scales its run sums.

  lemma {:induction false} RunLengthScaled(ys: Column, xs: Column, k: real)
    requires Scaled(ys, xs, k)
    ensures RunLength(ys) == RunLength(xs)
  {
    if xs != [] && xs[0].Some? {
      assert ys[0].Some?;
      ScaledDrop(ys, xs, k, 1);
      RunLengthScaled(ys[1..], xs[1..], k);
    } else if xs != [] {
      assert ys[0].None?;
    }
  }

  lemma {:induction false} LeadSumScaled(ys: Column, xs: Column, k: real)
    requires Scaled(ys, xs, k)
    ensures LeadSum(ys) == Times(LeadSum(xs), k)
  {
    if xs == [] {
      assert Times(0.0, k) == 0.0;
    } else if xs[0].None? {
      assert ys[0].None?;
      assert Times(0.0, k) == 0.0;
    } else {
      assert ys[0].Some? && ys[0].value == Times(xs[0].value, k);
      ScaledDrop(ys, xs, k, 1);
      LeadSumScaled(ys[1..], xs[1..], k);
      ScaleStep(xs[0].value, k, LeadSum(xs[1..]), LeadSum(ys[1..]), LeadSum(xs), LeadSum(ys));
    }
  }

  /** The run sums of a scaled column are the run sums of the column, scaled. */
  lemma {:induction false} RunSumsScaled(ys: Column, xs: Column, k: real)
    requires Scaled(ys, xs, k)
    ensures |RunSums(ys)| == |RunSums(xs)|
    ensures forall n :: 0 <= n < |RunSums(xs)| ==> RunSums(ys)[n] == Times(RunSums(xs)[n], k)
    decreases |xs|
  {
    if xs == [] {
    } else if xs[0].None? {
      assert ys[0].None?;
      ScaledDrop(ys, xs, k, 1);
      RunSumsScaled(ys[1..], xs[1..], k);
    } else {
      assert ys[0].Some?;
      var r := RunLength(xs);
      RunLengthScaled(ys, xs, k);
      LeadSumScaled(ys, xs, k);
      ScaledDrop(ys, xs, k, r);
      RunSumsScaled(ys[r..], xs[r..], k);
      assert RunSums(xs) == [LeadSum(xs)] + RunSums(xs[r..]);
      assert RunSums(ys) == [LeadSum(ys)] + RunSums(ys[r..]);
    }
  }

  // ---------------------------------------------------------------------
  // Worked columns.

  /** Two gaps in a row emit nothing extra, and the trailing run is flushed. */
  lemma ExampleRuns()
    ensures Cells([Some(5.0), Some(3.0), None, Some(2.0), None, None, Some(7.0)]) == [8.0, 2.0, 7.0]
  {
    var xs := [Some(5.0), Some(3.0), None, Some(2.0), None, None, Some(7.0)];
    assert ScanFrom(Start, xs) == ScanFrom(ScanState([8.0], 0.0), xs[3..]);
    assert ScanFrom(ScanState([8.0], 0.0), xs[3..]) == ScanFrom(ScanState([8.0, 2.0], 0.0), xs[5..]);
    assert ScanFrom(ScanState([8.0, 2.0], 0.0), xs[5..]) == ScanState([8.0, 2.0], 7.0);
  }

  lemma ExampleSingleRow()
    ensures Cells([None, Some(4.0), None]) == [4.0]
  {
  }

  /** A run whose sum is 0 emits no cell. */
  lemma ExampleZeroRun()
    ensures Cells([Some(0.0), Some(0.0), None]) == []
  {
  }

  /** A negative sum is not emitted and is not reset at the gap: it is
      carried into the next run. */
  lemma ExampleCarryAcrossGap()
    ensures Cells([Some(-3.0), None, Some(5.0), None]) == [2.0]
  {
  }
}
