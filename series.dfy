/** Columns of readings with explicit missing values, and the statistics the
    pipeline takes over them (mean over present values, population variance). */
module Series {

  /** A reading that may be missing: None stands for NaN or an empty field. */
  datatype Option<T> = None | Some(value: T)

  /** One column of a table, aligned by row position. */
  type Column = seq<Option<real>>

  /** A row-wise transform of a column: row i of the result depends on row i
      of the input only. */
  function MapRows<A, B>(f: A -> B, rows: seq<A>): (r: seq<B>)
    ensures |r| == |rows|
    ensures forall i :: 0 <= i < |rows| ==> r[i] == f(rows[i])
  {
    if rows == [] then [] else [f(rows[0])] + MapRows(f, rows[1..])
  }

  function Sum(s: seq<real>): (total: real)
  {
    if s == [] then 0.0 else s[0] + Sum(s[1..])
  }

  lemma {:induction false} SumAppend(a: seq<real>, b: seq<real>)
    ensures Sum(a + b) == Sum(a) + Sum(b)
  {
    if a == [] {
      assert a + b == b;
    } else {
      assert (a + b)[1..] == a[1..] + b;
      SumAppend(a[1..], b);
    }
  }

  lemma {:induction false} SumAtMost(s: seq<real>, hi: real)
    requires forall i :: 0 <= i < |s| ==> s[i] <= hi
    ensures Sum(s) <= |s| as real * hi
  {
    if s != [] {
      SumAtMost(s[1..], hi);
    }
  }

  lemma {:induction false} SumAtLeast(s: seq<real>, lo: real)
    requires forall i :: 0 <= i < |s| ==> lo <= s[i]
    ensures |s| as real * lo <= Sum(s)
  {
    if s != [] {
      SumAtLeast(s[1..], lo);
    }
  }

  lemma {:induction false} SumPositive(s: seq<real>)
    requires s != []
    requires forall i :: 0 <= i < |s| ==> s[i] > 0.0
    ensures Sum(s) > 0.0
  {
    if |s| > 1 {
      SumPositive(s[1..]);
    }
  }

  /** The present values of a column, in row order (what pandas' skip-NaN
      reductions see). */
  function Present(xs: Column): (r: seq<real>)
    ensures |r| <= |xs|
  {
    if xs == [] then []
    else match xs[0]
      case Some(v) => [v] + Present(xs[1..])
      case None => Present(xs[1..])
  }

  /** A bound on every present row bounds every present value. */
  lemma {:induction false} PresentAtMost(xs: Column, hi: real)
    requires forall i :: 0 <= i < |xs| && xs[i].Some? ==> xs[i].value <= hi
    ensures forall j :: 0 <= j < |Present(xs)| ==> Present(xs)[j] <= hi
  {
    if xs != [] {
      assert forall i :: 0 <= i < |xs[1..]| ==> xs[1..][i] == xs[i + 1];
      PresentAtMost(xs[1..], hi);
    }
  }

  /** v multiplied by a constant factor k. Naming the product keeps it away
      from the solver's nonlinear arithmetic in the scaling proofs below. */
  function Times(v: real, k: real): (r: real)
  {
    v * k
  }

  /** ys is xs with every present value multiplied by k, row by row. */
  ghost predicate Scaled(ys: Column, xs: Column, k: real)
  {
    && |ys| == |xs|
    && forall i :: 0 <= i < |xs| ==>
         && (ys[i].Some? <==> xs[i].Some?)
         && (ys[i].Some? ==> ys[i].value == Times(xs[i].value, k))
  }

  lemma ScaledDrop(ys: Column, xs: Column, k: real, j: nat)
    requires Scaled(ys, xs, k)
    requires j <= |xs|
    ensures Scaled(ys[j..], xs[j..], k)
  {
    forall i | 0 <= i < |xs[j..]|
      ensures (ys[j..][i].Some? <==> xs[j..][i].Some?)
      ensures ys[j..][i].Some? ==> ys[j..][i].value == Times(xs[j..][i].value, k)
    {
      assert ys[j..][i] == ys[j + i] && xs[j..][i] == xs[j + i];
    }
  }

  /** Scaling every present value scales their sum. */
  lemma {:induction false} PresentScaled(ys: Column, xs: Column, k: real)
    requires Scaled(ys, xs, k)
    ensures Sum(Present(ys)) == Times(Sum(Present(xs)), k)
  {
    if xs == [] {
      assert Times(0.0, k) == 0.0;
    } else {
      ScaledDrop(ys, xs, k, 1);
      PresentScaled(ys[1..], xs[1..], k);
      var rest, rest' := Present(xs[1..]), Present(ys[1..]);
      if xs[0].Some? {
        var v := xs[0].value;
        assert ys[0].Some? && ys[0].value == Times(v, k);
        assert Present(xs) == [v] + rest;
        assert Present(ys) == [Times(v, k)] + rest';
        SumCons(v, rest);
        SumCons(Times(v, k), rest');
        ScaleStep(v, k, Sum(rest), Sum(rest'), Sum(Present(xs)), Sum(Present(ys)));
      } else {
        assert ys[0].None?;
        assert Present(xs) == rest && Present(ys) == rest';
      }
    }
  }

  lemma SumCons(v: real, rest: seq<real>)
    ensures Sum([v] + rest) == v + Sum(rest)
  {
    assert ([v] + rest)[1..] == rest;
  }

  /** The arithmetic step of the lemma above, on plain numbers, kept apart
      so that the nonlinear step is proved without the column in scope. */
  lemma ScaleStep(v: real, k: real, rest: real, rest': real, total: real, total': real)
    requires rest' == Times(rest, k)
    requires total == v + rest && total' == Times(v, k) + rest'
    ensures total' == Times(total, k)
  {
  }

  /** A column has no present value exactly when every row is missing. */
  lemma {:induction false} PresentEmpty(xs: Column)
    ensures Present(xs) == [] <==> forall i :: 0 <= i < |xs| ==> xs[i].None?
  {
    if xs != [] {
      PresentEmpty(xs[1..]);
      assert forall i :: 1 <= i < |xs| ==> xs[i] == xs[1..][i - 1];
    }
  }

  /** Arithmetic mean; an empty sequence has none (NumPy returns NaN). */
  function MeanOf(s: seq<real>): (r: Option<real>)
    ensures r.None? <==> s == []
    ensures r.Some? ==> r.value * |s| as real == Sum(s)
  {
    if s == [] then None else Some(Sum(s) / |s| as real)
  }

  lemma MeanOfAtMost(s: seq<real>, hi: real)
    requires s != []
    requires forall i :: 0 <= i < |s| ==> s[i] <= hi
    ensures MeanOf(s).value <= hi
  {
    SumAtMost(s, hi);
  }

  lemma MeanOfPositive(s: seq<real>)
    requires s != []
    requires forall i :: 0 <= i < |s| ==> s[i] > 0.0
    ensures MeanOf(s).value > 0.0
  {
    SumPositive(s);
  }

  /** Column mean over present values only; absent exactly when every row is missing. */
  function Mean(xs: Column): (r: Option<real>)
    ensures r.None? <==> forall i :: 0 <= i < |xs| ==> xs[i].None?
    ensures r.Some? ==> r.value * |Present(xs)| as real == Sum(Present(xs))
  {
    PresentEmpty(xs);
    MeanOf(Present(xs))
  }

  /** A bound on every present row bounds the column mean. */
  lemma MeanAtMost(xs: Column, hi: real)
    requires Mean(xs).Some?
    requires forall i :: 0 <= i < |xs| && xs[i].Some? ==> xs[i].value <= hi
    ensures Mean(xs).value <= hi
  {
    PresentAtMost(xs, hi);
    MeanOfAtMost(Present(xs), hi);
  }

  /** The square of a real, which is never negative. */
  function Square(d: real): (r: real)
    ensures r >= 0.0
  {
    assert d * d >= 0.0 by { if d < 0.0 { assert d * d == (-d) * (-d); } }
    d * d
  }

  /** The sum of the squared distances of the values from m. */
  function SquaredDeviations(s: seq<real>, m: real): (r: real)
    ensures r >= 0.0
  {
    if s == [] then 0.0 else Square(s[0] - m) + SquaredDeviations(s[1..], m)
  }

  /** Population variance (divides by n, as numpy.std does before the square
      root); none for an empty sequence. */
  function Variance(s: seq<real>): (r: Option<real>)
    ensures r.None? <==> s == []
    ensures r.Some? ==> r.value >= 0.0
    ensures r.Some? ==> r.value * |s| as real == SquaredDeviations(s, MeanOf(s).value)
  {
    if s == [] then None else Some(SquaredDeviations(s, MeanOf(s).value) / |s| as real)
  }

  /** Two values: the population variance is the square of half their
      distance (the n - 1 sample variance would be twice that). */
  lemma VarianceOfTwo(a: real, b: real)
    ensures Variance([a, b]) == Some((a - b) * (a - b) / 4.0)
  {
    var s := [a, b];
    assert s[1..] == [b];
    assert [b][1..] == [];
    assert Sum([b]) == b;
    assert Sum(s) == a + b;
    var m := (a + b) / 2.0;
    assert MeanOf(s).value == m;
    assert SquaredDeviations([b], m) == (b - m) * (b - m);
    assert SquaredDeviations(s, m) == (a - m) * (a - m) + (b - m) * (b - m);
    assert (a - m) * (a - m) + (b - m) * (b - m) == (a - b) * (a - b) / 2.0;
  }

  lemma {:induction false} ConstantSquaredDeviations(s: seq<real>, m: real)
    requires forall i :: 0 <= i < |s| ==> s[i] == m
    ensures SquaredDeviations(s, m) == 0.0
  {
    if s != [] {
      ConstantSquaredDeviations(s[1..], m);
    }
  }

  /** Equal values (a single cell, say) have zero variance. */
  lemma VarianceOfEqualValues(s: seq<real>, m: real)
    requires s != []
    requires forall i :: 0 <= i < |s| ==> s[i] == m
    ensures Variance(s) == Some(0.0)
  {
    SumAtMost(s, m);
    SumAtLeast(s, m);
    var n := |s| as real;
    var mean := MeanOf(s).value;
    assert mean * n == m * n;
    assert mean == m;
    ConstantSquaredDeviations(s, m);
  }
}
