/** Per-record metrics (the two engagement rates), the duration bands and
    the arithmetic mean. Python floats are modelled as `real`, so every
    ratio below is exact. */
module Metrics {
  import opened Rows

  /** `er_with_saves`: interactions including saves per view, 0 without views. */
  function ErWithSaves(row: Row): (e: real)
    ensures row.views <= 0 ==> e == 0.0
    ensures row.views > 0 ==>
              e * row.views as real == (row.likes + row.comments + row.shares + row.savesOrFavorites) as real
  {
    if row.views <= 0 then 0.0
    else (row.likes + row.comments + row.shares + row.savesOrFavorites) as real / row.views as real
  }

  /** `er_no_saves`: interactions without saves per view, 0 without views. */
  function ErNoSaves(row: Row): (e: real)
    ensures row.views <= 0 ==> e == 0.0
    ensures row.views > 0 ==> e * row.views as real == (row.likes + row.comments + row.shares) as real
  {
    if row.views <= 0 then 0.0
    else (row.likes + row.comments + row.shares) as real / row.views as real
  }

  /** The two rates differ by exactly the saves per view, so with a
      non-negative save count the rate without saves never exceeds the
      rate with them. */
  lemma SavesAddToRate(row: Row)
    ensures ErWithSaves(row) - ErNoSaves(row) == if row.views > 0 then row.savesOrFavorites as real / row.views as real else 0.0
    ensures row.savesOrFavorites >= 0 ==> ErNoSaves(row) <= ErWithSaves(row)
  {
    if row.views > 0 {
      var v := row.views as real;
      var base := (row.likes + row.comments + row.shares) as real;
      var s := row.savesOrFavorites as real;
      assert ErWithSaves(row) == (base + s) / v;
      assert (base + s) / v == base / v + s / v;
      assert s >= 0.0 ==> s / v >= 0.0;
    }
  }

  /** With non-negative counts both rates are non-negative. */
  lemma RatesNonNegative(row: Row)
    requires row.likes >= 0 && row.comments >= 0 && row.shares >= 0 && row.savesOrFavorites >= 0
    ensures 0.0 <= ErNoSaves(row) <= ErWithSaves(row)
  {
    SavesAddToRate(row);
  }

  /** The five duration bands, in the order of the duration table. */
  datatype Band = Under15 | From15To30 | From30To45 | From45To60 | Over60

  const BandOrder: seq<Band> := [Under15, From15To30, From30To45, From45To60, Over60]

  /** The label the source uses for a band. */
  function Label(b: Band): string {
    match b
    case Under15 => "under_15"
    case From15To30 => "15_30"
    case From30To45 => "30_45"
    case From45To60 => "45_60"
    case Over60 => "over_60"
  }

  /** The interval each band covers: 45 belongs to 30_45 and 60 to 45_60. */
  predicate InBand(b: Band, seconds: real) {
    match b
    case Under15 => seconds < 15.0
    case From15To30 => 15.0 <= seconds < 30.0
    case From30To45 => 30.0 <= seconds <= 45.0
    case From45To60 => 45.0 < seconds <= 60.0
    case Over60 => 60.0 < seconds
  }

  /** `duration_band`: the first test that holds decides the band. */
  function DurationBand(seconds: real): (b: Band)
    ensures InBand(b, seconds)
  {
    if seconds < 15.0 then Under15
    else if seconds < 30.0 then From15To30
    else if seconds <= 45.0 then From30To45
    else if seconds <= 60.0 then From45To60
    else Over60
  }

  /** The bands do not overlap: a duration lies in exactly one of them. */
  lemma BandIsUnique(b: Band, seconds: real)
    requires InBand(b, seconds)
    ensures b == DurationBand(seconds)
  {
  }

  /** The band order lists every band once, and distinct bands have distinct labels. */
  lemma BandOrderComplete(b: Band)
    ensures b in BandOrder
    ensures forall i, j :: 0 <= i < j < |BandOrder| ==> Label(BandOrder[i]) != Label(BandOrder[j])
  {
    assert Label(BandOrder[0])[0] == 'u' && Label(BandOrder[4])[0] == 'o';
    assert Label(BandOrder[1])[0] == '1' && Label(BandOrder[2])[0] == '3' && Label(BandOrder[3])[0] == '4';
  }

  /** The boundary cases the source fixes by the order of its tests. */
  lemma BandBoundaries()
    ensures DurationBand(14.9) == Under15 && DurationBand(15.0) == From15To30
    ensures DurationBand(29.9) == From15To30 && DurationBand(30.0) == From30To45
    ensures DurationBand(45.0) == From30To45 && DurationBand(45.1) == From45To60
    ensures DurationBand(60.0) == From45To60 && DurationBand(60.1) == Over60
  {
  }

  /** `sum(vals)`, adding from the left. */
  function Sum(xs: seq<real>): real {
    if xs == [] then 0.0 else Sum(xs[..|xs| - 1]) + xs[|xs| - 1]
  }

  /** `mean`: 0 for no values, otherwise the sum over the count. */
  function Mean(xs: seq<real>): (m: real)
    ensures xs == [] ==> m == 0.0
    ensures xs != [] ==> m * |xs| as real == Sum(xs)
  {
    if xs == [] then 0.0 else Sum(xs) / |xs| as real
  }

  /** Bounds on every value bound the sum. */
  lemma {:induction false} SumWithin(xs: seq<real>, lo: real, hi: real)
    requires forall i :: 0 <= i < |xs| ==> lo <= xs[i] <= hi
    ensures |xs| as real * lo <= Sum(xs) <= |xs| as real * hi
  {
    if xs != [] {
      var init := xs[..|xs| - 1];
      assert forall i :: 0 <= i < |init| ==> init[i] == xs[i];
      SumWithin(init, lo, hi);
      var k := |init| as real;
      assert |xs| as real * lo == k * lo + lo && |xs| as real * hi == k * hi + hi;
    }
  }

  /** Bounds on every value bound the mean. */
  lemma MeanWithin(xs: seq<real>, lo: real, hi: real)
    requires xs != []
    requires forall i :: 0 <= i < |xs| ==> lo <= xs[i] <= hi
    ensures lo <= Mean(xs) <= hi
  {
    SumWithin(xs, lo, hi);
    var n := |xs| as real;
    var m := Mean(xs);
    Unscale(lo, m, n);
    Unscale(m, hi, n);
  }

  /** Dividing both sides of `x * n <= y * n` by a positive `n`. */
  lemma Unscale(x: real, y: real, n: real)
    requires 0.0 < n && x * n <= y * n
    ensures x <= y
  {
  }

  /** The smallest and the largest value. */
  function Min(xs: seq<real>): (m: real)
    requires xs != []
    ensures m in xs && forall i :: 0 <= i < |xs| ==> m <= xs[i]
  {
    if |xs| == 1 then xs[0]
    else
      var m := Min(xs[1..]);
      assert forall i :: 1 <= i < |xs| ==> xs[i] == xs[1..][i - 1];
      if xs[0] <= m then xs[0] else m
  }

  function Max(xs: seq<real>): (m: real)
    requires xs != []
    ensures m in xs && forall i :: 0 <= i < |xs| ==> xs[i] <= m
  {
    if |xs| == 1 then xs[0]
    else
      var m := Max(xs[1..]);
      assert forall i :: 1 <= i < |xs| ==> xs[i] == xs[1..][i - 1];
      if m <= xs[0] then xs[0] else m
  }

  /** The mean of a non-empty sequence lies between its minimum and maximum. */
  lemma MeanBetweenMinAndMax(xs: seq<real>)
    requires xs != []
    ensures Min(xs) <= Mean(xs) <= Max(xs)
  {
    MeanWithin(xs, Min(xs), Max(xs));
  }

  /** Pointwise smaller values have a smaller mean. */
  lemma {:induction false} SumMonotone(xs: seq<real>, ys: seq<real>)
    requires |xs| == |ys|
    requires forall i :: 0 <= i < |xs| ==> xs[i] <= ys[i]
    ensures Sum(xs) <= Sum(ys)
  {
    if xs != [] {
      var n := |xs| - 1;
      assert forall i :: 0 <= i < n ==> xs[..n][i] == xs[i] && ys[..n][i] == ys[i];
      SumMonotone(xs[..n], ys[..n]);
    }
  }

  lemma MeanMonotone(xs: seq<real>, ys: seq<real>)
    requires |xs| == |ys|
    requires forall i :: 0 <= i < |xs| ==> xs[i] <= ys[i]
    ensures Mean(xs) <= Mean(ys)
  {
    if xs != [] {
      SumMonotone(xs, ys);
      var n := |xs| as real;
      assert Mean(xs) * n == Sum(xs) && Mean(ys) * n == Sum(ys);
      Unscale(Mean(xs), Mean(ys), n);
    }
  }

  /** Non-negative values have mean 0 exactly when all of them are 0. */
  lemma {:induction false} SumZero(xs: seq<real>)
    requires forall i :: 0 <= i < |xs| ==> 0.0 <= xs[i]
    ensures Sum(xs) == 0.0 <==> forall i :: 0 <= i < |xs| ==> xs[i] == 0.0
  {
    if xs != [] {
      var init := xs[..|xs| - 1];
      assert forall i :: 0 <= i < |init| ==> init[i] == xs[i];
      SumZero(init);
      SumWithin(init, 0.0, Max(xs));
    }
  }

  lemma MeanZero(xs: seq<real>)
    requires forall i :: 0 <= i < |xs| ==> 0.0 <= xs[i]
    ensures Mean(xs) == 0.0 <==> forall i :: 0 <= i < |xs| ==> xs[i] == 0.0
  {
    SumZero(xs);
  }

  /** The two reference values: `mean([]) == 0` and `mean([10, 20]) == 15`. */
  lemma MeanExamples()
    ensures Mean([]) == 0.0
    ensures Mean([10.0, 20.0]) == 15.0
  {
    assert [10.0, 20.0][..1] == [10.0];
    assert [10.0][..0] == [];
  }
}
