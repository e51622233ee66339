/** The five summary tables `main` assembles. Every cell holds the value
    the source hands to `round`; the rounding itself is not modelled. */
module Tables {
  import opened Rows
  import opened Metrics
  import opened Ordering
  import opened Grouping

  function HookKey(r: Row): string { r.hookStyle }
  function CategoryKey(r: Row): string { r.nicheCategory }
  function BandKey(r: Row): string { Label(DurationBand(r.videoDurationSeconds)) }
  function ViewsOf(r: Row): real { r.views as real }

  // ---------------------------------------------------------------- hook distribution

  datatype HookShare = HookShare(hookStyle: string, count: int, percent: real)

  function HookStyles(t: seq<HookShare>): seq<string> {
    seq(|t|, i requires 0 <= i < |t| => t[i].hookStyle)
  }

  function HookCounts(t: seq<HookShare>): seq<int> {
    seq(|t|, i requires 0 <= i < |t| => t[i].count)
  }

  /** The line loop of the hook distribution: one line per key, in the order
      given, with its count and its share of `n` rows in percent. */
  method HookLines(keys: seq<string>, counts: map<string, int>, n: int) returns (table: seq<HookShare>)
    requires n != 0 || keys == []
    requires forall k :: k in keys ==> k in counts
    ensures |table| == |keys| && HookStyles(table) == keys
    ensures forall i :: 0 <= i < |keys| ==>
              table[i] == HookShare(keys[i], counts[keys[i]], counts[keys[i]] as real / n as real * 100.0)
  {
    table := [];
    for j := 0 to |keys|
      invariant |table| == j
      invariant forall i :: 0 <= i < j ==>
                  table[i] == HookShare(keys[i], counts[keys[i]], counts[keys[i]] as real / n as real * 100.0)
    {
      var k := keys[j];
      var c := counts[k];
      table := table + [HookShare(k, c, c as real / n as real * 100.0)];
    }
    assert HookStyles(table) == keys;
  }

  /** Hook distribution: one line per hook style in ascending order, with
      the number of rows of that style and its share of all rows in percent.
      No division happens without rows, because there are no lines then. */
  method HookDistribution(rows: seq<Row>) returns (table: seq<HookShare>)
    ensures Ascending(HookStyles(table))
    ensures forall k :: k in HookStyles(table) <==> k in KeysOf(rows, HookKey)
    ensures rows == [] <==> table == []
    ensures forall i :: 0 <= i < |table| ==>
              && |rows| > 0
              && table[i].count == Count(rows, HookKey, {table[i].hookStyle})
              && table[i].count >= 1
              && table[i].percent == table[i].count as real / |rows| as real * 100.0
    ensures Total(HookCounts(table)) == |rows|
  {
    var counts := GroupedCounts(rows, HookKey);
    var keys := SortedKeys(counts.Keys);
    if rows != [] {
      assert HookKey(rows[0]) in keys;
    }
    table := HookLines(keys, counts, |rows|);
    forall i | 0 <= i < |table|
      ensures table[i].count == Count(rows, HookKey, {table[i].hookStyle}) && table[i].count >= 1
    {
      assert keys[i] in keys;
      assert table[i].hookStyle == keys[i];
    }
    AscendingDistinct(keys);
    CountsSumToRows(rows, HookKey, keys, HookCounts(table));
  }

  // ---------------------------------------------------------------- engagement by key

  datatype EngagementLine = EngagementLine(key: string, erNoSavesPercent: real, erWithSavesPercent: real)

  function EngagementKeys(t: seq<EngagementLine>): seq<string> {
    seq(|t|, i requires 0 <= i < |t| => t[i].key)
  }

  /** `d.get(k, 0.0)`. */
  function Get(d: map<string, real>, k: string): real {
    if k in d then d[k] else 0.0
  }

  /** The line loop shared by the hook-engagement and category tables: one
      line per key, in the order given, each reading both dictionaries with
      default 0 and scaling to percent. */
  method EngagementLines(keys: seq<string>, no: map<string, real>, with: map<string, real>)
      returns (table: seq<EngagementLine>)
    ensures |table| == |keys| && EngagementKeys(table) == keys
    ensures forall i :: 0 <= i < |keys| ==>
              table[i] == EngagementLine(keys[i], Get(no, keys[i]) * 100.0, Get(with, keys[i]) * 100.0)
  {
    table := [];
    for j := 0 to |keys|
      invariant |table| == j
      invariant forall i :: 0 <= i < j ==>
                  table[i] == EngagementLine(keys[i], Get(no, keys[i]) * 100.0, Get(with, keys[i]) * 100.0)
    {
      var k := keys[j];
      table := table + [EngagementLine(k, Get(no, k) * 100.0, Get(with, k) * 100.0)];
    }
    assert EngagementKeys(table) == keys;
  }

  /** `line` holds its group's mean rates, as percentages. */
  predicate MeanRates(rows: seq<Row>, key: Row -> string, line: EngagementLine) {
    && line.erNoSavesPercent == Mean(Bucket(rows, key, ErNoSaves, line.key)) * 100.0
    && line.erWithSavesPercent == Mean(Bucket(rows, key, ErWithSaves, line.key)) * 100.0
  }

  /** With non-negative save counts a group's rate without saves is at most
      its rate with saves. */
  lemma RatesOrdered(rows: seq<Row>, key: Row -> string, line: EngagementLine)
    requires forall i :: 0 <= i < |rows| ==> rows[i].savesOrFavorites >= 0
    requires MeanRates(rows, key, line)
    ensures line.erNoSavesPercent <= line.erWithSavesPercent
  {
    GroupRatesOrdered(rows, key, line.key);
  }

  /** The shared shape of the hook-engagement and category tables: the union
      of the keys of the two mean dictionaries, ascending, with each group's
      mean rates in percent. */
  method EngagementTable(rows: seq<Row>, key: Row -> string) returns (table: seq<EngagementLine>)
    ensures Ascending(EngagementKeys(table))
    ensures forall k :: k in EngagementKeys(table) <==> k in KeysOf(rows, key)
    ensures forall i :: 0 <= i < |table| ==> MeanRates(rows, key, table[i])
  {
    var no := GroupedMeans(rows, key, ErNoSaves);
    var with := GroupedMeans(rows, key, ErWithSaves);
    var keys := SortedKeys(no.Keys + with.Keys);
    table := EngagementLines(keys, no, with);
    forall i | 0 <= i < |table| ensures MeanRates(rows, key, table[i]) {
      var k := keys[i];
      assert k in keys;
      assert k in no && k in with;
      assert table[i].key == k;
      assert table[i].erNoSavesPercent == no[k] * 100.0;
      assert table[i].erWithSavesPercent == with[k] * 100.0;
    }
  }

  /** Engagement by hook style. */
  method EngagementByHook(rows: seq<Row>) returns (table: seq<EngagementLine>)
    ensures Ascending(EngagementKeys(table))
    ensures forall k :: k in EngagementKeys(table) <==> k in KeysOf(rows, HookKey)
    ensures forall i :: 0 <= i < |table| ==> MeanRates(rows, HookKey, table[i])
  {
    table := EngagementTable(rows, HookKey);
  }

  /** Engagement by niche category. */
  method CategoryEngagement(rows: seq<Row>) returns (table: seq<EngagementLine>)
    ensures Ascending(EngagementKeys(table))
    ensures forall k :: k in EngagementKeys(table) <==> k in KeysOf(rows, CategoryKey)
    ensures forall i :: 0 <= i < |table| ==> MeanRates(rows, CategoryKey, table[i])
  {
    table := EngagementTable(rows, CategoryKey);
  }

  // ---------------------------------------------------------------- duration bands

  datatype BandLine = BandLine(band: string, count: int, avgViews: real, erNoSavesPercent: real, erWithSavesPercent: real)

  function BandCounts(t: seq<BandLine>): seq<int> {
    seq(|t|, i requires 0 <= i < |t| => t[i].count)
  }

  /** `d.get(k, 0)`. */
  function GetCount(d: map<string, int>, k: string): int {
    if k in d then d[k] else 0
  }

  /** The line loop of the duration table: one line per band label in the
      order given, each reading the four dictionaries with default 0. */
  method BandLines(labels: seq<string>, counts: map<string, int>, views: map<string, real>,
                   no: map<string, real>, with: map<string, real>) returns (table: seq<BandLine>)
    ensures |table| == |labels|
    ensures forall i :: 0 <= i < |labels| ==>
              var b := labels[i];
              table[i] == BandLine(b, GetCount(counts, b), Get(views, b), Get(no, b) * 100.0, Get(with, b) * 100.0)
  {
    table := [];
    for j := 0 to |labels|
      invariant |table| == j
      invariant forall i :: 0 <= i < j ==>
                  var b := labels[i];
                  table[i] == BandLine(b, GetCount(counts, b), Get(views, b), Get(no, b) * 100.0, Get(with, b) * 100.0)
    {
      var b := labels[j];
      table := table + [BandLine(b, GetCount(counts, b), Get(views, b), Get(no, b) * 100.0, Get(with, b) * 100.0)];
    }
  }

  /** `line` holds the statistics of the rows in band `b`. */
  predicate BandStats(rows: seq<Row>, b: string, line: BandLine) {
    && line.band == b
    && line.count == Count(rows, BandKey, {b})
    && line.avgViews == Mean(Bucket(rows, BandKey, ViewsOf, b))
    && line.erNoSavesPercent == Mean(Bucket(rows, BandKey, ErNoSaves, b)) * 100.0
    && line.erWithSavesPercent == Mean(Bucket(rows, BandKey, ErWithSaves, b)) * 100.0
  }

  /** A band without rows reads 0 in every column. */
  lemma EmptyBandIsZero(rows: seq<Row>, b: string, line: BandLine)
    requires BandStats(rows, b, line) && line.count == 0
    ensures line.avgViews == 0.0 && line.erNoSavesPercent == 0.0 && line.erWithSavesPercent == 0.0
  {
    KeyCountPositive(rows, BandKey, b);
    AbsentKey(rows, BandKey, ViewsOf, b);
    AbsentKey(rows, BandKey, ErNoSaves, b);
    AbsentKey(rows, BandKey, ErWithSaves, b);
  }

  /** The four grouped dictionaries keyed by band label (count, mean views
      and the two mean rates), then the loop reading them for each label. */
  method BandStatsLines(rows: seq<Row>, labels: seq<string>) returns (table: seq<BandLine>)
    ensures |table| == |labels|
    ensures forall i :: 0 <= i < |labels| ==> BandStats(rows, labels[i], table[i])
  {
    var counts := GroupedCounts(rows, BandKey);
    var views := GroupedMeans(rows, BandKey, ViewsOf);
    var no := GroupedMeans(rows, BandKey, ErNoSaves);
    var with := GroupedMeans(rows, BandKey, ErWithSaves);
    table := BandLines(labels, counts, views, no, with);
    forall i | 0 <= i < |table| ensures BandStats(rows, labels[i], table[i]) {
      var b := labels[i];
      if b !in counts {
        AbsentKey(rows, BandKey, ViewsOf, b);
        AbsentKey(rows, BandKey, ErNoSaves, b);
        AbsentKey(rows, BandKey, ErWithSaves, b);
      }
    }
  }

  /** Duration-band performance: always the five bands in canonical order,
      a band without rows reading 0 everywhere, the counts adding up to the
      number of rows. */
  method DurationPerformance(rows: seq<Row>) returns (table: seq<BandLine>)
    ensures |table| == |BandOrder|
    ensures forall i :: 0 <= i < |table| ==> BandStats(rows, Label(BandOrder[i]), table[i])
    ensures forall i :: 0 <= i < |table| && table[i].count == 0 ==>
              table[i].avgViews == 0.0 && table[i].erNoSavesPercent == 0.0 && table[i].erWithSavesPercent == 0.0
    ensures Total(BandCounts(table)) == |rows|
  {
    var labels := BandLabels();
    table := BandStatsLines(rows, labels);
    forall i | 0 <= i < |table| && table[i].count == 0
      ensures table[i].avgViews == 0.0 && table[i].erNoSavesPercent == 0.0 && table[i].erWithSavesPercent == 0.0
    {
      EmptyBandIsZero(rows, labels[i], table[i]);
    }
    BandLabelsCover(rows);
    CountsSumToRows(rows, BandKey, labels, BandCounts(table));
  }

  function BandLabels(): (ls: seq<string>)
    ensures |ls| == |BandOrder|
  {
    seq(|BandOrder|, i requires 0 <= i < |BandOrder| => Label(BandOrder[i]))
  }

  /** The band labels are distinct and every row's band label is one of them. */
  lemma BandLabelsCover(rows: seq<Row>)
    ensures forall i, j :: 0 <= i < j < |BandLabels()| ==> BandLabels()[i] != BandLabels()[j]
    ensures forall k :: k in KeysOf(rows, BandKey) ==> k in BandLabels()
  {
    BandOrderComplete(Under15);
    forall k | k in KeysOf(rows, BandKey) ensures k in BandLabels() {
      KeyHasRow(rows, BandKey, k);
      var i :| 0 <= i < |rows| && BandKey(rows[i]) == k;
      var b := DurationBand(rows[i].videoDurationSeconds);
      BandOrderComplete(b);
      var j :| 0 <= j < |BandOrder| && BandOrder[j] == b;
      assert BandLabels()[j] == k;
    }
  }

  // ---------------------------------------------------------------- trending sound

  /** `[r.views for r in rows if r.trending_sound_used == flag]`. */
  function ViewsWithFlag(rows: seq<Row>, flag: int): (vs: seq<int>)
    ensures |vs| <= |rows|
  {
    if rows == [] then []
    else
      var last := rows[|rows| - 1];
      ViewsWithFlag(rows[..|rows| - 1], flag) + (if last.trendingSoundUsed == flag then [last.views] else [])
  }

  function AsReals(vs: seq<int>): (xs: seq<real>)
    ensures |xs| == |vs| && forall i :: 0 <= i < |vs| ==> xs[i] == vs[i] as real
  {
    seq(|vs|, i requires 0 <= i < |vs| => vs[i] as real)
  }

  /** The rows whose flag is neither 0 nor 1. */
  function Unflagged(rows: seq<Row>): nat {
    if rows == [] then 0
    else
      var f := rows[|rows| - 1].trendingSoundUsed;
      Unflagged(rows[..|rows| - 1]) + (if f != 0 && f != 1 then 1 else 0)
  }

  /** Every row lands in the trending group, the non-trending group, or
      neither (a flag other than 0 and 1). */
  lemma {:induction false} PartitionSizes(rows: seq<Row>)
    ensures |ViewsWithFlag(rows, 1)| + |ViewsWithFlag(rows, 0)| + Unflagged(rows) == |rows|
    ensures Unflagged(rows) == 0 <==> forall i :: 0 <= i < |rows| ==> rows[i].trendingSoundUsed in {0, 1}
  {
    if rows != [] {
      var n := |rows| - 1;
      PartitionSizes(rows[..n]);
      assert forall i :: 0 <= i < n ==> rows[..n][i] == rows[i];
    }
  }

  datatype TrendingLift = TrendingLift(
    trendCount: int, trendAvgViews: real,
    nonTrendCount: int, nonTrendAvgViews: real,
    liftPercent: real)

  /** Trending-sound lift: count and mean views of each partition and the
      relative difference of the means, 0 when the non-trending mean is 0. */
  function TrendingSoundLift(rows: seq<Row>): (t: TrendingLift)
    ensures t.trendCount + t.nonTrendCount <= |rows|
    ensures t.trendCount == |ViewsWithFlag(rows, 1)| && t.nonTrendCount == |ViewsWithFlag(rows, 0)|
    ensures t.trendAvgViews == Mean(AsReals(ViewsWithFlag(rows, 1)))
    ensures t.nonTrendAvgViews == Mean(AsReals(ViewsWithFlag(rows, 0)))
    ensures t.nonTrendAvgViews == 0.0 ==> t.liftPercent == 0.0
    ensures t.nonTrendAvgViews != 0.0 ==> t.liftPercent == (t.trendAvgViews / t.nonTrendAvgViews - 1.0) * 100.0
  {
    PartitionSizes(rows);
    var trend := ViewsWithFlag(rows, 1);
    var nontrend := ViewsWithFlag(rows, 0);
    var avgTrend := Mean(AsReals(trend));
    var avgNon := Mean(AsReals(nontrend));
    var lift := if avgNon != 0.0 then (avgTrend / avgNon - 1.0) * 100.0 else 0.0;
    TrendingLift(|trend|, avgTrend, |nontrend|, avgNon, lift)
  }

  /** With non-negative view counts the lift falls back to 0 exactly when no
      non-trending row has a view, which includes there being no such row. */
  lemma LiftGuard(rows: seq<Row>)
    requires forall i :: 0 <= i < |rows| ==> rows[i].views >= 0
    ensures TrendingSoundLift(rows).nonTrendAvgViews == 0.0 <==> FlagZeroRowsUnviewed(rows)
  {
    var vs := ViewsWithFlag(rows, 0);
    var xs := AsReals(vs);
    assert TrendingSoundLift(rows).nonTrendAvgViews == Mean(xs);
    ViewsNonNegative(rows, 0);
    MeanZero(xs);
    assert forall i :: 0 <= i < |xs| ==> (xs[i] == 0.0 <==> vs[i] == 0);
    var allZero := forall i :: 0 <= i < |xs| ==> xs[i] == 0.0;
    assert allZero <==> NonTrendAllZero(rows);
    NonTrendViewsZero(rows);
    assert Mean(xs) == 0.0 <==> allZero;
  }

  lemma {:induction false} ViewsNonNegative(rows: seq<Row>, flag: int)
    requires forall i :: 0 <= i < |rows| ==> rows[i].views >= 0
    ensures forall j :: 0 <= j < |ViewsWithFlag(rows, flag)| ==> ViewsWithFlag(rows, flag)[j] >= 0
  {
    if rows != [] {
      var n := |rows| - 1;
      assert forall i :: 0 <= i < n ==> rows[..n][i] == rows[i];
      ViewsNonNegative(rows[..n], flag);
    }
  }

  /** Every view count of the non-trending partition is 0. */
  predicate NonTrendAllZero(rows: seq<Row>) {
    forall j :: 0 <= j < |ViewsWithFlag(rows, 0)| ==> ViewsWithFlag(rows, 0)[j] == 0
  }

  /** Every row with flag 0 has 0 views. */
  predicate FlagZeroRowsUnviewed(rows: seq<Row>) {
    forall i :: 0 <= i < |rows| && rows[i].trendingSoundUsed == 0 ==> rows[i].views == 0
  }

  lemma {:induction false} NonTrendViewsZero(rows: seq<Row>)
    ensures NonTrendAllZero(rows) <==> FlagZeroRowsUnviewed(rows)
  {
    if rows != [] {
      var n := |rows| - 1;
      var init, last := rows[..n], rows[n];
      NonTrendViewsZero(init);
      var front := ViewsWithFlag(init, 0);
      var all := ViewsWithFlag(rows, 0);
      assert all == front + (if last.trendingSoundUsed == 0 then [last.views] else []);
      if NonTrendAllZero(rows) {
        forall j | 0 <= j < |front| ensures front[j] == 0 {
          assert all[j] == front[j];
        }
        forall i | 0 <= i < |rows| && rows[i].trendingSoundUsed == 0 ensures rows[i].views == 0 {
          if i < n {
            assert init[i] == rows[i];
          } else {
            assert all[|front|] == last.views;
          }
        }
      } else {
        var j :| 0 <= j < |all| && all[j] != 0;
        if j < |front| {
          assert front[j] != 0;
          var i :| 0 <= i < |init| && init[i].trendingSoundUsed == 0 && init[i].views != 0;
          assert rows[i] == init[i];
        } else {
          assert rows[n].trendingSoundUsed == 0 && rows[n].views != 0;
        }
      }
    }
  }

  /** Two posts, one with a trending sound and 100 views and one without and
      with 200 views, give a lift of -50 percent; each of the two hook styles
      holds one of the two posts, 50 percent. */
  lemma TwoPostExample()
    ensures var a := Row("travel", "question", 1, 20.0, 100, 10, 5, 5, 0);
            var b := Row("travel", "story", 0, 50.0, 200, 0, 0, 0, 0);
            var t := TrendingSoundLift([a, b]);
            && t == TrendingLift(1, 100.0, 1, 200.0, -50.0)
            && Count([a, b], HookKey, {"question"}) == 1
            && Count([a, b], HookKey, {"story"}) == 1
            && Count([a, b], HookKey, {"question"}) as real / |[a, b]| as real * 100.0 == 50.0
            && ErNoSaves(a) == 0.2
  {
    var a := Row("travel", "question", 1, 20.0, 100, 10, 5, 5, 0);
    var b := Row("travel", "story", 0, 50.0, 200, 0, 0, 0, 0);
    assert [a, b][..1] == [a];
    assert [a][..0] == [];
    assert ViewsWithFlag([a, b], 1) == [100];
    assert ViewsWithFlag([a, b], 0) == [200];
    assert AsReals([100]) == [100.0];
    assert AsReals([200]) == [200.0];
    assert [100.0][..0] == [];
    assert [200.0][..0] == [];
    assert "question" != "story";
  }
}
