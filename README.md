# Summary tables of the TikTok travel-visa dataset

`notebook/reproduce_figures.py` reads a CSV of TikTok posts. It turns each
line into a `Row` record, cleaning the text cells and coercing the numeric
cells. It then computes five summary tables:

- the hook-style distribution: a count and a percentage per hook style;
- the mean engagement rate per hook style, with and without saves;
- performance by video-duration band, always five bands in a fixed order;
- the mean engagement rate per niche category;
- views with and without a trending sound, and the relative lift between them.

This Dafny project models that pipeline from the cells of each line up to
the cell values of the five tables. It proves what each step promises.

Module layout, one file each:

- `Fields` (`fields.dfy`): Python's `str.strip` and the removal of thousands
  separators. It also holds the blank-to-zero coercion of `_to_int` and
  `_to_float`.
- `Rows` (`rows.dfy`): the `Row` record. It builds one record from the
  cells of a line and runs the row loop of `load_rows`.
- `Metrics` (`metrics.dfy`): the two engagement rates, the duration bands,
  and `mean`.
- `Ordering` (`ordering.dfy`): Python's `<` on `str`, and `sorted()` over a
  set of keys.
- `Grouping` (`grouping.dfy`): `grouped_counts` and `grouped_means` as loop
  methods over a `map`. Beside them sit the functions over the row sequence
  that specify them: `KeysOf`, `Count` and `Bucket`.
- `Tables` (`tables.dfy`): the five tables built in `main`.

How the model represents the source:

- Python `float` values are Dafny `real`. Every rate, mean, percentage and
  lift is therefore exact.
- Python `int` values are unbounded `int`, as in Python.
- A table cell holds the value the source passes to `round`.
- The number grammar of Python's `float(s)` is a parameter
  `parse: string -> Option<real>`. `None` stands for the `ValueError` that
  Python raises. A load that meets such a cell fails as a whole, as the
  source does, because that exception is not caught there.
- `int(float(s))` truncates toward zero. Dafny's `Floor` on reals is used
  for that, so truncation of a negative value is written out explicitly.

The lift falls back to 0 whenever `avg_non` is 0. That covers an empty
non-trending partition and one whose rows all have 0 views.
`Tables.LiftGuard` characterises exactly when this happens.

## Data model

- `Rows.Row` (notebook/reproduce_figures.py:18-28): the record of one post,
  with the same nine fields; `video_duration_seconds` is a `real`, the
  others `int` or `string`.
- The nine column names are the constants `Rows.NicheColumn` through
  `Rows.SavesColumn` (notebook/reproduce_figures.py:52-60).
- `Metrics.Band` (notebook/reproduce_figures.py:78-87): the five duration
  bands, one constructor each; `Metrics.Label` gives each its label string.
- `Metrics.BandOrder` (notebook/reproduce_figures.py:162): the bands in the
  order of `band_order`.

## Model

| member | source | states |
|---|---|---|
| Fields.IsSpace | notebook/reproduce_figures.py:32 | defines the whitespace `strip()` removes: exactly the code points for which Python's `str.isspace` holds |
| Fields.Strip | notebook/reproduce_figures.py:32 | `strip()` yields a slice of the input with only whitespace before and after it and no whitespace at either end |
| Fields.StripUnique | notebook/reproduce_figures.py:32 | any slice with those properties is the stripped text, so `strip()` is fully determined |
| Fields.RemoveCommas | notebook/reproduce_figures.py:32 | `replace(",", "")` leaves no comma, keeps every other character's count, and is the identity on comma-free text |
| Fields.RemoveCommasAppend | notebook/reproduce_figures.py:32 | removing commas distributes over concatenation, so the surviving characters keep their order |
| Fields.Clean | notebook/reproduce_figures.py:32 | the cleaned cell contains no comma |
| Fields.CleanBlank | notebook/reproduce_figures.py:32-33 | a cell is blank after cleaning exactly when its stripped text consists of commas only |
| Fields.OnlyCommas | notebook/reproduce_figures.py:32 | removing commas empties a text exactly when every character is a comma |
| Fields.SpaceIsBlank | notebook/reproduce_figures.py:32-34 | a whitespace-only cell is blank |
| Fields.Truncate | notebook/reproduce_figures.py:35 | `int()` on a float truncates toward zero: the result lies within 1 of the value, on the zero side |
| Fields.ToInt | notebook/reproduce_figures.py:31-35 | `_to_int`: a blank cell gives 0; it fails exactly when the cell is not blank and the parse fails; otherwise it gives the truncation of the parsed value |
| Fields.ToFloat | notebook/reproduce_figures.py:38-42 | `_to_float`: a blank cell gives 0.0; otherwise it gives the parse of the cleaned text |
| Rows.Cell | notebook/reproduce_figures.py:52-60 | `r.get(name) or default`: a missing or empty cell reads as the default, any other cell as itself |
| Rows.IntCell | notebook/reproduce_figures.py:54-60 | defines `_to_int(r.get(name) or "0")`, the reading of each integer column |
| Rows.RowFromFields | notebook/reproduce_figures.py:50-61 | a record is built exactly when all seven numeric cells coerce; it then holds the stripped text cells and the coerced numbers, and its text fields are trimmed |
| Rows.BlankCellIsZero | notebook/reproduce_figures.py:54-60 | a missing or whitespace-only numeric cell reads as 0, given that "0" parses as zero |
| Rows.EmptyLineIsZeroRow | notebook/reproduce_figures.py:50-61 | a line with no columns becomes the all-zero record with empty text |
| Rows.CollectRows | notebook/reproduce_figures.py:48-63 | the row loop yields one record per line, in line order, and fails exactly when some line does not decode |
| Rows.LoadRows | notebook/reproduce_figures.py:45-63 | `load_rows` on split lines succeeds exactly when every line is loadable; record i then decodes line i |
| Metrics.ErWithSaves | notebook/reproduce_figures.py:66-69 | 0 without views; otherwise the rate times the views equals likes + comments + shares + saves |
| Metrics.ErNoSaves | notebook/reproduce_figures.py:72-75 | 0 without views; otherwise the rate times the views equals likes + comments + shares |
| Metrics.SavesAddToRate | notebook/reproduce_figures.py:66-75 | the two rates differ by exactly saves/views (0 without views), so with non-negative saves the rate without saves is not larger |
| Metrics.RatesNonNegative | notebook/reproduce_figures.py:66-75 | with non-negative counts, 0 <= rate without saves <= rate with saves |
| Metrics.Label | notebook/reproduce_figures.py:78-87 | defines the label string of each band: `under_15`, `15_30`, `30_45`, `45_60`, `over_60` |
| Metrics.DurationBand | notebook/reproduce_figures.py:78-87 | every duration lands in the band whose interval holds it: under 15, [15,30), [30,45], (45,60], over 60 |
| Metrics.BandIsUnique | notebook/reproduce_figures.py:78-87 | the intervals do not overlap: a duration in a band's interval is classified into that band |
| Metrics.BandBoundaries | notebook/reproduce_figures.py:78-87 | the boundary values: 15 goes to 15_30, 30 and 45 go to 30_45, 60 goes to 45_60 |
| Metrics.BandOrderComplete | notebook/reproduce_figures.py:162 | the band order lists every band, and the five labels are distinct |
| Metrics.Sum | notebook/reproduce_figures.py:94 | defines `sum(vals)`, adding from the left; `SumWithin`, `SumMonotone` and `SumZero` state its properties |
| Metrics.Mean | notebook/reproduce_figures.py:90-94 | `mean` is 0 on no values; otherwise the mean times the count is the sum |
| Metrics.SumWithin | notebook/reproduce_figures.py:94 | bounds on every value bound the sum by count times each bound |
| Metrics.MeanWithin | notebook/reproduce_figures.py:90-94 | bounds on every value of a non-empty list bound its mean |
| Metrics.MeanBetweenMinAndMax | notebook/reproduce_figures.py:90-94 | the mean of a non-empty list lies between its minimum and its maximum |
| Metrics.SumMonotone | notebook/reproduce_figures.py:94 | pointwise smaller values give a smaller sum |
| Metrics.MeanMonotone | notebook/reproduce_figures.py:90-94 | pointwise smaller values give a smaller mean |
| Metrics.SumZero | notebook/reproduce_figures.py:94 | non-negative values sum to 0 exactly when all are 0 |
| Metrics.MeanZero | notebook/reproduce_figures.py:90-94 | non-negative values have mean 0 exactly when all are 0 |
| Metrics.MeanExamples | notebook/reproduce_figures.py:90-94 | `mean([]) == 0` and `mean([10, 20]) == 15` |
| Ordering.Below | notebook/reproduce_figures.py:147 | defines Python's `<` on `str`, which decides the order of `sorted` here and at lines 154 and 178: code point by code point, a proper prefix first |
| Ordering.BelowIrreflexive | notebook/reproduce_figures.py:147 | no string sorts before itself |
| Ordering.BelowTransitive | notebook/reproduce_figures.py:147 | string order is transitive |
| Ordering.BelowTotal | notebook/reproduce_figures.py:147 | of two different strings, one sorts before the other |
| Ordering.AscendingDistinct | notebook/reproduce_figures.py:147 | a strictly ascending key list has no duplicates |
| Ordering.LeastExists | notebook/reproduce_figures.py:147 | every non-empty key set has a least key |
| Ordering.SortedKeys | notebook/reproduce_figures.py:147 | `sorted(keys)` lists exactly the keys of the set, each once, in strictly ascending order |
| Grouping.KeysOf | notebook/reproduce_figures.py:97-101 | every row's key is among the keys of the rows |
| Grouping.KeyHasRow | notebook/reproduce_figures.py:97-101 | every key among the keys of the rows is the key of some row |
| Grouping.Count | notebook/reproduce_figures.py:97-101 | a group never counts more rows than there are |
| Grouping.Bucket | notebook/reproduce_figures.py:104-108 | a group's bucket never holds more values than there are rows |
| Grouping.KeyCountPositive | notebook/reproduce_figures.py:97-101 | a key occurs among the rows exactly when its count is at least 1 |
| Grouping.BucketSize | notebook/reproduce_figures.py:104-108 | a group's bucket holds one value per row of the group |
| Grouping.BucketAppend | notebook/reproduce_figures.py:104-108 | the bucket of concatenated rows is the concatenation of the buckets, so buckets keep row order |
| Grouping.CountSplit | notebook/reproduce_figures.py:97-101 | the count over a disjoint union of key sets is the sum of the counts |
| Grouping.CountCovering | notebook/reproduce_figures.py:97-101 | counting over a set that holds every key counts every row |
| Grouping.CountNone | notebook/reproduce_figures.py:97-101 | no row has a key in the empty set |
| Grouping.CountsTotal | notebook/reproduce_figures.py:97-101 | per-key counts listed once per key add up to the count of all those keys together |
| Grouping.CountsSumToRows | notebook/reproduce_figures.py:97-101 | per-key counts that cover every key once add up to the number of rows |
| Grouping.GroupedCounts | notebook/reproduce_figures.py:97-101 | `grouped_counts`: the keys are exactly the keys of the rows, and each count is the number of rows with that key, at least 1 |
| Grouping.GroupedMeans | notebook/reproduce_figures.py:104-108 | `grouped_means`: the same key set as `grouped_counts`, and each value is the mean of that group's values in row order |
| Grouping.AbsentKey | notebook/reproduce_figures.py:168-171 | a key no row has gets count 0 and mean 0, which is what the `.get(k, 0)` defaults produce |
| Grouping.BucketMonotone | notebook/reproduce_figures.py:104-108 | pointwise smaller value functions give buckets of equal size with pointwise smaller values |
| Grouping.GroupRatesOrdered | notebook/reproduce_figures.py:151-152 | with non-negative saves, every group's mean rate without saves is at most its mean rate with saves |
| Tables.HookKey | notebook/reproduce_figures.py:145 | defines the key `lambda r: r.hook_style` |
| Tables.CategoryKey | notebook/reproduce_figures.py:175-176 | defines the key `lambda r: r.niche_category` |
| Tables.BandKey | notebook/reproduce_figures.py:157-160 | defines the key `lambda r: duration_band(r.video_duration_seconds)` |
| Tables.ViewsOf | notebook/reproduce_figures.py:158 | defines the value `lambda r: float(r.views)` |
| Tables.HookLines | notebook/reproduce_figures.py:146-149 | the hook line loop gives one line per key, in key order, with the key's count and its count over n times 100 |
| Tables.HookDistribution | notebook/reproduce_figures.py:143-149 | hook styles strictly ascending and exactly those of the rows; each count is its group's size (at least 1) and each percent is count/n*100; the table is empty exactly when there are no rows, so no division by zero happens; the counts add up to n |
| Tables.Get | notebook/reproduce_figures.py:155 | defines `d.get(k, 0.0)`: the value of `k` if present, otherwise 0 |
| Tables.EngagementLines | notebook/reproduce_figures.py:153-155 | one line per key, in key order, holding both dictionaries' values (default 0) times 100 |
| Tables.RatesOrdered | notebook/reproduce_figures.py:151-155 | with non-negative saves, a line's rate without saves is at most its rate with saves |
| Tables.EngagementTable | notebook/reproduce_figures.py:151-155 | keys are the union of both dictionaries' keys, which is the set of the rows' keys, in strictly ascending order; each line holds its group's two mean rates in percent |
| Tables.EngagementByHook | notebook/reproduce_figures.py:151-155 | the engagement table keyed by hook style |
| Tables.CategoryEngagement | notebook/reproduce_figures.py:175-179 | the engagement table keyed by niche category |
| Tables.GetCount | notebook/reproduce_figures.py:168 | defines `band_counts.get(b, 0)`: the count of `b` if present, otherwise 0 |
| Tables.BandLines | notebook/reproduce_figures.py:163-173 | one line per band label, in the order given, reading the four dictionaries with default 0 |
| Tables.EmptyBandIsZero | notebook/reproduce_figures.py:168-171 | a band with no rows reads 0 in every column |
| Tables.BandStatsLines | notebook/reproduce_figures.py:157-173 | each line holds its band's count, mean views and mean rates in percent |
| Tables.DurationPerformance | notebook/reproduce_figures.py:157-173 | exactly five lines, in band order, each with its band's statistics; an empty band reads 0 throughout; the counts add up to n |
| Tables.BandLabels | notebook/reproduce_figures.py:162 | the list of band labels has one entry per band |
| Tables.BandLabelsCover | notebook/reproduce_figures.py:162-164 | the band labels are distinct, and every row's band label is one of them |
| Tables.ViewsWithFlag | notebook/reproduce_figures.py:181-182 | the filtered view list is no longer than the rows |
| Tables.AsReals | notebook/reproduce_figures.py:183-184 | `[float(v) for v in vs]` keeps length and values |
| Tables.PartitionSizes | notebook/reproduce_figures.py:181-182 | trending, non-trending and other-flag rows together are all rows; no row is dropped exactly when every flag is 0 or 1 |
| Tables.TrendingSoundLift | notebook/reproduce_figures.py:181-190 | the two partition sizes add up to at most n; each average is the mean of its partition's views; the lift is 0 when the non-trending mean is 0, otherwise (avg_trend/avg_non - 1)*100 |
| Tables.ViewsNonNegative | notebook/reproduce_figures.py:181-182 | with non-negative views the filtered views are non-negative |
| Tables.NonTrendViewsZero | notebook/reproduce_figures.py:182 | the non-trending views are all 0 exactly when every row with flag 0 has 0 views |
| Tables.LiftGuard | notebook/reproduce_figures.py:184-185 | with non-negative views, the lift guard fires exactly when no non-trending row has a view, which includes the case of no such row |
| Tables.TwoPostExample | notebook/reproduce_figures.py:145-190 | two posts with 100 trending and 200 non-trending views give lift -50 percent; each hook style counts one row, 50 percent; a post with 20 interactions on 100 views has rate 0.2 |

## Left out

- Reading the CSV file (`open`, `csv.DictReader`): this is I/O and library parsing. A line enters the model as the map from column name to cell text that the reader yields. A column the reader leaves unfilled is a missing key.
- Python's float grammar: `float(s)` is the parameter `parse`. Its `ValueError` is `None`, and the whole load then fails.
- NaN, infinities and the `OverflowError` of `int(float("inf"))`: reals have none of them, so every parsed value is finite.
- Float rounding error: all arithmetic is over exact reals.
- `round(x, 2)` and `round(x, 0)` (round half to even on binary floats): each table cell holds the value before rounding.
- `write_csv`, `write_xlsx`, openpyxl and the `Workbook is None` fallback, `os.makedirs` and the progress printing in `main`: these are I/O and foreign library calls.
- `(value or "")` in `_to_int` / `_to_float`: cells are strings here and never `None`. Every caller in the source passes `... or "0"`, which `Rows.Cell` models.
- The layout of the trending table's three output lines, such as its label strings and the empty count cell of the lift line: `Tables.TrendingSoundLift` returns the five numbers those lines hold.
