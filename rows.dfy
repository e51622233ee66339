/** The record type and the construction of records from the cells of one
    input line. Reading the file and splitting it into cells is not part of
    this model: a line arrives as the map from column name to cell text that
    the CSV reader produces. */
module Rows {
  import opened Fields

  /** One post of the dataset, immutable once loaded. */
  datatype Row = Row(
    nicheCategory: string,
    hookStyle: string,
    trendingSoundUsed: int,
    videoDurationSeconds: real,
    views: int,
    likes: int,
    comments: int,
    shares: int,
    savesOrFavorites: int
  )

  /** The column names of the dataset. */
  const NicheColumn: string := "niche_category"
  const HookColumn: string := "hook_style"
  const TrendingColumn: string := "trending_sound_used"
  const DurationColumn: string := "video_duration_seconds"
  const ViewsColumn: string := "views"
  const LikesColumn: string := "likes"
  const CommentsColumn: string := "comments"
  const SharesColumn: string := "shares"
  const SavesColumn: string := "saves_or_favorites"

  /** `r.get(name) or default`: a missing or empty cell reads as `default`. */
  function Cell(fields: map<string, string>, name: string, default: string): (v: string)
    ensures name !in fields || fields[name] == "" ==> v == default
    ensures name in fields && fields[name] != "" ==> v == fields[name]
  {
    if name in fields && fields[name] != "" then fields[name] else default
  }

  function IntCell(fields: map<string, string>, name: string, parse: string -> Option<real>): Option<int> {
    ToInt(Cell(fields, name, "0"), parse)
  }

  /** Every numeric cell of the line is blank or a number. */
  predicate Loadable(fields: map<string, string>, parse: string -> Option<real>) {
    && IntCell(fields, TrendingColumn, parse) != None
    && ToFloat(Cell(fields, DurationColumn, "0"), parse) != None
    && IntCell(fields, ViewsColumn, parse) != None
    && IntCell(fields, LikesColumn, parse) != None
    && IntCell(fields, CommentsColumn, parse) != None
    && IntCell(fields, SharesColumn, parse) != None
    && IntCell(fields, SavesColumn, parse) != None
  }

  /** `row` holds the stripped text cells and the coerced numeric cells of the line. */
  predicate Decodes(fields: map<string, string>, parse: string -> Option<real>, row: Row) {
    && row.nicheCategory == Strip(Cell(fields, NicheColumn, ""))
    && row.hookStyle == Strip(Cell(fields, HookColumn, ""))
    && IntCell(fields, TrendingColumn, parse) == Some(row.trendingSoundUsed)
    && ToFloat(Cell(fields, DurationColumn, "0"), parse) == Some(row.videoDurationSeconds)
    && IntCell(fields, ViewsColumn, parse) == Some(row.views)
    && IntCell(fields, LikesColumn, parse) == Some(row.likes)
    && IntCell(fields, CommentsColumn, parse) == Some(row.comments)
    && IntCell(fields, SharesColumn, parse) == Some(row.shares)
    && IntCell(fields, SavesColumn, parse) == Some(row.savesOrFavorites)
  }

  /** The `Row(...)` built for one line in `load_rows`: text cells are
      stripped, numeric cells coerced; if any numeric cell is not a number
      the whole load fails (`None`). */
  function RowFromFields(fields: map<string, string>, parse: string -> Option<real>): (r: Option<Row>)
    ensures r != None <==> Loadable(fields, parse)
    ensures r != None ==> Decodes(fields, parse, r.value)
    ensures r != None ==> Trimmed(r.value.nicheCategory) && Trimmed(r.value.hookStyle)
  {
    var trending := IntCell(fields, TrendingColumn, parse);
    var duration := ToFloat(Cell(fields, DurationColumn, "0"), parse);
    var views := IntCell(fields, ViewsColumn, parse);
    var likes := IntCell(fields, LikesColumn, parse);
    var comments := IntCell(fields, CommentsColumn, parse);
    var shares := IntCell(fields, SharesColumn, parse);
    var saves := IntCell(fields, SavesColumn, parse);
    if trending != None && duration != None && views != None && likes != None
       && comments != None && shares != None && saves != None
    then
      Some(Row(Strip(Cell(fields, NicheColumn, "")), Strip(Cell(fields, HookColumn, "")),
               trending.value, duration.value, views.value, likes.value, comments.value,
               shares.value, saves.value))
    else
      None
  }

  /** A missing, empty or whitespace-only numeric cell reads as zero, given
      that the number grammar reads "0" as zero. */
  lemma BlankCellIsZero(fields: map<string, string>, name: string, parse: string -> Option<real>)
    requires parse("0") == Some(0.0)
    requires name !in fields || AllSpace(fields[name])
    ensures IntCell(fields, name, parse) == Some(0)
    ensures ToFloat(Cell(fields, name, "0"), parse) == Some(0.0)
  {
    var v := Cell(fields, name, "0");
    if v == "0" {
      StripUnique("0", 0, 1);
      assert Clean(v) == "0";
    } else {
      SpaceIsBlank(v);
    }
  }

  /** A line with none of the columns is the all-zero record with empty text. */
  lemma EmptyLineIsZeroRow(parse: string -> Option<real>)
    requires parse("0") == Some(0.0)
    ensures RowFromFields(map[], parse) == Some(Row("", "", 0, 0.0, 0, 0, 0, 0, 0))
  {
    var m: map<string, string> := map[];
    BlankCellIsZero(m, TrendingColumn, parse);
    BlankCellIsZero(m, DurationColumn, parse);
    BlankCellIsZero(m, ViewsColumn, parse);
    BlankCellIsZero(m, LikesColumn, parse);
    BlankCellIsZero(m, CommentsColumn, parse);
    BlankCellIsZero(m, SharesColumn, parse);
    BlankCellIsZero(m, SavesColumn, parse);
    StripUnique("", 0, 0);
  }

  /** The row loop of `load_rows`: every line becomes a row, in input order;
      the first line that does not decode aborts the whole load. */
  method CollectRows(lines: seq<map<string, string>>, decode: map<string, string> -> Option<Row>)
      returns (rows: Option<seq<Row>>)
    ensures rows != None <==> forall i :: 0 <= i < |lines| ==> decode(lines[i]) != None
    ensures rows != None ==>
              |rows.value| == |lines|
              && forall i :: 0 <= i < |lines| ==> Some(rows.value[i]) == decode(lines[i])
  {
    var acc: seq<Row> := [];
    for i := 0 to |lines|
      invariant |acc| == i
      invariant forall k :: 0 <= k < i ==> decode(lines[k]) == Some(acc[k])
    {
      var row := decode(lines[i]);
      if row == None {
        return None;
      }
      acc := acc + [row.value];
    }
    rows := Some(acc);
  }

  /** `load_rows` after the file has been split into lines of cells. */
  method LoadRows(lines: seq<map<string, string>>, parse: string -> Option<real>)
      returns (rows: Option<seq<Row>>)
    ensures rows != None <==> forall i :: 0 <= i < |lines| ==> Loadable(lines[i], parse)
    ensures rows != None ==>
              |rows.value| == |lines|
              && forall i :: 0 <= i < |lines| ==> Decodes(lines[i], parse, rows.value[i])
  {
    rows := CollectRows(lines, fields => RowFromFields(fields, parse));
  }
}
