/** The sheet cursor of `build_from_toml`: the row and column where the next
    element of a sheet goes, and the elements placed at it (protective
    marking, sheet title, tables, charts, sheet footnotes). A1-cell parsing is
    the host's and is given as a `CellParser`. */
module Layout {
  import opened Common
  import opened Frames
  import opened Formats
  import opened Sources
  import opened Workbooks

  /** `xl_cell_to_rowcol`: an A1 reference to a zero-based (row, column). */
  type CellParser = string -> (int, int)

  /** A `[[sheets.tables]]` entry. A missing `start_cell` or `title` is "";
      a missing `column_widths` is the empty map; missing `table_notes` are
      the empty list. */
  datatype TableConfig = TableConfig(
    startCell: string,
    sources: Option<seq<Source>>,
    title: string,
    style: Option<string>,
    columnWidths: map<string, int>,
    notes: seq<string>)

  /** A `[[sheets.charts]]` entry. */
  datatype ChartConfig = ChartConfig(
    startCell: string,
    sources: Option<seq<Source>>,
    title: string,
    xScale: Option<real>,
    yScale: Option<real>,
    notes: seq<string>,
    notesStartCell: Option<string>)

  /** What every element of a build shares: the host, regex search, cell
      parsing, `cfg_formats`, the font sizes of the fixed formats, the default
      table style and `spacing_rows`. */
  datatype Context = Context(
    env: Env,
    search: Search,
    parse: CellParser,
    formats: FormatConfig,
    titleSize: int,
    subtitleSize: int,
    footnoteSize: int,
    tableStyle: string,
    spacing: int)

  const NoData: string := "(no data)"
  const DefaultSpan: int := 10
  const MarkingHeight: int := 24

  /** One row for a truthy title, none otherwise. */
  function TitleRows(title: string): nat {
    if Truthy(title) then 1 else 0
  }

  /** Where a table or chart goes: the parsed `start_cell` when it is truthy,
      the cursor otherwise. */
  function StartCell(startCell: string, row: int, col: int, parse: CellParser): (p: (int, int))
    ensures !Truthy(startCell) ==> p == (row, col)
    ensures Truthy(startCell) ==> p == parse(startCell)
  {
    if Truthy(startCell) then parse(startCell) else (row, col)
  }

  /** `cfg["source"][0]` */
  function FirstSource(sources: Option<seq<Source>>): (r: Result<Source>)
    ensures r.Ok? <==> sources.Some? && |sources.value| > 0
    ensures r.Ok? ==> r.value == sources.value[0]
    ensures sources.None? ==> r == Err(KeyError("source"))
    ensures sources == Some([]) ==> r.Err? && r.error.IndexError?
  {
    if sources.None? then Err(KeyError("source"))
    else if sources.value == [] then Err(IndexError("list index out of range"))
    else Ok(sources.value[0])
  }

  /** The `df is None or df.empty` probe on what `load_dataframe` returned:
      a dict of sheets has no `empty` attribute. */
  function Probe(loaded: Loaded): (r: Result<DataFrame>)
    ensures r.Ok? <==> loaded.OneFrame?
    ensures r.Ok? ==> r.value == loaded.frame
    ensures r.Err? ==> r.error == AttributeError("'dict' object has no attribute 'empty'")
  {
    match loaded
    case OneFrame(df) => Ok(df)
    case SheetDict(_) => Err(AttributeError("'dict' object has no attribute 'empty'"))
  }

  /** The DataFrame a table shows, or the exception loading or probing it
      raises. */
  function TableData(t: TableConfig, ctx: Context): Result<DataFrame> {
    var src :- FirstSource(t.sources);
    var loaded :- LoadDataFrame(src, ctx.env);
    Probe(loaded)
  }

  /** The exception `set_column_formats_and_widths` raises for the loaded
      frame `df` of table `t`: only a non-empty frame reaches it, and it
      raises at the first column whose width fails. */
  function WidthsError(t: TableConfig, df: DataFrame, ctx: Context): Option<Exception> {
    if !IsEmpty(df) && FailingColumn(df, NCols(df), ctx.formats, t.columnWidths, ctx.search).Some? then
      Some(AttributeError(NoNameMessage))
    else None
  }

  /** A table whose first source is an Excel file without `sheet` always
      fails: reading the file, or else probing the dict of sheets it
      returns. */
  lemma ExcelWithoutSheetFails(t: TableConfig, ctx: Context)
    requires FirstSource(t.sources).Ok?
    requires var src := FirstSource(t.sources).value;
      src.stype == Some("excel") && src.path.Some? && src.sheet.None?
    ensures TableData(t, ctx).Err?
    ensures ctx.env.readAllSheets(FirstSource(t.sources).value.path.value).Ok? ==>
      TableData(t, ctx).error == AttributeError("'dict' object has no attribute 'empty'")
  {
  }

  /** The cursor after a table placed with the cursor at (`row`, `col`). An
      empty table leaves the row `spacing + 1` below its "(no data)" line and
      keeps the column (its branch ends in `continue` before the reset); any
      other table leaves it `spacing + 1` below its last note, at column 0.
      Loading the table, or setting its widths, may raise instead. */
  function TableCursor(t: TableConfig, row: int, col: int, ctx: Context): Result<(int, int)> {
    var df :- TableData(t, ctx);
    if WidthsError(t, df, ctx).Some? then Err(WidthsError(t, df, ctx).value)
    else Ok(LoadedCursor(t, df, StartCell(t.startCell, row, col, ctx.parse).0, col, ctx))
  }

  /** The cursor after the loaded frame `df` of table `t` is placed from row
      `s`, the incoming cursor column being `col`. */
  function LoadedCursor(t: TableConfig, df: DataFrame, s: int, col: int, ctx: Context): (int, int) {
    var headerRow := s + TitleRows(t.title);
    if IsEmpty(df) then (headerRow + ctx.spacing + 1, col)
    else (headerRow + NRows(df) + 1 + |t.notes| + 1 + ctx.spacing, 0)
  }

  /** Once a table has loaded, its cursor (or the exception its widths
      raise) and its native table region depend only on the frame and the
      start cell. */
  lemma TableLoaded(t: TableConfig, row: int, col: int, ctx: Context, df: DataFrame)
    requires TableData(t, ctx) == Ok(df)
    ensures WidthsError(t, df, ctx).Some? ==> TableCursor(t, row, col, ctx) == Err(WidthsError(t, df, ctx).value)
    ensures WidthsError(t, df, ctx).None? ==>
      TableCursor(t, row, col, ctx) == Ok(LoadedCursor(t, df, StartCell(t.startCell, row, col, ctx.parse).0, col, ctx))
    ensures TableRegionsOf(t, row, col, ctx) == LoadedRegions(t, df, StartCell(t.startCell, row, col, ctx.parse), ctx)
  {
  }

  /** The cursor rule for a table that loaded: an empty frame always
      places, at `s + t + spacing + 1` in the same column; any other places
      unless a width raises, at `s + t + nrows + 1 + notes + 1 + spacing` in
      column 0, `s` being the start row and `t` the title row. */
  lemma TableCursorRule(t: TableConfig, row: int, col: int, ctx: Context)
    requires TableData(t, ctx).Ok?
    ensures var df := TableData(t, ctx).value;
      var s := StartCell(t.startCell, row, col, ctx.parse).0;
      var r := TableCursor(t, row, col, ctx);
      && (IsEmpty(df) ==> r == Ok((s + TitleRows(t.title) + ctx.spacing + 1, col)))
      && (!IsEmpty(df) && FailingColumn(df, NCols(df), ctx.formats, t.columnWidths, ctx.search).Some? ==>
            r == Err(AttributeError(NoNameMessage)))
      && (!IsEmpty(df) && FailingColumn(df, NCols(df), ctx.formats, t.columnWidths, ctx.search).None? ==>
            r == Ok((s + TitleRows(t.title) + NRows(df) + 1 + |t.notes| + 1 + ctx.spacing, 0)))
  {
  }

  /** Without a `start_cell` the cursor moves down by at least `spacing + 1`
      rows, so with non-negative spacing it strictly increases. */
  lemma TableCursorAdvances(t: TableConfig, row: int, col: int, ctx: Context)
    requires !Truthy(t.startCell) && TableCursor(t, row, col, ctx).Ok?
    ensures TableCursor(t, row, col, ctx).value.0 >= row + 1 + ctx.spacing
    ensures ctx.spacing >= 0 ==> TableCursor(t, row, col, ctx).value.0 > row
  {
  }

  /** With a `start_cell` the new row depends only on the table placed, not
      on the incoming cursor: it can therefore move backwards. */
  lemma StartCellDecidesRow(t: TableConfig, row1: int, col1: int, row2: int, col2: int, ctx: Context)
    requires Truthy(t.startCell) && TableData(t, ctx).Ok? && !IsEmpty(TableData(t, ctx).value)
    ensures TableCursor(t, row1, col1, ctx) == TableCursor(t, row2, col2, ctx)
  {
  }

  /** An explicit start cell above the cursor moves the cursor up: the next
      element is placed over rows already used. */
  lemma StartCellMovesBack(t: TableConfig, row: int, col: int, ctx: Context)
    requires Truthy(t.startCell) && TableCursor(t, row, col, ctx).Ok? && !IsEmpty(TableData(t, ctx).value)
    requires ctx.parse(t.startCell).0 + 2 + NRows(TableData(t, ctx).value) + |t.notes| + 1 + ctx.spacing < row
    ensures TableCursor(t, row, col, ctx).value.0 < row
  {
  }

  /** The column after an empty table is the incoming column; after any
      other table it is 0. */
  lemma TableCursorColumn(t: TableConfig, row: int, col: int, ctx: Context)
    requires TableCursor(t, row, col, ctx).Ok?
    ensures IsEmpty(TableData(t, ctx).value) ==> TableCursor(t, row, col, ctx).value.1 == col
    ensures !IsEmpty(TableData(t, ctx).value) ==> TableCursor(t, row, col, ctx).value.1 == 0
  {
  }

  /** Every row a table writes (title, header, body, notes, or the "(no
      data)" line) lies above the new cursor row when spacing is
      non-negative: the next element placed at the cursor cannot overwrite it. */
  lemma TableRowsAboveCursor(t: TableConfig, row: int, col: int, ctx: Context)
    requires TableCursor(t, row, col, ctx).Ok? && ctx.spacing >= 0
    ensures var df := TableData(t, ctx).value;
      var s := StartCell(t.startCell, row, col, ctx.parse).0;
      var last := if IsEmpty(df) then s + TitleRows(t.title) else s + TitleRows(t.title) + NRows(df) + |t.notes|;
      s <= last < TableCursor(t, row, col, ctx).value.0
  {
  }

  /** `x_scale` / `y_scale`: the configured value when truthy, else 1.0. */
  function Scale(x: Option<real>): (s: real)
    ensures x.Some? && x.value != 0.0 ==> s == x.value
    ensures x.None? || x.value == 0.0 ==> s == 1.0
  {
    if x.Some? && x.value != 0.0 then x.value else 1.0
  }

  /** The image a chart shows, or the exception loading it raises. */
  function ChartImage(c: ChartConfig, ctx: Context): Result<Returned> {
    var src :- FirstSource(c.sources);
    LoadImage(src, ctx.env)
  }

  /** The cursor after a chart placed with the cursor at (`row`, `col`): only
      the notes move it. Without notes it goes `spacing + 1` rows down from
      the incoming row, whatever the chart's title, start cell and image
      height; with notes, `spacing + 1` rows below the last note, which needs
      `chart_notes_start_cell`. */
  function ChartCursor(c: ChartConfig, row: int, col: int, ctx: Context): Result<(int, int)> {
    var _ :- ChartImage(c, ctx);
    if |c.notes| == 0 then Ok((row + 1 + ctx.spacing, 0))
    else if c.notesStartCell.None? then Err(KeyError("chart_notes_start_cell"))
    else Ok((ctx.parse(c.notesStartCell.value).0 + |c.notes| + 1 + ctx.spacing, 0))
  }

  /** A chart without notes adds exactly `1 + spacing` to the incoming row;
      its title and start cell play no part. */
  lemma ChartWithoutNotes(c: ChartConfig, row: int, col: int, ctx: Context, title: string, startCell: string)
    requires |c.notes| == 0 && ChartImage(c, ctx).Ok?
    ensures ChartCursor(c, row, col, ctx) == Ok((row + 1 + ctx.spacing, 0))
    ensures ChartCursor(c.(title := title, startCell := startCell), row, col, ctx) == ChartCursor(c, row, col, ctx)
  {
  }

  /** Since `cells0`, only the cells of the title at `start` changed. */
  ghost predicate TitleOnly(cells: map<(int, int), Entry>, cells0: map<(int, int), Entry>, title: string, start: (int, int)) {
    ChangedOnly(cells, cells0, start.0, start.0 + TitleRows(title), start.1, start.1 + 1)
  }

  /** Placing the notes of `c` with the cursor in row `row` moves it to
      (`row1`, `col1`), `spacing + 1` rows below the incoming row or the last
      note; `placed` is false exactly when there are notes but no start cell
      for them. */
  predicate NotesMoved(c: ChartConfig, ctx: Context, row: int, row1: int, col1: int, placed: bool) {
    && (!placed <==> |c.notes| > 0 && c.notesStartCell.None?)
    && (placed && |c.notes| == 0 ==> (row1, col1) == (row + 1 + ctx.spacing, 0))
    && (placed && |c.notes| > 0 && c.notesStartCell.Some? ==>
          (row1, col1) == (ctx.parse(c.notesStartCell.value).0 + |c.notes| + 1 + ctx.spacing, 0))
  }

  /** Once the image of a chart has loaded, its cursor and picture depend
      only on its notes and start cell: when the notes have been placed and
      the cursor moved to (`row1`, `col1`) as they say, that is the chart's
      cursor and the image below its title is its one picture. */
  lemma ChartCursorRule(c: ChartConfig, row: int, col: int, ctx: Context, image: Returned,
                        row1: int, col1: int, placed: bool)
    requires ChartImage(c, ctx) == Ok(image)
    requires NotesMoved(c, ctx, row, row1, col1, placed)
    ensures placed <==> ChartCursor(c, row, col, ctx).Ok?
    ensures placed ==> ChartCursor(c, row, col, ctx) == Ok((row1, col1))
    ensures !placed ==> ChartCursor(c, row, col, ctx) == Err(KeyError("chart_notes_start_cell"))
    ensures placed ==> ChartPicturesOf(c, row, col, ctx) == [ChartPicture(c, StartCell(c.startCell, row, col, ctx.parse), image)]
  {
  }

  /** A chart with notes leaves the cursor `spacing + 1` below its last note,
      wherever the incoming cursor was. */
  lemma ChartWithNotes(c: ChartConfig, row: int, col: int, ctx: Context)
    requires |c.notes| > 0 && ChartImage(c, ctx).Ok? && c.notesStartCell.Some?
    ensures ChartCursor(c, row, col, ctx) == Ok((ctx.parse(c.notesStartCell.value).0 + |c.notes| + 1 + ctx.spacing, 0))
  {
  }

  /** Notes without `chart_notes_start_cell` are a KeyError. */
  lemma ChartNotesNeedStartCell(c: ChartConfig, row: int, col: int, ctx: Context)
    requires |c.notes| > 0 && ChartImage(c, ctx).Ok? && c.notesStartCell.None?
    ensures ChartCursor(c, row, col, ctx) == Err(KeyError("chart_notes_start_cell"))
  {
  }

  /** The native table region a table adds when placed with the cursor at
      (`row`, `col`): none when it fails to load or is empty; a table whose
      widths raise has already added its region. */
  function TableRegionsOf(t: TableConfig, row: int, col: int, ctx: Context): seq<TableRegion> {
    var d := TableData(t, ctx);
    if d.Err? then [] else LoadedRegions(t, d.value, StartCell(t.startCell, row, col, ctx.parse), ctx)
  }

  /** The picture a chart adds when placed with the cursor at (`row`, `col`)
      and its notes are placed: the image under the title at its scales. */
  function ChartPicturesOf(c: ChartConfig, row: int, col: int, ctx: Context): seq<Picture> {
    if ChartCursor(c, row, col, ctx).Err? then []
    else
      [ChartPicture(c, StartCell(c.startCell, row, col, ctx.parse), ChartImage(c, ctx).value)]
  }

  /** The picture of chart `c` whose title starts at `start`: the image
      sits just below the title, at the chart's scales. */
  function ChartPicture(c: ChartConfig, start: (int, int), image: Returned): Picture {
    Picture(start.0 + TitleRows(c.title), start.1, image, Scale(c.xScale), Scale(c.yScale))
  }

  /** The cursor after the tables `ts` are placed in order from (`row`,
      `col`), or the first exception. */
  function TablesCursor(ts: seq<TableConfig>, row: int, col: int, ctx: Context): Result<(int, int)>
    decreases |ts|
  {
    if ts == [] then Ok((row, col))
    else
      var p :- TablesCursor(ts[..|ts| - 1], row, col, ctx);
      TableCursor(ts[|ts| - 1], p.0, p.1, ctx)
  }

  /** The native table regions the tables `ts` add, in order, up to the
      first that fails. */
  function TablesRegions(ts: seq<TableConfig>, row: int, col: int, ctx: Context): seq<TableRegion>
    decreases |ts|
  {
    if ts == [] then []
    else
      var init := ts[..|ts| - 1];
      var p := TablesCursor(init, row, col, ctx);
      TablesRegions(init, row, col, ctx) + if p.Ok? then TableRegionsOf(ts[|ts| - 1], p.value.0, p.value.1, ctx) else []
  }

  /** A table placed after `ts[..i]` continues both folds. */
  lemma TablesStep(ts: seq<TableConfig>, i: nat, row: int, col: int, ctx: Context)
    requires i < |ts| && TablesCursor(ts[..i], row, col, ctx).Ok?
    ensures var p := TablesCursor(ts[..i], row, col, ctx).value;
      && TablesCursor(ts[..i + 1], row, col, ctx) == TableCursor(ts[i], p.0, p.1, ctx)
      && TablesRegions(ts[..i + 1], row, col, ctx) == TablesRegions(ts[..i], row, col, ctx) + TableRegionsOf(ts[i], p.0, p.1, ctx)
  {
    assert ts[..i + 1][..i] == ts[..i];
  }

  /** Each table adds at most one region. */
  lemma {:induction false} TablesRegionsCount(ts: seq<TableConfig>, row: int, col: int, ctx: Context)
    ensures |TablesRegions(ts, row, col, ctx)| <= |ts|
    decreases |ts|
  {
    if ts != [] {
      TablesRegionsCount(ts[..|ts| - 1], row, col, ctx);
    }
  }

  /** Once a table fails, the tables after it change neither fold: the
      exception stands and no region is added. */
  lemma {:induction false} TablesAfterError(ts: seq<TableConfig>, i: nat, row: int, col: int, ctx: Context)
    requires i <= |ts| && TablesCursor(ts[..i], row, col, ctx).Err?
    ensures TablesCursor(ts, row, col, ctx) == TablesCursor(ts[..i], row, col, ctx)
    ensures TablesRegions(ts, row, col, ctx) == TablesRegions(ts[..i], row, col, ctx)
    decreases |ts|
  {
    if i == |ts| {
      assert ts[..i] == ts;
    } else {
      var init := ts[..|ts| - 1];
      assert init[..i] == ts[..i];
      TablesAfterError(init, i, row, col, ctx);
    }
  }

  /** The cursor after the charts `cs` are placed in order from (`row`,
      `col`), or the first exception. */
  function ChartsCursor(cs: seq<ChartConfig>, row: int, col: int, ctx: Context): Result<(int, int)>
    decreases |cs|
  {
    if cs == [] then Ok((row, col))
    else
      var p :- ChartsCursor(cs[..|cs| - 1], row, col, ctx);
      ChartCursor(cs[|cs| - 1], p.0, p.1, ctx)
  }

  /** The pictures the charts `cs` add, in order, up to the first that
      fails. */
  function ChartsPictures(cs: seq<ChartConfig>, row: int, col: int, ctx: Context): seq<Picture>
    decreases |cs|
  {
    if cs == [] then []
    else
      var init := cs[..|cs| - 1];
      var p := ChartsCursor(init, row, col, ctx);
      ChartsPictures(init, row, col, ctx) + if p.Ok? then ChartPicturesOf(cs[|cs| - 1], p.value.0, p.value.1, ctx) else []
  }

  /** A chart placed after `cs[..i]` continues both folds. */
  lemma ChartsStep(cs: seq<ChartConfig>, i: nat, row: int, col: int, ctx: Context)
    requires i < |cs| && ChartsCursor(cs[..i], row, col, ctx).Ok?
    ensures var p := ChartsCursor(cs[..i], row, col, ctx).value;
      && ChartsCursor(cs[..i + 1], row, col, ctx) == ChartCursor(cs[i], p.0, p.1, ctx)
      && ChartsPictures(cs[..i + 1], row, col, ctx) == ChartsPictures(cs[..i], row, col, ctx) + ChartPicturesOf(cs[i], p.0, p.1, ctx)
  {
    assert cs[..i + 1][..i] == cs[..i];
  }

  /** Every chart placed adds exactly one picture. */
  lemma {:induction false} ChartsPicturesCount(cs: seq<ChartConfig>, row: int, col: int, ctx: Context)
    requires ChartsCursor(cs, row, col, ctx).Ok?
    ensures |ChartsPictures(cs, row, col, ctx)| == |cs|
    decreases |cs|
  {
    if cs != [] {
      ChartsPicturesCount(cs[..|cs| - 1], row, col, ctx);
    }
  }

  /** Once a chart fails, the charts after it change neither fold. */
  lemma {:induction false} ChartsAfterError(cs: seq<ChartConfig>, i: nat, row: int, col: int, ctx: Context)
    requires i <= |cs| && ChartsCursor(cs[..i], row, col, ctx).Err?
    ensures ChartsCursor(cs, row, col, ctx) == ChartsCursor(cs[..i], row, col, ctx)
    ensures ChartsPictures(cs, row, col, ctx) == ChartsPictures(cs[..i], row, col, ctx)
    decreases |cs|
  {
    if i == |cs| {
      assert cs[..i] == cs;
    } else {
      var init := cs[..|cs| - 1];
      assert init[..i] == cs[..i];
      ChartsAfterError(init, i, row, col, ctx);
    }
  }

  // ---------------------------------------------------------------------
  // What the elements write

  /** `p` is one of the `n` cells down column `col` from row `row`. */
  predicate InColumn(p: (int, int), col: int, row: int, n: int) {
    p.1 == col && row <= p.0 < row + n
  }

  /** `p` is one of the `n` cells along row `row` from column `col`. */
  predicate InRow(p: (int, int), row: int, col: int, n: int) {
    p.0 == row && col <= p.1 < col + n
  }

  /** `lines[i]` sits at (`row + i`, `col`). */
  ghost predicate LinesWritten(cells: map<(int, int), Entry>, lines: seq<string>, row: int, col: int, style: Style) {
    forall p: (int, int) {:trigger InColumn(p, col, row, |lines|)} :: InColumn(p, col, row, |lines|) ==>
      p in cells && cells[p] == Entry(Text(lines[p.0 - row]), style)
  }

  /** `cells` is `old0` with cells added or replaced only inside one of two
      rectangles. */
  ghost predicate ChangedOnlyTwo(cells: map<(int, int), Entry>, old0: map<(int, int), Entry>,
                                 r0: int, r1: int, c0: int, c1: int, s0: int, s1: int, d0: int, d1: int) {
    && (forall p :: p in cells ==> p in old0 || InRect(p, r0, r1, c0, c1) || InRect(p, s0, s1, d0, d1))
    && (forall p :: p in old0 ==>
          (p in cells && (InRect(p, r0, r1, c0, c1) || InRect(p, s0, s1, d0, d1) || cells[p] == old0[p])))
  }

  /** Two successive changes, each inside a rectangle that lies inside a
      larger one, change only the larger one. */
  lemma ChangedWithin(cells: map<(int, int), Entry>, mid: map<(int, int), Entry>, cells0: map<(int, int), Entry>,
                      a0: int, a1: int, b0: int, b1: int, d0: int, d1: int, e0: int, e1: int,
                      r0: int, r1: int, c0: int, c1: int)
    requires ChangedOnly(mid, cells0, a0, a1, b0, b1) && ChangedOnly(cells, mid, d0, d1, e0, e1)
    requires r0 <= a0 && a1 <= r1 && c0 <= b0 && b1 <= c1
    requires r0 <= d0 && d1 <= r1 && c0 <= e0 && e1 <= c1
    ensures ChangedOnly(cells, cells0, r0, r1, c0, c1)
  {
    forall p
      ensures p in cells ==> p in cells0 || InRect(p, r0, r1, c0, c1)
      ensures p in cells0 ==> p in cells && (InRect(p, r0, r1, c0, c1) || cells[p] == cells0[p])
    {
      if InRect(p, a0, a1, b0, b1) {}
      if InRect(p, d0, d1, e0, e1) {}
    }
  }

  /** Writing one cell inside a rectangle that contains the one changed so
      far changes only the larger rectangle. */
  lemma ChangedOnlyWrite(cells: map<(int, int), Entry>, cells0: map<(int, int), Entry>, r0: int, r1: int, c0: int,
                         c1: int, q: (int, int), e: Entry, s0: int, s1: int, d0: int, d1: int)
    requires ChangedOnly(cells, cells0, r0, r1, c0, c1)
    requires InRect(q, s0, s1, d0, d1) && s0 <= r0 && r1 <= s1 && d0 <= c0 && c1 <= d1
    ensures ChangedOnly(cells[q := e], cells0, s0, s1, d0, d1)
  {
    forall p
      ensures p in cells[q := e] ==> p in cells0 || InRect(p, s0, s1, d0, d1)
      ensures p in cells0 ==> p in cells[q := e] && (InRect(p, s0, s1, d0, d1) || cells[q := e][p] == cells0[p])
    {
      if InRect(p, r0, r1, c0, c1) {}
    }
  }

  /** The protective marking laid over the first `c` columns of row 0: each
      a blank marked cell, except the cursor cell (`r`, `k`), which holds the
      marking text once `c` is positive; no other cell changed. */
  ghost predicate Marked(cells: map<(int, int), Entry>, cells0: map<(int, int), Entry>, c: int, r: int, k: int,
                         marking: string)
  {
    && (c > 0 ==> (r, k) in cells && cells[(r, k)] == Entry(Text(marking), MarkingStyle))
    && (forall p: (int, int) {:trigger cells[p]} {:trigger p in cells} :: p.0 == 0 && 0 <= p.1 < c && p != (r, k) ==>
          p in cells && cells[p] == Entry(Blank, MarkingStyle))
    && ChangedOnlyTwo(cells, cells0, 0, 1, 0, c, r, r + 1, k, k + 1)
  }

  /** Writing cell (0, `c`) blank, then the marking at (`r`, `k`), marks one
      more column. */
  lemma MarkStep(cells: map<(int, int), Entry>, cells0: map<(int, int), Entry>, c: int, r: int, k: int,
                 marking: string)
    requires 0 <= c && Marked(cells, cells0, c, r, k, marking)
    ensures Marked(cells[(0, c) := Entry(Blank, MarkingStyle)][(r, k) := Entry(Text(marking), MarkingStyle)],
                   cells0, c + 1, r, k, marking)
  {
  }

  /** Two successive changes, one inside each rectangle. */
  lemma ChangedTwice(cells: map<(int, int), Entry>, mid: map<(int, int), Entry>, cells0: map<(int, int), Entry>,
                     r0: int, r1: int, c0: int, c1: int, s0: int, s1: int, d0: int, d1: int)
    requires ChangedOnly(mid, cells0, r0, r1, c0, c1) && ChangedOnly(cells, mid, s0, s1, d0, d1)
    ensures ChangedOnlyTwo(cells, cells0, r0, r1, c0, c1, s0, s1, d0, d1)
  {
    forall p
      ensures p in cells ==> p in cells0 || InRect(p, r0, r1, c0, c1) || InRect(p, s0, s1, d0, d1)
      ensures p in cells0 ==>
        p in cells && (InRect(p, r0, r1, c0, c1) || InRect(p, s0, s1, d0, d1) || cells[p] == cells0[p])
    {
      if InRect(p, r0, r1, c0, c1) {}
      if InRect(p, s0, s1, d0, d1) {}
    }
  }

  /** The header labels sit in row `row` from column `col` on. */
  ghost predicate HeadersWritten(cells: map<(int, int), Entry>, columns: seq<string>, row: int, col: int) {
    forall p: (int, int) {:trigger InRow(p, row, col, |columns|)} :: InRow(p, row, col, |columns|) ==>
      p in cells && cells[p] == Entry(Text(columns[p.1 - col]), HeaderStyle)
  }

  /** Writes `lines` down column `col` from row `row`. */
  method WriteLines(ws: Worksheet, lines: seq<string>, row: int, col: int, style: Style)
    modifies ws`cells
    ensures LinesWritten(ws.cells, lines, row, col, style)
    ensures ChangedOnly(ws.cells, old(ws.cells), row, row + |lines|, col, col + 1)
  {
    var i := 0;
    while i < |lines|
      invariant 0 <= i <= |lines|
      invariant LinesWritten(ws.cells, lines[..i], row, col, style)
      invariant ChangedOnly(ws.cells, old(ws.cells), row, row + i, col, col + 1)
    {
      ghost var before := ws.cells;
      ws.Write(row + i, col, Text(lines[i]), style);
      ChangedOnlyWrite(before, old(ws.cells), row, row + i, col, col + 1, (row + i, col), Entry(Text(lines[i]), style),
                       row, row + i + 1, col, col + 1);
      forall p | InColumn(p, col, row, |lines[..i + 1]|)
        ensures p in ws.cells && ws.cells[p] == Entry(Text(lines[..i + 1][p.0 - row]), style)
      {
        if p.0 < row + i {
          assert InColumn(p, col, row, |lines[..i]|);
        }
      }
      i := i + 1;
    }
    assert lines[..i] == lines;
  }

  /** Writes the header labels across row `row` from column `col`, replacing
      the plain header cells of the table with the header format. */
  method WriteHeaders(ws: Worksheet, columns: seq<string>, row: int, col: int)
    modifies ws`cells
    ensures HeadersWritten(ws.cells, columns, row, col)
    ensures ChangedOnly(ws.cells, old(ws.cells), row, row + 1, col, col + |columns|)
  {
    var j := 0;
    while j < |columns|
      invariant 0 <= j <= |columns|
      invariant HeadersWritten(ws.cells, columns[..j], row, col)
      invariant ChangedOnly(ws.cells, old(ws.cells), row, row + 1, col, col + j)
    {
      ghost var before := ws.cells;
      ws.Write(row, col + j, Text(columns[j]), HeaderStyle);
      ChangedOnlyWrite(before, old(ws.cells), row, row + 1, col, col + j, (row, col + j), Entry(Text(columns[j]), HeaderStyle),
                       row, row + 1, col, col + j + 1);
      forall p | InRow(p, row, col, |columns[..j + 1]|)
        ensures p in ws.cells && ws.cells[p] == Entry(Text(columns[..j + 1][p.1 - col]), HeaderStyle)
      {
        if p.1 < col + j {
          assert InRow(p, row, col, |columns[..j]|);
        }
      }
      j := j + 1;
    }
    assert columns[..j] == columns;
  }

  /** A truthy table title sits at the start cell. */
  ghost predicate TitleWritten(cells: map<(int, int), Entry>, title: string, s: int, c: int, size: int) {
    Truthy(title) ==> (s, c) in cells && cells[(s, c)] == Entry(Text(title), SubtitleStyle(size))
  }

  /** "(no data)" sits where the header would have gone. */
  ghost predicate EmptyTableWritten(cells: map<(int, int), Entry>, h: int, c: int) {
    (h, c) in cells && cells[(h, c)] == Entry(Text(NoData), Plain)
  }

  /** A non-empty table with header row `h` at column `c`: its native table
      region with the inclusive extent of `add_excel_table`, its column widths,
      header labels, formatted body and notes. */
  ghost predicate TableWritten(cells: map<(int, int), Entry>, widths: map<int, int>, formats: seq<FormatArgs>,
                               t: TableConfig, df: DataFrame, h: int, c: int, widths0: map<int, int>, ctx: Context)
  {
    && WidthsSet(widths, widths0, df, c, ctx.formats, t.columnWidths, ctx.search)
    && HeadersWritten(cells, df.columns, h, c)
    && BodyWritten(cells, df, h, c, formats, ctx.formats, ctx.search)
    && LinesWritten(cells, t.notes, h + 1 + NRows(df), c, FootnoteStyle(ctx.footnoteSize))
  }

  /** The native table region a loaded table placed from `start` adds: none
      for an empty frame, else one below the title with the inclusive extent
      of `add_excel_table`. */
  function LoadedRegions(t: TableConfig, df: DataFrame, start: (int, int), ctx: Context): seq<TableRegion> {
    if IsEmpty(df) then []
    else [FullRegion(t, df, start, ctx)]
  }

  /** The native table region of a non-empty frame placed from `start`. */
  function FullRegion(t: TableConfig, df: DataFrame, start: (int, int), ctx: Context): TableRegion {
    TableRegion(start.0 + TitleRows(t.title), start.1, start.0 + TitleRows(t.title) + NRows(df),
                start.1 + NCols(df) - 1, df.columns, df.rows, t.style.GetOr(ctx.tableStyle))
  }

  /** A loaded table placed from `start`: its title, then "(no data)" with
      the widths and formats untouched when the frame is empty, and the full
      table otherwise; its native region appended; no cell changed outside
      the rows and columns it occupies; and at most one format per column
      added after the existing ones. */
  ghost predicate TablePlaced(cells: map<(int, int), Entry>, tables: seq<TableRegion>, widths: map<int, int>,
                              formats: seq<FormatArgs>, t: TableConfig, df: DataFrame, start: (int, int),
                              cells0: map<(int, int), Entry>, tables0: seq<TableRegion>, widths0: map<int, int>,
                              formats0: seq<FormatArgs>, ctx: Context)
  {
    && TitleWritten(cells, t.title, start.0, start.1, ctx.subtitleSize)
    && tables == tables0 + LoadedRegions(t, df, start, ctx)
    && (IsEmpty(df) ==> && ChangedOnly(cells, cells0, start.0, start.0 + TitleRows(t.title) + 1, start.1, start.1 + 1)
                        && EmptyTableWritten(cells, start.0 + TitleRows(t.title), start.1)
                        && widths == widths0 && formats == formats0)
    && (!IsEmpty(df) ==> ChangedOnly(cells, cells0, start.0, start.0 + TitleRows(t.title) + 1 + NRows(df) + |t.notes|,
                                     start.1, start.1 + NCols(df)))
    && (!IsEmpty(df) ==> TableWritten(cells, widths, formats, t, df, start.0 + TitleRows(t.title), start.1, widths0, ctx)
                         && formats0 <= formats && |formats| <= |formats0| + NCols(df))
  }

  /** A non-empty table whose widths raise, placed from `start`: its title
      and native region are in place, the columns before the failing one
      have their widths, no other cell has changed, and formats have only
      been added after the existing ones. */
  ghost predicate TableAborted(cells: map<(int, int), Entry>, tables: seq<TableRegion>, widths: map<int, int>,
                               formats: seq<FormatArgs>, t: TableConfig, df: DataFrame, start: (int, int),
                               cells0: map<(int, int), Entry>, tables0: seq<TableRegion>, widths0: map<int, int>,
                               formats0: seq<FormatArgs>, ctx: Context)
    requires FailingColumn(df, NCols(df), ctx.formats, t.columnWidths, ctx.search).Some?
  {
    && TitleWritten(cells, t.title, start.0, start.1, ctx.subtitleSize)
    && ChangedOnly(cells, cells0, start.0, start.0 + TitleRows(t.title), start.1, start.1 + 1)
    && tables == tables0 + [FullRegion(t, df, start, ctx)]
    && WidthsAre(widths, widths0, start.1, ColumnWidths(df, ctx.formats, t.columnWidths, ctx.search),
                 FailingColumn(df, NCols(df), ctx.formats, t.columnWidths, ctx.search).value)
    && formats0 <= formats
  }

  lemma KeepTitle(cells: map<(int, int), Entry>, cells0: map<(int, int), Entry>, title: string, s: int, c: int,
                  size: int, r0: int, r1: int, c0: int, c1: int)
    requires TitleWritten(cells0, title, s, c, size) && ChangedOnly(cells, cells0, r0, r1, c0, c1)
    requires Truthy(title) ==> !InRect((s, c), r0, r1, c0, c1)
    ensures TitleWritten(cells, title, s, c, size)
  {
  }

  lemma KeepHeaders(cells: map<(int, int), Entry>, cells0: map<(int, int), Entry>, columns: seq<string>,
                    h: int, c: int, r0: int, r1: int, c0: int, c1: int)
    requires HeadersWritten(cells0, columns, h, c) && ChangedOnly(cells, cells0, r0, r1, c0, c1)
    requires h < r0 || r1 <= h
    ensures HeadersWritten(cells, columns, h, c)
  {
    forall p: (int, int) | InRow(p, h, c, |columns|)
      ensures p in cells && cells[p] == Entry(Text(columns[p.1 - c]), HeaderStyle)
    {
      assert p in cells0 && !InRect(p, r0, r1, c0, c1);
    }
  }

  lemma KeepBody(cells: map<(int, int), Entry>, cells0: map<(int, int), Entry>, df: DataFrame, h: int, c: int,
                 formats: seq<FormatArgs>, cfg: FormatConfig, search: Search, r0: int, r1: int, c0: int, c1: int)
    requires BodyWritten(cells0, df, h, c, formats, cfg, search) && ChangedOnly(cells, cells0, r0, r1, c0, c1)
    requires h + NRows(df) < r0 || r1 <= h + 1
    ensures BodyWritten(cells, df, h, c, formats, cfg, search)
  {
    forall p | InBody(p, df, h, c)
      ensures p in cells && BodyCell(cells[p], p, df, h, c, formats, cfg, search)
    {
      assert p in cells0 && !InRect(p, r0, r1, c0, c1);
    }
  }

  // ---------------------------------------------------------------------
  // The cursor

  /** What a placed chart leaves in the cells around its start cell
      (`s`, `k`): without notes, only its title; with notes, the notes from
      `chart_notes_start_cell` down and the title unless a note overwrote it,
      and no other cell changed. */
  ghost predicate ChartDrawn(cells: map<(int, int), Entry>, cells0: map<(int, int), Entry>, c: ChartConfig,
                             start: (int, int), ctx: Context)
  {
    && (|c.notes| == 0 ==> TitleWritten(cells, c.title, start.0, start.1, ctx.subtitleSize)
                            && ChangedOnly(cells, cells0, start.0, start.0 + TitleRows(c.title), start.1, start.1 + 1))
    && (|c.notes| > 0 ==>
          c.notesStartCell.Some? && NotesDrawn(cells, cells0, c, start, ctx.parse(c.notesStartCell.value), ctx))
  }

  /** The notes of a chart from `notesAt` down and its title at `start`,
      unless a note overwrote it; no other cell changed. */
  ghost predicate NotesDrawn(cells: map<(int, int), Entry>, cells0: map<(int, int), Entry>, c: ChartConfig,
                             start: (int, int), notesAt: (int, int), ctx: Context)
  {
    var (s, k) := start;
    var (nr, nc) := notesAt;
    && LinesWritten(cells, c.notes, nr, nc, FootnoteStyle(ctx.footnoteSize))
    && ChangedOnlyTwo(cells, cells0, s, s + TitleRows(c.title), k, k + 1, nr, nr + |c.notes|, nc, nc + 1)
    && (!InRect(start, nr, nr + |c.notes|, nc, nc + 1) ==> TitleWritten(cells, c.title, s, k, ctx.subtitleSize))
  }

  /** Writing the title of a chart, then its notes, draws it. */
  lemma ChartPlacedRule(cells: map<(int, int), Entry>, titled: map<(int, int), Entry>, cells0: map<(int, int), Entry>,
                        c: ChartConfig, start: (int, int), notesAt: (int, int), ctx: Context)
    requires TitleWritten(titled, c.title, start.0, start.1, ctx.subtitleSize)
    requires ChangedOnly(titled, cells0, start.0, start.0 + TitleRows(c.title), start.1, start.1 + 1)
    requires LinesWritten(cells, c.notes, notesAt.0, notesAt.1, FootnoteStyle(ctx.footnoteSize))
    requires ChangedOnly(cells, titled, notesAt.0, notesAt.0 + |c.notes|, notesAt.1, notesAt.1 + 1)
    ensures NotesDrawn(cells, cells0, c, start, notesAt, ctx)
  {
    var (nr, nc) := notesAt;
    ChangedTwice(cells, titled, cells0, start.0, start.0 + TitleRows(c.title), start.1, start.1 + 1,
                 nr, nr + |c.notes|, nc, nc + 1);
    if !InRect(start, nr, nr + |c.notes|, nc, nc + 1) {
      KeepTitle(cells, titled, c.title, start.0, start.1, ctx.subtitleSize, nr, nr + |c.notes|, nc, nc + 1);
    }
  }

  /** "(no data)" under the title of an empty frame, and no other cell
      changed, places it. */
  lemma EmptyTablePlaced(cells: map<(int, int), Entry>, tables: seq<TableRegion>, widths: map<int, int>,
                         formats: seq<FormatArgs>, t: TableConfig, df: DataFrame, start: (int, int),
                         cells0: map<(int, int), Entry>, ctx: Context)
    requires IsEmpty(df)
    requires TitleWritten(cells, t.title, start.0, start.1, ctx.subtitleSize)
    requires EmptyTableWritten(cells, start.0 + TitleRows(t.title), start.1)
    requires ChangedOnly(cells, cells0, start.0, start.0 + TitleRows(t.title) + 1, start.1, start.1 + 1)
    ensures TablePlaced(cells, tables, widths, formats, t, df, start, cells0, tables, widths, formats, ctx)
  {
    assert tables + LoadedRegions(t, df, start, ctx) == tables;
  }

  /** The title of a table at `start`, then cells changed only in the rows
      below it down to `notesRow` and in columns `c .. c1 - 1`, then cells
      changed only in `n` rows from `notesRow` in column `c`, change only
      rows `start.0 .. notesRow + n - 1` and keep the title. */
  lemma TitleAbove(cells: map<(int, int), Entry>, bodied: map<(int, int), Entry>, titled: map<(int, int), Entry>,
                   cells0: map<(int, int), Entry>, title: string, start: (int, int), size: int,
                   notesRow: int, n: nat, c1: int)
    requires TitleWritten(titled, title, start.0, start.1, size)
    requires ChangedOnly(titled, cells0, start.0, start.0 + TitleRows(title), start.1, start.1 + 1)
    requires start.0 + TitleRows(title) <= notesRow && start.1 < c1
    requires ChangedOnly(bodied, titled, start.0 + TitleRows(title), notesRow, start.1, c1)
    requires ChangedOnly(cells, bodied, notesRow, notesRow + n, start.1, start.1 + 1)
    ensures TitleWritten(cells, title, start.0, start.1, size)
    ensures ChangedOnly(cells, cells0, start.0, notesRow + n, start.1, c1)
  {
    KeepTitle(bodied, titled, title, start.0, start.1, size, start.0 + TitleRows(title), notesRow, start.1, c1);
    KeepTitle(cells, bodied, title, start.0, start.1, size, notesRow, notesRow + n, start.1, start.1 + 1);
    ChangedWithin(bodied, titled, cells0, start.0, start.0 + TitleRows(title), start.1, start.1 + 1,
                  start.0 + TitleRows(title), notesRow, start.1, c1, start.0, notesRow, start.1, c1);
    ChangedWithin(cells, bodied, cells0, start.0, notesRow, start.1, c1, notesRow, notesRow + n, start.1, start.1 + 1,
                  start.0, notesRow + n, start.1, c1);
  }

  /** The parts of a non-empty table, each where it belongs, place it. */
  lemma FullTablePlaced(cells: map<(int, int), Entry>, cells0: map<(int, int), Entry>, tables: seq<TableRegion>,
                        widths: map<int, int>, formats: seq<FormatArgs>, t: TableConfig, df: DataFrame,
                        start: (int, int), tables0: seq<TableRegion>, widths0: map<int, int>,
                        formats0: seq<FormatArgs>, ctx: Context)
    requires !IsEmpty(df)
    requires TitleWritten(cells, t.title, start.0, start.1, ctx.subtitleSize)
    requires tables == tables0 + [FullRegion(t, df, start, ctx)]
    requires ChangedOnly(cells, cells0, start.0, start.0 + TitleRows(t.title) + 1 + NRows(df) + |t.notes|,
                         start.1, start.1 + NCols(df))
    requires WidthsSet(widths, widths0, df, start.1, ctx.formats, t.columnWidths, ctx.search)
    requires HeadersWritten(cells, df.columns, start.0 + TitleRows(t.title), start.1)
    requires BodyWritten(cells, df, start.0 + TitleRows(t.title), start.1, formats, ctx.formats, ctx.search)
    requires LinesWritten(cells, t.notes, start.0 + TitleRows(t.title) + 1 + NRows(df), start.1,
                          FootnoteStyle(ctx.footnoteSize))
    requires formats0 <= formats && |formats| <= |formats0| + NCols(df)
    ensures TablePlaced(cells, tables, widths, formats, t, df, start, cells0, tables0, widths0, formats0, ctx)
  {
  }

  /** One sheet being laid out: its worksheet, the workbook, the shared
      context, and the cursor (`current_row`, `current_col`). */
  class SheetLayout {
    const ws: Worksheet
    const book: Workbook
    const ctx: Context
    var row: int
    var col: int

    /** A fresh cursor at the top-left cell. */
    constructor(ws: Worksheet, book: Workbook, ctx: Context)
      ensures this.ws == ws && this.book == book && this.ctx == ctx
      ensures row == 0 && col == 0
    {
      this.ws := ws;
      this.book := book;
      this.ctx := ctx;
      row, col := 0, 0;
    }

    /** The protective marking, when truthy: for each of the `span` columns
        (10 unless a truthy span is configured) a blank marked cell in row 0,
        the marking text at the cursor, and row 0 made 24 high. The cursor
        then moves down 2 rows, even when the span is not positive. */
    method PlaceMarking(marking: string, span: Option<int>)
      modifies this`row, ws`cells, ws`heights
      ensures !Truthy(marking) ==> row == old(row) && ws.cells == old(ws.cells) && ws.heights == old(ws.heights)
      ensures Truthy(marking) ==> row == old(row) + 2
      ensures var n := if span.Some? && span.value != 0 then span.value else DefaultSpan;
        Truthy(marking) ==> Marked(ws.cells, old(ws.cells), n, old(row), col, marking)
      ensures var n := if span.Some? && span.value != 0 then span.value else DefaultSpan;
        Truthy(marking) && n > 0 ==> ws.heights == old(ws.heights)[0 := MarkingHeight]
      ensures var n := if span.Some? && span.value != 0 then span.value else DefaultSpan;
        Truthy(marking) && n <= 0 ==> ws.cells == old(ws.cells) && ws.heights == old(ws.heights)
    {
      if Truthy(marking) {
        var n := if span.Some? && span.value != 0 then span.value else DefaultSpan;
        MarkRow(marking, n);
        row := row + 2;
      }
    }

    /** The marking loop: `n` times a blank marked cell in row 0, the marking
        at the cursor and the height of row 0. */
    method MarkRow(marking: string, n: int)
      modifies ws`cells, ws`heights
      ensures Marked(ws.cells, old(ws.cells), n, row, col, marking)
      ensures n > 0 ==> ws.heights == old(ws.heights)[0 := MarkingHeight]
      ensures n <= 0 ==> ws.cells == old(ws.cells) && ws.heights == old(ws.heights)
    {
      var c := 0;
      while c < n
        invariant 0 <= c <= Max(n, 0)
        invariant Marked(ws.cells, old(ws.cells), c, row, col, marking)
        invariant c == 0 ==> ws.cells == old(ws.cells) && ws.heights == old(ws.heights)
        invariant c > 0 ==> ws.heights == old(ws.heights)[0 := MarkingHeight]
      {
        MarkColumn(marking, c, old(ws.cells));
        c := c + 1;
      }
    }

    /** One turn of the marking loop, at column `c` of row 0. */
    method MarkColumn(marking: string, c: int, ghost cells0: map<(int, int), Entry>)
      requires 0 <= c && Marked(ws.cells, cells0, c, row, col, marking)
      modifies ws`cells, ws`heights
      ensures Marked(ws.cells, cells0, c + 1, row, col, marking)
      ensures ws.heights == old(ws.heights)[0 := MarkingHeight]
    {
      ghost var before := ws.cells;
      ws.Write(0, c, Blank, MarkingStyle);
      ws.Write(row, col, Text(marking), MarkingStyle);
      MarkStep(before, cells0, c, row, col, marking);
      ghost var after := ws.cells;
      ws.SetRow(0, MarkingHeight);
      assert ws.cells == after;
    }

    /** The sheet title, when truthy, at the cursor; the cursor moves down 2
        rows (the title and one blank row). */
    method PlaceTitle(title: string)
      modifies this`row, ws`cells
      ensures !Truthy(title) ==> row == old(row) && ws.cells == old(ws.cells)
      ensures Truthy(title) ==>
        row == old(row) + 2 && ws.cells == old(ws.cells)[(old(row), col) := Entry(Text(title), TitleStyle(ctx.titleSize))]
    {
      if Truthy(title) {
        ws.Write(row, col, Text(title), TitleStyle(ctx.titleSize));
        row := row + 2;
      }
    }

    /** One table: its title above it, then the native table with header
        labels, formatted body and column widths, then its notes; an empty
        table gets "(no data)" instead. The cursor ends where `TableCursor`
        says; a source that cannot be found or loaded aborts with its
        exception before anything is written, and a width that raises aborts
        the table as `TableAborted` says. */
    method PlaceTable(t: TableConfig) returns (r: Result<()>)
      modifies this`row, this`col, ws`cells, ws`widths, ws`tables, book`formats
      ensures r.Ok? <==> TableCursor(t, old(row), old(col), ctx).Ok?
      ensures r.Err? ==> r.error == TableCursor(t, old(row), old(col), ctx).error
      ensures r.Ok? ==> (row, col) == TableCursor(t, old(row), old(col), ctx).value
      ensures r.Ok? ==> TablePlaced(ws.cells, ws.tables, ws.widths, book.formats, t, TableData(t, ctx).value,
                                    StartCell(t.startCell, old(row), old(col), ctx.parse),
                                    old(ws.cells), old(ws.tables), old(ws.widths), old(book.formats), ctx)
      ensures ws.tables == old(ws.tables) + TableRegionsOf(t, old(row), old(col), ctx)
      ensures old(book.formats) <= book.formats
      ensures r.Err? ==> (row, col) == (old(row), old(col))
      ensures TableData(t, ctx).Err? ==> && ws.cells == old(ws.cells) && ws.widths == old(ws.widths)
                                         && book.formats == old(book.formats)
      ensures r.Err? && TableData(t, ctx).Ok? ==>
        var df := TableData(t, ctx).value;
        && FailingColumn(df, NCols(df), ctx.formats, t.columnWidths, ctx.search).Some?
        && TableAborted(ws.cells, ws.tables, ws.widths, book.formats, t, df,
                        StartCell(t.startCell, old(row), old(col), ctx.parse),
                        old(ws.cells), old(ws.tables), old(ws.widths), old(book.formats), ctx)
    {
      var start := StartCell(t.startCell, row, col, ctx.parse);
      ghost var row0, col0 := row, col;
      var df :- TableData(t, ctx);
      TableLoaded(t, row0, col0, ctx, df);
      r := PlaceLoaded(t, df, start);
    }

    /** A loaded frame placed from `start`: the empty one as "(no data)",
        any other as the full table with its notes. */
    method PlaceLoaded(t: TableConfig, df: DataFrame, start: (int, int)) returns (r: Result<()>)
      modifies this`row, this`col, ws`cells, ws`widths, ws`tables, book`formats
      ensures r.Err? <==> WidthsError(t, df, ctx).Some?
      ensures r.Err? ==> r.error == WidthsError(t, df, ctx).value && (row, col) == (old(row), old(col))
      ensures r.Err? ==> !IsEmpty(df) && FailingColumn(df, NCols(df), ctx.formats, t.columnWidths, ctx.search).Some?
      ensures r.Err? ==> TableAborted(ws.cells, ws.tables, ws.widths, book.formats, t, df, start,
                                      old(ws.cells), old(ws.tables), old(ws.widths), old(book.formats), ctx)
      ensures r.Ok? ==> (row, col) == LoadedCursor(t, df, start.0, old(col), ctx)
      ensures r.Ok? ==> TablePlaced(ws.cells, ws.tables, ws.widths, book.formats, t, df, start,
                                    old(ws.cells), old(ws.tables), old(ws.widths), old(book.formats), ctx)
    {
      if IsEmpty(df) {
        PlaceEmpty(t, df, start);
        r := Ok(());
      } else {
        r := PlaceFull(t, df, start);
      }
    }

    /** The title (when truthy) and "(no data)" below it; the cursor goes
        `spacing + 1` rows below that line and its column is kept. */
    method PlaceEmpty(t: TableConfig, df: DataFrame, start: (int, int))
      requires IsEmpty(df)
      modifies this`row, ws`cells
      ensures (row, col) == LoadedCursor(t, df, start.0, old(col), ctx)
      ensures TablePlaced(ws.cells, ws.tables, ws.widths, book.formats, t, df, start,
                          old(ws.cells), old(ws.tables), old(ws.widths), old(book.formats), ctx)
    {
      var cursor := LoadedCursor(t, df, start.0, col, ctx);
      var startRow := start.0;
      if Truthy(t.title) {
        ws.Write(startRow, start.1, Text(t.title), SubtitleStyle(ctx.subtitleSize));
        startRow := startRow + 1;
      }
      ws.Write(startRow, start.1, Text(NoData), Plain);
      row := cursor.0;
      EmptyTablePlaced(ws.cells, ws.tables, ws.widths, book.formats, t, df, start, old(ws.cells), ctx);
    }

    /** The title (when truthy), the native table with its body, widths and
        header labels, and the notes below it in the table's first column;
        the cursor goes `spacing + 1` rows below the last note, at column 0.
        A width that raises stops it after the native table, before any
        cell below the title is written. */
    method PlaceFull(t: TableConfig, df: DataFrame, start: (int, int)) returns (r: Result<()>)
      requires !IsEmpty(df)
      modifies this`row, this`col, ws`cells, ws`widths, ws`tables, book`formats
      ensures r.Err? <==> FailingColumn(df, NCols(df), ctx.formats, t.columnWidths, ctx.search).Some?
      ensures r.Err? ==> r.error == AttributeError(NoNameMessage) && (row, col) == (old(row), old(col))
      ensures r.Err? ==> TableAborted(ws.cells, ws.tables, ws.widths, book.formats, t, df, start,
                                      old(ws.cells), old(ws.tables), old(ws.widths), old(book.formats), ctx)
      ensures r.Ok? ==> (row, col) == LoadedCursor(t, df, start.0, old(col), ctx)
      ensures r.Ok? ==> TablePlaced(ws.cells, ws.tables, ws.widths, book.formats, t, df, start,
                                    old(ws.cells), old(ws.tables), old(ws.widths), old(book.formats), ctx)
    {
      var cursor := LoadedCursor(t, df, start.0, col, ctx);
      DrawTitle(t.title, start.0, start.1);
      ghost var titled := ws.cells;
      r := PlaceBody(t, df, start);
      if r.Err? {
        return;
      }
      ghost var bodied, tables1, widths1, formats1 := ws.cells, ws.tables, ws.widths, book.formats;
      WriteLines(ws, t.notes, start.0 + TitleRows(t.title) + 1 + NRows(df), start.1, FootnoteStyle(ctx.footnoteSize));
      assert ws.tables == tables1 && ws.widths == widths1 && book.formats == formats1;
      TitleAbove(ws.cells, bodied, titled, old(ws.cells), t.title, start, ctx.subtitleSize,
                 start.0 + TitleRows(t.title) + 1 + NRows(df), |t.notes|, start.1 + NCols(df));
      KeepHeaders(ws.cells, bodied, df.columns, start.0 + TitleRows(t.title), start.1,
                  start.0 + TitleRows(t.title) + 1 + NRows(df), start.0 + TitleRows(t.title) + 1 + NRows(df) + |t.notes|,
                  start.1, start.1 + 1);
      KeepBody(ws.cells, bodied, df, start.0 + TitleRows(t.title), start.1, book.formats, ctx.formats, ctx.search,
               start.0 + TitleRows(t.title) + 1 + NRows(df), start.0 + TitleRows(t.title) + 1 + NRows(df) + |t.notes|,
               start.1, start.1 + 1);
      FullTablePlaced(ws.cells, old(ws.cells), ws.tables, ws.widths, book.formats, t, df, start,
                      old(ws.tables), old(ws.widths), old(book.formats), ctx);
      row, col := cursor.0, cursor.1;
      r := Ok(());
    }

    /** One chart: its title at the start cell, the image below the title
        with its scales, then its notes at `chart_notes_start_cell`. The
        cursor ends where `ChartCursor` says: the image and the title never
        move it. */
    method PlaceChart(c: ChartConfig) returns (r: Result<()>)
      modifies this`row, this`col, ws`cells, ws`pictures
      ensures r.Ok? <==> ChartCursor(c, old(row), old(col), ctx).Ok?
      ensures r.Err? ==> r.error == ChartCursor(c, old(row), old(col), ctx).error
      ensures r.Ok? ==> (row, col) == ChartCursor(c, old(row), old(col), ctx).value
      ensures r.Ok? ==> ws.pictures == old(ws.pictures) + ChartPicturesOf(c, old(row), old(col), ctx)
      ensures r.Ok? ==> ChartDrawn(ws.cells, old(ws.cells), c, StartCell(c.startCell, old(row), old(col), ctx.parse), ctx)
      ensures r.Err? ==> (row, col) == (old(row), old(col))
      ensures r.Err? ==> TitleOnly(ws.cells, old(ws.cells), c.title, StartCell(c.startCell, old(row), old(col), ctx.parse))
      ensures r.Err? && ChartImage(c, ctx).Err? ==> ws.pictures == old(ws.pictures)
      ensures r.Err? && ChartImage(c, ctx).Ok? ==>
        ws.pictures == old(ws.pictures) +
                       [ChartPicture(c, StartCell(c.startCell, old(row), old(col), ctx.parse), ChartImage(c, ctx).value)]
    {
      var start := StartCell(c.startCell, row, col, ctx.parse);
      assert start == StartCell(c.startCell, old(row), old(col), ctx.parse);
      ghost var row0, col0, cells0 := row, col, ws.cells;
      DrawTitle(c.title, start.0, start.1);
      assert TitleOnly(ws.cells, cells0, c.title, start);
      var image :- ChartImage(c, ctx);
      r := PlaceImageAndNotes(c, start, image, cells0);
      ChartCursorRule(c, row0, col0, ctx, image, row, col, r.Ok?);
    }

    /** The image of a chart whose title is already drawn at `start`, below
        the title at its scales, then its notes. */
    method PlaceImageAndNotes(c: ChartConfig, start: (int, int), image: Returned, ghost cells0: map<(int, int), Entry>)
      returns (r: Result<()>)
      requires ChartImage(c, ctx) == Ok(image)
      requires TitleWritten(ws.cells, c.title, start.0, start.1, ctx.subtitleSize)
      requires TitleOnly(ws.cells, cells0, c.title, start)
      modifies this`row, this`col, ws`cells, ws`pictures
      ensures ws.pictures == old(ws.pictures) + [ChartPicture(c, start, image)]
      ensures NotesMoved(c, ctx, old(row), row, col, r.Ok?)
      ensures r.Ok? ==> ChartDrawn(ws.cells, cells0, c, start, ctx)
      ensures r.Err? ==> ws.cells == old(ws.cells) && (row, col) == (old(row), old(col))
      ensures r.Err? ==> TitleOnly(ws.cells, cells0, c.title, start)
      ensures r.Err? ==> r == Err(KeyError("chart_notes_start_cell"))
    {
      ws.InsertImage(start.0 + TitleRows(c.title), start.1, image, Scale(c.xScale), Scale(c.yScale));
      r := PlaceChartNotes(c, start, cells0);
    }

    /** A truthy table or chart title at (`s`, `k`). */
    method DrawTitle(title: string, s: int, k: int)
      modifies ws`cells
      ensures TitleWritten(ws.cells, title, s, k, ctx.subtitleSize)
      ensures !Truthy(title) ==> ws.cells == old(ws.cells)
      ensures ChangedOnly(ws.cells, old(ws.cells), s, s + TitleRows(title), k, k + 1)
    {
      if Truthy(title) {
        ws.Write(s, k, Text(title), SubtitleStyle(ctx.subtitleSize));
      }
    }

    /** The chart notes, when there are any, from `chart_notes_start_cell`
        down; the cursor then goes `spacing + 1` rows below the last note, or
        below the incoming row when there are no notes. `cells0` are the
        cells before the chart's title at `start` was written. */
    method PlaceChartNotes(c: ChartConfig, start: (int, int), ghost cells0: map<(int, int), Entry>) returns (r: Result<()>)
      requires TitleWritten(ws.cells, c.title, start.0, start.1, ctx.subtitleSize)
      requires ChangedOnly(ws.cells, cells0, start.0, start.0 + TitleRows(c.title), start.1, start.1 + 1)
      modifies this`row, this`col, ws`cells
      ensures |c.notes| > 0 && c.notesStartCell.None? ==> r == Err(KeyError("chart_notes_start_cell"))
      ensures |c.notes| == 0 ==> r.Ok? && (row, col) == (old(row) + 1 + ctx.spacing, 0) && ws.cells == old(ws.cells)
      ensures |c.notes| > 0 && c.notesStartCell.Some? ==>
        r.Ok? && (row, col) == (ctx.parse(c.notesStartCell.value).0 + |c.notes| + 1 + ctx.spacing, 0)
      ensures NotesMoved(c, ctx, old(row), row, col, r.Ok?)
      ensures r.Ok? ==> ChartDrawn(ws.cells, cells0, c, start, ctx)
      ensures r.Err? ==> ws.cells == old(ws.cells) && (row, col) == (old(row), old(col))
    {
      if |c.notes| > 0 {
        if c.notesStartCell.None? {
          return Err(KeyError("chart_notes_start_cell"));
        }
        var notesAt := ctx.parse(c.notesStartCell.value);
        ghost var titled := ws.cells;
        row := notesAt.0;
        WriteLines(ws, c.notes, row, notesAt.1, FootnoteStyle(ctx.footnoteSize));
        ChartPlacedRule(ws.cells, titled, cells0, c, start, notesAt, ctx);
        row := row + |c.notes|;
      }
      row := row + 1 + ctx.spacing;
      col := 0;
      r := Ok(());
    }

    /** The sheet footnotes, one per row in column 0 from the cursor down;
        then the cursor moves `spacing + 1` further down, to column 0. */
    method PlaceFootnotes(lines: seq<string>)
      modifies this`row, this`col, ws`cells
      ensures row == old(row) + |lines| + 1 + ctx.spacing && col == 0
      ensures LinesWritten(ws.cells, lines, old(row), 0, FootnoteStyle(ctx.footnoteSize))
      ensures ChangedOnly(ws.cells, old(ws.cells), old(row), old(row) + |lines|, 0, 1)
    {
      WriteLines(ws, lines, row, 0, FootnoteStyle(ctx.footnoteSize));
      row := row + |lines|;
      row := row + 1 + ctx.spacing;
      col := 0;
    }

    /** The native table of a non-empty frame below the title of `t` placed
        from `start`, then its formatted body and widths, then its header
        labels; the title cell above the header row is left as it was. A
        width that raises stops it after the native table, with no cell
        written. */
    method PlaceBody(t: TableConfig, df: DataFrame, start: (int, int)) returns (r: Result<()>)
      modifies ws`cells, ws`widths, ws`tables, book`formats
      ensures ws.tables == old(ws.tables) + [FullRegion(t, df, start, ctx)]
      ensures old(book.formats) <= book.formats && |book.formats| <= |old(book.formats)| + NCols(df)
      ensures r.Err? <==> FailingColumn(df, NCols(df), ctx.formats, t.columnWidths, ctx.search).Some?
      ensures r.Err? ==> r.error == AttributeError(NoNameMessage) && ws.cells == old(ws.cells)
      ensures r.Err? ==>
        WidthsAre(ws.widths, old(ws.widths), start.1, ColumnWidths(df, ctx.formats, t.columnWidths, ctx.search),
                  FailingColumn(df, NCols(df), ctx.formats, t.columnWidths, ctx.search).value)
      ensures r.Ok? ==> WidthsSet(ws.widths, old(ws.widths), df, start.1, ctx.formats, t.columnWidths, ctx.search)
      ensures r.Ok? ==> HeadersWritten(ws.cells, df.columns, start.0 + TitleRows(t.title), start.1)
      ensures r.Ok? ==> BodyWritten(ws.cells, df, start.0 + TitleRows(t.title), start.1, book.formats, ctx.formats, ctx.search)
      ensures r.Ok? ==> ChangedOnly(ws.cells, old(ws.cells), start.0 + TitleRows(t.title),
                                    start.0 + TitleRows(t.title) + 1 + NRows(df), start.1, start.1 + NCols(df))
    {
      var endRow, lastCol := ws.AddExcelTable(df, start.0 + TitleRows(t.title), start.1, t.style.GetOr(ctx.tableStyle));
      assert ws.tables == old(ws.tables) + [FullRegion(t, df, start, ctx)];
      r := SetColumnFormatsAndWidths(ws, df, start.0 + TitleRows(t.title), start.1, book, ctx.formats, t.columnWidths, ctx.search);
      if r.Err? {
        return;
      }
      var h := start.0 + TitleRows(t.title);
      LabelHeaders(df, h, start.1, old(ws.cells));
    }

    /** The header labels of a table whose body is already written below
        header row `h`, the cells having changed only in the body since
        `cells0`: afterwards only the header row and the body have changed. */
    method LabelHeaders(df: DataFrame, h: int, c: int, ghost cells0: map<(int, int), Entry>)
      requires BodyWritten(ws.cells, df, h, c, book.formats, ctx.formats, ctx.search)
      requires ChangedOnly(ws.cells, cells0, h + 1, h + 1 + NRows(df), c, c + NCols(df))
      modifies ws`cells
      ensures HeadersWritten(ws.cells, df.columns, h, c)
      ensures BodyWritten(ws.cells, df, h, c, book.formats, ctx.formats, ctx.search)
      ensures ChangedOnly(ws.cells, cells0, h, h + 1 + NRows(df), c, c + NCols(df))
    {
      ghost var formatted := ws.cells;
      WriteHeaders(ws, df.columns, h, c);
      ChangedWithin(ws.cells, formatted, cells0, h + 1, h + 1 + NRows(df), c, c + NCols(df),
                    h, h + 1, c, c + |df.columns|, h, h + 1 + NRows(df), c, c + NCols(df));
      KeepBody(ws.cells, formatted, df, h, c, book.formats, ctx.formats, ctx.search, h, h + 1, c, c + |df.columns|);
    }
  }
}
