/** `build_from_toml`: extend the interpreter's module search path, open the
    workbook, and lay out every configured sheet with a fresh cursor. TOML
    loading, path resolution and writing the file are the host's; the
    configuration arrives parsed and path resolution is a parameter. */
module Report {
  import opened Common
  import opened Formats
  import opened Sources
  import opened Workbooks
  import opened Layout

  /** The `[defaults]` table: every key optional. */
  datatype Defaults = Defaults(
    titleSize: Option<int>,       // "title_font_size"
    subtitleSize: Option<int>,    // "subtitle_font_size"
    footnoteSize: Option<int>,    // "footnote_font_size"
    tableStyle: Option<string>,   // "table_style"
    spacing: Option<int>)         // "spacing_rows"

  const DefaultTitleSize: int := 14
  const DefaultSubtitleSize: int := 12
  const DefaultFootnoteSize: int := 9
  const DefaultTableStyle: string := "Table Style Light 1"
  const DefaultSpacing: int := 2

  /** A `[[sheets]]` entry. Missing optional strings are "", missing lists
      are empty. */
  datatype SheetConfig = SheetConfig(
    name: Option<string>,
    header: string,
    footer: string,
    marking: string,              // "protective_marking"
    markingSpan: Option<int>,     // "protective_marking_span"
    title: string,
    tables: seq<TableConfig>,
    charts: seq<ChartConfig>,
    footnotes: seq<string>)

  /** The parsed configuration file. */
  datatype ReportConfig = ReportConfig(
    workbook: Option<Option<string>>,  // the "workbook" table, and its "output"
    defaults: Defaults,
    formats: FormatConfig,
    sheets: seq<SheetConfig>,
    pythonPath: seq<string>)      // "imports.pythonpath"

  /** The configuration has a `workbook` table holding an `output` path. */
  predicate HasOutput(cfg: ReportConfig) {
    cfg.workbook.Some? && cfg.workbook.value.Some?
  }

  /** The host of one build: data sources, regex search, A1 parsing, and how
      a `pythonpath` entry resolves against the base directory. */
  datatype Host = Host(env: Env, search: Search, parse: CellParser, resolve: string -> string)

  /** The context every sheet shares, with the documented defaults. */
  function ContextOf(cfg: ReportConfig, host: Host): (ctx: Context)
    ensures ctx.spacing == cfg.defaults.spacing.GetOr(DefaultSpacing)
    ensures cfg.defaults.spacing.None? ==> ctx.spacing == 2
    ensures cfg.defaults.titleSize.None? ==> ctx.titleSize == 14
    ensures cfg.defaults.subtitleSize.None? ==> ctx.subtitleSize == 12
    ensures cfg.defaults.footnoteSize.None? ==> ctx.footnoteSize == 9
    ensures cfg.defaults.tableStyle.None? ==> ctx.tableStyle == DefaultTableStyle
    ensures ctx.env == host.env && ctx.formats == cfg.formats
  {
    Context(host.env, host.search, host.parse, cfg.formats,
            cfg.defaults.titleSize.GetOr(DefaultTitleSize),
            cfg.defaults.subtitleSize.GetOr(DefaultSubtitleSize),
            cfg.defaults.footnoteSize.GetOr(DefaultFootnoteSize),
            cfg.defaults.tableStyle.GetOr(DefaultTableStyle),
            cfg.defaults.spacing.GetOr(DefaultSpacing))
  }

  // ---------------------------------------------------------------------
  // sys.path

  /** `sys.path` after inserting each entry at the front, in order, when it
      is not already present. */
  function Extended(path: seq<string>, entries: seq<string>): seq<string>
    decreases |entries|
  {
    if entries == [] then path
    else Extended(if entries[0] in path then path else [entries[0]] + path, entries[1..])
  }

  /** Nothing is lost and nothing but the entries is added. */
  lemma {:induction false} ExtendedContents(path: seq<string>, entries: seq<string>)
    ensures forall x :: x in Extended(path, entries) <==> x in path || x in entries
    decreases |entries|
  {
    if entries != [] {
      var next := if entries[0] in path then path else [entries[0]] + path;
      ExtendedContents(next, entries[1..]);
      assert entries == [entries[0]] + entries[1..];
    }
  }

  /** Entries only go in front: the old path is kept, in order, at the end. */
  lemma {:induction false} ExtendedKeepsPath(path: seq<string>, entries: seq<string>)
    ensures |Extended(path, entries)| >= |path|
    ensures Extended(path, entries)[|Extended(path, entries)| - |path|..] == path
    decreases |entries|
  {
    if entries != [] {
      var next := if entries[0] in path then path else [entries[0]] + path;
      ExtendedKeepsPath(next, entries[1..]);
      var e := Extended(next, entries[1..]);
      assert e[|e| - |next|..][|next| - |path|..] == path;
    }
  }

  /** A path that already holds every entry is left unchanged. */
  lemma {:induction false} ExtendedPresent(path: seq<string>, entries: seq<string>)
    requires forall x :: x in entries ==> x in path
    ensures Extended(path, entries) == path
    decreases |entries|
  {
    if entries != [] {
      ExtendedPresent(path, entries[1..]);
    }
  }

  /** Extending twice with the same entries is extending once. */
  lemma ExtendedIdempotent(path: seq<string>, entries: seq<string>)
    ensures Extended(Extended(path, entries), entries) == Extended(path, entries)
  {
    ExtendedContents(path, entries);
    ExtendedPresent(Extended(path, entries), entries);
  }

  predicate Distinct(s: seq<string>) {
    forall i, j :: 0 <= i < j < |s| ==> s[i] != s[j]
  }

  /** Insert-if-absent never creates a duplicate. */
  lemma {:induction false} ExtendedDistinct(path: seq<string>, entries: seq<string>)
    requires Distinct(path)
    ensures Distinct(Extended(path, entries))
    decreases |entries|
  {
    if entries != [] {
      var next := if entries[0] in path then path else [entries[0]] + path;
      if entries[0] !in path {
        forall i, j | 0 <= i < j < |next| ensures next[i] != next[j] {
          if i == 0 {
            assert next[j] == path[j - 1];
          }
        }
      }
      ExtendedDistinct(next, entries[1..]);
    }
  }

  /** The interpreter's module search path. */
  class Interpreter {
    var sysPath: seq<string>

    constructor(sysPath: seq<string>)
      ensures this.sysPath == sysPath
    {
      this.sysPath := sysPath;
    }

    /** The `imports.pythonpath` loop, on entries already resolved. */
    method ExtendSysPath(entries: seq<string>)
      modifies this`sysPath
      ensures sysPath == Extended(old(sysPath), entries)
    {
      var i := 0;
      while i < |entries|
        invariant 0 <= i <= |entries|
        invariant Extended(sysPath, entries[i..]) == Extended(old(sysPath), entries)
      {
        assert entries[i..][1..] == entries[i + 1..];
        if entries[i] !in sysPath {
          sysPath := [entries[i]] + sysPath;
        }
        i := i + 1;
      }
    }
  }

  /** `[resolve(p) for p in entries]` */
  function Resolved(entries: seq<string>, resolve: string -> string): (r: seq<string>)
    ensures |r| == |entries|
    ensures forall i :: 0 <= i < |entries| ==> r[i] == resolve(entries[i])
  {
    if entries == [] then [] else [resolve(entries[0])] + Resolved(entries[1..], resolve)
  }

  // ---------------------------------------------------------------------
  // Errors

  /** The first exception in `xs`, in order. */
  function FirstError<T>(xs: seq<T>, check: T -> Option<Exception>): (e: Option<Exception>)
    ensures e.None? <==> forall i :: 0 <= i < |xs| ==> check(xs[i]).None?
    ensures e.Some? ==> exists i :: 0 <= i < |xs| && e == check(xs[i]) &&
                                    forall j :: 0 <= j < i ==> check(xs[j]).None?
  {
    if xs == [] then None
    else if check(xs[0]).Some? then check(xs[0])
    else
      var e := FirstError(xs[1..], check);
      assert forall i :: 1 <= i < |xs| ==> xs[i] == xs[1..][i - 1];
      if e.Some? then
        var i :| 0 <= i < |xs[1..]| && e == check(xs[1..][i]) && forall j :: 0 <= j < i ==> check(xs[1..][j]).None?;
        assert e == check(xs[i + 1]);
        e
      else e
  }

  /** When the first `i` elements pass, the first error is that of the rest. */
  lemma {:induction false} FirstErrorSkip<T>(xs: seq<T>, i: nat, check: T -> Option<Exception>)
    requires i <= |xs| && FirstError(xs[..i], check).None?
    ensures FirstError(xs, check) == FirstError(xs[i..], check)
  {
    if i > 0 {
      assert xs[..i][1..] == xs[1..][..i - 1];
      assert check(xs[..i][0]).None?;
      FirstErrorSkip(xs[1..], i - 1, check);
      assert xs[1..][i - 1..] == xs[i..];
    }
  }

  function TableError(t: TableConfig, ctx: Context): Option<Exception> {
    var d := TableData(t, ctx);
    if d.Err? then Some(d.error) else WidthsError(t, d.value, ctx)
  }

  function ChartError(c: ChartConfig, ctx: Context): Option<Exception> {
    var image := ChartImage(c, ctx);
    if image.Err? then Some(image.error)
    else if |c.notes| > 0 && c.notesStartCell.None? then Some(KeyError("chart_notes_start_cell"))
    else None
  }

  /** Whether a table fails, and how, does not depend on where the cursor is. */
  lemma TableErrorIgnoresCursor(t: TableConfig, row: int, col: int, ctx: Context)
    ensures TableCursor(t, row, col, ctx).Err? <==> TableError(t, ctx).Some?
    ensures TableCursor(t, row, col, ctx).Err? ==> TableError(t, ctx) == Some(TableCursor(t, row, col, ctx).error)
  {
  }

  /** Whether a chart fails, and how, does not depend on where the cursor is. */
  lemma ChartErrorIgnoresCursor(c: ChartConfig, row: int, col: int, ctx: Context)
    ensures ChartCursor(c, row, col, ctx).Err? <==> ChartError(c, ctx).Some?
    ensures ChartCursor(c, row, col, ctx).Err? ==> ChartError(c, ctx) == Some(ChartCursor(c, row, col, ctx).error)
  {
  }

  /** The first error of `xs` followed by `x`: that of `xs`, else `x`'s. */
  lemma {:induction false} FirstErrorSnoc<T>(xs: seq<T>, x: T, check: T -> Option<Exception>)
    ensures FirstError(xs + [x], check) == if FirstError(xs, check).Some? then FirstError(xs, check) else check(x)
    decreases |xs|
  {
    if xs != [] {
      assert (xs + [x])[1..] == xs[1..] + [x];
      FirstErrorSnoc(xs[1..], x, check);
    }
  }

  /** Placing tables in order fails exactly with the first table error,
      wherever the cursor starts. */
  lemma {:induction false} TablesCursorError(ts: seq<TableConfig>, row: int, col: int, ctx: Context)
    ensures TablesCursor(ts, row, col, ctx).Err? <==> FirstError(ts, t => TableError(t, ctx)).Some?
    ensures TablesCursor(ts, row, col, ctx).Err? ==>
      Some(TablesCursor(ts, row, col, ctx).error) == FirstError(ts, t => TableError(t, ctx))
    decreases |ts|
  {
    if ts != [] {
      var init := ts[..|ts| - 1];
      assert ts == init + [ts[|ts| - 1]];
      TablesCursorError(init, row, col, ctx);
      FirstErrorSnoc(init, ts[|ts| - 1], t => TableError(t, ctx));
      var p := TablesCursor(init, row, col, ctx);
      if p.Ok? {
        TableErrorIgnoresCursor(ts[|ts| - 1], p.value.0, p.value.1, ctx);
      }
    }
  }

  /** Placing charts in order fails exactly with the first chart error. */
  lemma {:induction false} ChartsCursorError(cs: seq<ChartConfig>, row: int, col: int, ctx: Context)
    ensures ChartsCursor(cs, row, col, ctx).Err? <==> FirstError(cs, c => ChartError(c, ctx)).Some?
    ensures ChartsCursor(cs, row, col, ctx).Err? ==>
      Some(ChartsCursor(cs, row, col, ctx).error) == FirstError(cs, c => ChartError(c, ctx))
    decreases |cs|
  {
    if cs != [] {
      var init := cs[..|cs| - 1];
      assert cs == init + [cs[|cs| - 1]];
      ChartsCursorError(init, row, col, ctx);
      FirstErrorSnoc(init, cs[|cs| - 1], c => ChartError(c, ctx));
      var p := ChartsCursor(init, row, col, ctx);
      if p.Ok? {
        ChartErrorIgnoresCursor(cs[|cs| - 1], p.value.0, p.value.1, ctx);
      }
    }
  }

  /** The exception a sheet raises, if any: a missing name, then its tables
      in order, then its charts in order. */
  function SheetError(sheet: SheetConfig, ctx: Context): Option<Exception> {
    if sheet.name.None? then Some(KeyError("name"))
    else
      var te := FirstError(sheet.tables, t => TableError(t, ctx));
      if te.Some? then te else FirstError(sheet.charts, c => ChartError(c, ctx))
  }

  // ---------------------------------------------------------------------
  // What a sheet holds

  /** The rows the protective marking and the sheet title take above the
      first table: two each, when truthy. */
  function HeadingRows(sheet: SheetConfig): int {
    (if Truthy(sheet.marking) then 2 else 0) + (if Truthy(sheet.title) then 2 else 0)
  }

  /** The cursor after the tables and then the charts of a sheet, where its
      footnotes start; or the first exception. */
  function SheetCursor(sheet: SheetConfig, ctx: Context): Result<(int, int)> {
    var p :- TablesCursor(sheet.tables, HeadingRows(sheet), 0, ctx);
    ChartsCursor(sheet.charts, p.0, p.1, ctx)
  }

  /** The native tables of a sheet, in order. */
  function SheetTables(sheet: SheetConfig, ctx: Context): seq<TableRegion> {
    TablesRegions(sheet.tables, HeadingRows(sheet), 0, ctx)
  }

  /** The chart images of a sheet, in order. */
  function SheetPictures(sheet: SheetConfig, ctx: Context): seq<Picture> {
    var p := TablesCursor(sheet.tables, HeadingRows(sheet), 0, ctx);
    if p.Err? then [] else ChartsPictures(sheet.charts, p.value.0, p.value.1, ctx)
  }

  /** A named sheet raises exactly when laying out its tables and charts
      does, with the same exception. */
  lemma SheetCursorError(sheet: SheetConfig, ctx: Context)
    requires sheet.name.Some?
    ensures SheetError(sheet, ctx).None? <==> SheetCursor(sheet, ctx).Ok?
    ensures SheetCursor(sheet, ctx).Err? ==> SheetError(sheet, ctx) == Some(SheetCursor(sheet, ctx).error)
  {
    TablesCursorError(sheet.tables, HeadingRows(sheet), 0, ctx);
    var p := TablesCursor(sheet.tables, HeadingRows(sheet), 0, ctx);
    if p.Ok? {
      ChartsCursorError(sheet.charts, p.value.0, p.value.1, ctx);
    }
  }

  /** A sheet that builds holds at most one native table per configured
      table and exactly one image per configured chart. */
  lemma SheetCounts(sheet: SheetConfig, ctx: Context)
    requires SheetCursor(sheet, ctx).Ok?
    ensures |SheetTables(sheet, ctx)| <= |sheet.tables|
    ensures |SheetPictures(sheet, ctx)| == |sheet.charts|
  {
    TablesRegionsCount(sheet.tables, HeadingRows(sheet), 0, ctx);
    var p := TablesCursor(sheet.tables, HeadingRows(sheet), 0, ctx).value;
    ChartsPicturesCount(sheet.charts, p.0, p.1, ctx);
  }

  // ---------------------------------------------------------------------
  // The build

  /** Lays out the tables of a sheet in order, each at the cursor the
      previous one left. The column is 0 before and after every table: the
      empty-table branch, which keeps the column rather than resetting it,
      never sees another column. */
  method PlaceTables(layout: SheetLayout, tables: seq<TableConfig>) returns (r: Result<()>)
    requires layout.col == 0
    modifies layout`row, layout`col, layout.ws`cells, layout.ws`widths, layout.ws`tables, layout.book`formats
    ensures r.Err? <==> FirstError(tables, t => TableError(t, layout.ctx)).Some?
    ensures r.Err? ==> Some(r.error) == FirstError(tables, t => TableError(t, layout.ctx))
    ensures r.Ok? <==> TablesCursor(tables, old(layout.row), 0, layout.ctx).Ok?
    ensures r.Err? ==> r.error == TablesCursor(tables, old(layout.row), 0, layout.ctx).error
    ensures r.Ok? ==> (layout.row, layout.col) == TablesCursor(tables, old(layout.row), 0, layout.ctx).value
    ensures r.Ok? ==> layout.col == 0
    ensures layout.ws.tables == old(layout.ws.tables) + TablesRegions(tables, old(layout.row), 0, layout.ctx)
  {
    var i := 0;
    while i < |tables|
      invariant 0 <= i <= |tables|
      invariant layout.col == 0
      invariant TablesCursor(tables[..i], old(layout.row), 0, layout.ctx) == Ok((layout.row, layout.col))
      invariant layout.ws.tables == old(layout.ws.tables) + TablesRegions(tables[..i], old(layout.row), 0, layout.ctx)
    {
      var step := PlaceNextTable(layout, tables, i, old(layout.row), old(layout.ws.tables));
      if step.Err? {
        TablesCursorError(tables, old(layout.row), 0, layout.ctx);
        return Err(step.error);
      }
      i := i + 1;
    }
    assert tables[..i] == tables;
    TablesCursorError(tables, old(layout.row), 0, layout.ctx);
    r := Ok(());
  }

  /** Table `i` of `PlaceTables`, the tables before it placed from row
      `row0` onto the regions `tables0`: both folds extend by it, or its
      exception is that of the whole sequence. */
  method PlaceNextTable(layout: SheetLayout, tables: seq<TableConfig>, i: nat, ghost row0: int,
                        ghost tables0: seq<TableRegion>) returns (r: Result<()>)
    requires i < |tables| && layout.col == 0
    requires TablesCursor(tables[..i], row0, 0, layout.ctx) == Ok((layout.row, layout.col))
    requires layout.ws.tables == tables0 + TablesRegions(tables[..i], row0, 0, layout.ctx)
    modifies layout`row, layout`col, layout.ws`cells, layout.ws`widths, layout.ws`tables, layout.book`formats
    ensures r.Ok? ==> layout.col == 0
    ensures r.Ok? ==> TablesCursor(tables[..i + 1], row0, 0, layout.ctx) == Ok((layout.row, layout.col))
    ensures r.Ok? ==> layout.ws.tables == tables0 + TablesRegions(tables[..i + 1], row0, 0, layout.ctx)
    ensures r.Err? ==> TablesCursor(tables, row0, 0, layout.ctx) == Err(r.error)
    ensures r.Err? ==> layout.ws.tables == tables0 + TablesRegions(tables, row0, 0, layout.ctx)
  {
    TablesStep(tables, i, row0, 0, layout.ctx);
    ghost var row1 := layout.row;
    r := layout.PlaceTable(tables[i]);
    if r.Err? {
      TablesAfterError(tables, i + 1, row0, 0, layout.ctx);
      return;
    }
    TableCursorColumn(tables[i], row1, 0, layout.ctx);
  }

  /** One step of a loop over `xs` that stops at the first error: past a
      passing prefix, a failing element is the first error of the whole
      sequence, and a passing one extends the passing prefix. */
  lemma FirstErrorStep<T>(xs: seq<T>, i: nat, check: T -> Option<Exception>)
    requires i < |xs| && FirstError(xs[..i], check).None?
    ensures check(xs[i]).Some? ==> FirstError(xs, check) == check(xs[i])
    ensures check(xs[i]).None? ==> FirstError(xs[..i + 1], check).None?
  {
    if check(xs[i]).Some? {
      FirstErrorSkip(xs, i, check);
      assert xs[i..][0] == xs[i];
    } else {
      assert xs[..i + 1] == xs[..i] + [xs[i]];
      FirstErrorSnoc(xs[..i], xs[i], check);
    }
  }

  /** A loop over `xs` that ran to the end without an error saw none. */
  lemma FirstErrorDone<T>(xs: seq<T>, i: nat, check: T -> Option<Exception>)
    requires i == |xs| && FirstError(xs[..i], check).None?
    ensures FirstError(xs, check).None?
  {
    assert xs[..i] == xs;
  }

  /** Lays out the charts of a sheet in order. */
  method PlaceCharts(layout: SheetLayout, charts: seq<ChartConfig>) returns (r: Result<()>)
    modifies layout`row, layout`col, layout.ws`cells, layout.ws`pictures
    ensures r.Err? <==> FirstError(charts, c => ChartError(c, layout.ctx)).Some?
    ensures r.Err? ==> Some(r.error) == FirstError(charts, c => ChartError(c, layout.ctx))
    ensures r.Ok? <==> ChartsCursor(charts, old(layout.row), old(layout.col), layout.ctx).Ok?
    ensures r.Err? ==> r.error == ChartsCursor(charts, old(layout.row), old(layout.col), layout.ctx).error
    ensures r.Ok? ==> (layout.row, layout.col) == ChartsCursor(charts, old(layout.row), old(layout.col), layout.ctx).value
    ensures r.Ok? ==>
      layout.ws.pictures == old(layout.ws.pictures) + ChartsPictures(charts, old(layout.row), old(layout.col), layout.ctx)
  {
    var i := 0;
    while i < |charts|
      invariant 0 <= i <= |charts|
      invariant ChartsCursor(charts[..i], old(layout.row), old(layout.col), layout.ctx) == Ok((layout.row, layout.col))
      invariant layout.ws.pictures ==
        old(layout.ws.pictures) + ChartsPictures(charts[..i], old(layout.row), old(layout.col), layout.ctx)
    {
      ChartsStep(charts, i, old(layout.row), old(layout.col), layout.ctx);
      var step := layout.PlaceChart(charts[i]);
      if step.Err? {
        ChartsAfterError(charts, i + 1, old(layout.row), old(layout.col), layout.ctx);
        ChartsCursorError(charts, old(layout.row), old(layout.col), layout.ctx);
        return Err(step.error);
      }
      i := i + 1;
    }
    assert charts[..i] == charts;
    ChartsCursorError(charts, old(layout.row), old(layout.col), layout.ctx);
    r := Ok(());
  }

  /** What a sheet that builds holds besides its name, header and footer:
      its native tables and images in order, and its footnotes where the
      cursor stood after the charts. */
  ghost predicate SheetBuilt(ws: Worksheet, sheet: SheetConfig, ctx: Context)
    reads ws
  {
    && SheetCursor(sheet, ctx).Ok?
    && ws.tables == SheetTables(sheet, ctx)
    && ws.pictures == SheetPictures(sheet, ctx)
    && LinesWritten(ws.cells, sheet.footnotes, SheetCursor(sheet, ctx).value.0, 0, FootnoteStyle(ctx.footnoteSize))
  }

  /** Marking, title, tables, charts and footnotes of one sheet, from a
      cursor at (0, 0) on a blank worksheet. */
  method LayOutSheet(layout: SheetLayout, sheet: SheetConfig) returns (r: Result<()>)
    requires layout.row == 0 && layout.col == 0 && layout.ws.tables == [] && layout.ws.pictures == []
    modifies layout`row, layout`col, layout.ws`cells, layout.ws`widths, layout.ws`heights, layout.ws`tables,
             layout.ws`pictures, layout.book`formats
    ensures r.Err? <==> SheetCursor(sheet, layout.ctx).Err?
    ensures r.Err? ==> r.error == SheetCursor(sheet, layout.ctx).error
    ensures r.Ok? ==> SheetBuilt(layout.ws, sheet, layout.ctx)
  {
    layout.PlaceMarking(sheet.marking, sheet.markingSpan);
    layout.PlaceTitle(sheet.title);
    r := LayOutBody(layout, sheet);
  }

  /** Tables, charts and footnotes of one sheet, below its heading rows. */
  method LayOutBody(layout: SheetLayout, sheet: SheetConfig) returns (r: Result<()>)
    requires layout.row == HeadingRows(sheet) && layout.col == 0 && layout.ws.tables == [] && layout.ws.pictures == []
    modifies layout`row, layout`col, layout.ws`cells, layout.ws`widths, layout.ws`tables, layout.ws`pictures,
             layout.book`formats
    ensures r.Err? <==> SheetCursor(sheet, layout.ctx).Err?
    ensures r.Err? ==> r.error == SheetCursor(sheet, layout.ctx).error
    ensures r.Ok? ==> SheetBuilt(layout.ws, sheet, layout.ctx)
  {
    var tablesDone := PlaceTables(layout, sheet.tables);
    if tablesDone.Err? {
      return Err(tablesDone.error);
    }
    var chartsDone := PlaceCharts(layout, sheet.charts);
    if chartsDone.Err? {
      return Err(chartsDone.error);
    }
    layout.PlaceFootnotes(sheet.footnotes);
    r := Ok(());
  }

  /** One sheet: a new worksheet with its header and footer, then its
      contents laid out from a cursor at (0, 0). */
  method BuildSheet(book: Workbook, ctx: Context, sheet: SheetConfig) returns (r: Result<Worksheet>)
    modifies book`sheets, book`formats
    ensures r.Err? <==> SheetError(sheet, ctx).Some?
    ensures r.Err? ==> Some(r.error) == SheetError(sheet, ctx)
    ensures r.Ok? ==>
      && book.sheets == old(book.sheets) + [r.value]
      && sheet.name == Some(r.value.name)
      && r.value.header == sheet.header && r.value.footer == sheet.footer
    ensures r.Ok? ==> SheetBuilt(r.value, sheet, ctx)
  {
    if sheet.name.None? {
      return Err(KeyError("name"));
    }
    var ws := book.AddWorksheet(sheet.name.value);
    if Truthy(sheet.header) {
      ws.SetHeader(sheet.header);
    }
    if Truthy(sheet.footer) {
      ws.SetFooter(sheet.footer);
    }
    var layout := new SheetLayout(ws, book, ctx);
    SheetCursorError(sheet, ctx);
    var done := LayOutSheet(layout, sheet);
    if done.Err? {
      return Err(done.error);
    }
    r := Ok(ws);
  }

  /** `build_from_toml`: the search path is extended first, so even a
      configuration without `workbook.output` extends it; then the output is
      looked up, the `workbook` table first; then every sheet is built in order,
      and the first exception aborts the build. */
  method Build(cfg: ReportConfig, host: Host, interp: Interpreter) returns (r: Result<Workbook>)
    modifies interp`sysPath
    ensures interp.sysPath == Extended(old(interp.sysPath), Resolved(cfg.pythonPath, host.resolve))
    ensures cfg.workbook.None? ==> r == Err(KeyError("workbook"))
    ensures cfg.workbook == Some(None) ==> r == Err(KeyError("output"))
    ensures HasOutput(cfg) ==>
      (r.Err? <==> FirstError(cfg.sheets, s => SheetError(s, ContextOf(cfg, host))).Some?)
    ensures r.Err? && HasOutput(cfg) ==>
      Some(r.error) == FirstError(cfg.sheets, s => SheetError(s, ContextOf(cfg, host)))
    ensures r.Ok? ==> fresh(r.value) && |r.value.sheets| == |cfg.sheets|
    ensures r.Ok? ==> forall i :: 0 <= i < |cfg.sheets| ==> cfg.sheets[i].name == Some(r.value.sheets[i].name)
    ensures r.Ok? ==> forall i {:trigger SheetBuilt(r.value.sheets[i], cfg.sheets[i], ContextOf(cfg, host))} ::
      0 <= i < |cfg.sheets| ==> SheetBuilt(r.value.sheets[i], cfg.sheets[i], ContextOf(cfg, host))
  {
    interp.ExtendSysPath(Resolved(cfg.pythonPath, host.resolve));
    if cfg.workbook.None? {
      return Err(KeyError("workbook"));
    } else if cfg.workbook.value.None? {
      return Err(KeyError("output"));
    }
    var ctx := ContextOf(cfg, host);
    var book := new Workbook();
    var built := BuildSheets(book, ctx, cfg.sheets);
    if built.Err? {
      return Err(built.error);
    }
    r := Ok(book);
  }

  /** Every sheet in order into `book`, which starts without sheets; the
      first exception stops the loop. */
  method BuildSheets(book: Workbook, ctx: Context, sheets: seq<SheetConfig>) returns (r: Result<()>)
    requires book.sheets == []
    modifies book`sheets, book`formats
    ensures r.Err? <==> FirstError(sheets, s => SheetError(s, ctx)).Some?
    ensures r.Err? ==> Some(r.error) == FirstError(sheets, s => SheetError(s, ctx))
    ensures r.Ok? ==> |book.sheets| == |sheets|
    ensures r.Ok? ==> forall i :: 0 <= i < |sheets| ==> sheets[i].name == Some(book.sheets[i].name)
    ensures r.Ok? ==> forall i {:trigger SheetBuilt(book.sheets[i], sheets[i], ctx)} :: 0 <= i < |sheets| ==>
      SheetBuilt(book.sheets[i], sheets[i], ctx)
  {
    var i := 0;
    while i < |sheets|
      invariant 0 <= i <= |sheets|
      invariant |book.sheets| == i
      invariant forall k :: 0 <= k < i ==> sheets[k].name == Some(book.sheets[k].name)
      invariant forall k {:trigger SheetBuilt(book.sheets[k], sheets[k], ctx)} :: 0 <= k < i ==>
        SheetBuilt(book.sheets[k], sheets[k], ctx)
      invariant FirstError(sheets[..i], s => SheetError(s, ctx)).None?
    {
      FirstErrorStep(sheets, i, s => SheetError(s, ctx));
      var next := BuildNext(book, ctx, sheets, i);
      if next.Err? {
        return next;
      }
      i := i + 1;
    }
    FirstErrorDone(sheets, i, s => SheetError(s, ctx));
    r := Ok(());
  }

  /** One turn of the sheet loop: sheet `i` joins the `i` sheets already
      built, or its exception ends the loop. */
  method BuildNext(book: Workbook, ctx: Context, sheets: seq<SheetConfig>, i: nat) returns (r: Result<()>)
    requires i < |sheets| && |book.sheets| == i
    requires forall k :: 0 <= k < i ==> sheets[k].name == Some(book.sheets[k].name)
    requires forall k {:trigger SheetBuilt(book.sheets[k], sheets[k], ctx)} :: 0 <= k < i ==>
      SheetBuilt(book.sheets[k], sheets[k], ctx)
    modifies book`sheets, book`formats
    ensures r.Err? <==> SheetError(sheets[i], ctx).Some?
    ensures r.Err? ==> Some(r.error) == SheetError(sheets[i], ctx)
    ensures r.Ok? ==> |book.sheets| == i + 1
    ensures r.Ok? ==> forall k :: 0 <= k < i + 1 ==> sheets[k].name == Some(book.sheets[k].name)
    ensures r.Ok? ==> forall k {:trigger SheetBuilt(book.sheets[k], sheets[k], ctx)} :: 0 <= k < i + 1 ==>
      SheetBuilt(book.sheets[k], sheets[k], ctx)
  {
    ghost var built := book.sheets;
    var sheet := BuildSheet(book, ctx, sheets[i]);
    if sheet.Err? {
      return Err(sheet.error);
    }
    BuiltExtends(book.sheets, built, sheets, i, ctx);
    r := Ok(());
  }

  /** The worksheets built for the sheets before `i`, followed by the one
      built for sheet `i`, are built for the sheets up to `i`. */
  lemma BuiltExtends(all: seq<Worksheet>, built: seq<Worksheet>, sheets: seq<SheetConfig>, i: nat, ctx: Context)
    requires i < |sheets| && |all| == i + 1 && all[..i] == built
    requires forall k :: 0 <= k < i ==> sheets[k].name == Some(built[k].name)
    requires forall k {:trigger SheetBuilt(built[k], sheets[k], ctx)} :: 0 <= k < i ==>
      SheetBuilt(built[k], sheets[k], ctx)
    requires sheets[i].name == Some(all[i].name) && SheetBuilt(all[i], sheets[i], ctx)
    ensures forall k :: 0 <= k < i + 1 ==> sheets[k].name == Some(all[k].name)
    ensures forall k {:trigger SheetBuilt(all[k], sheets[k], ctx)} :: 0 <= k < i + 1 ==>
      SheetBuilt(all[k], sheets[k], ctx)
  {
    forall k | 0 <= k < i
      ensures all[k] == built[k]
    {
    }
  }
}
