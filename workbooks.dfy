/** The workbook as the report builder changes it: each worksheet records the
    cells written (last write wins), column widths, row heights, table regions,
    inserted pictures and header/footer; the workbook records the format
    objects created for column number formats. */
module Workbooks {
  import opened Common
  import opened Frames
  import opened Formats
  import opened Sources

  /** The format a cell is written with. The fixed formats carry the font size
      the configuration chose; `NumberStyle` is a column format object, by its
      position in `Workbook.formats`. */
  datatype Style =
    | Plain
    | TitleStyle(titleSize: int)
    | SubtitleStyle(subtitleSize: int)
    | FootnoteStyle(footnoteSize: int)
    | MarkingStyle
    | HeaderStyle
    | NumberStyle(handle: nat)

  datatype Value = Text(text: string) | Datum(cell: Cell) | Blank

  datatype Entry = Entry(value: Value, style: Style)

  /** A native Excel table region: inclusive corners, header labels, data
      (missing values are blank cells) and the table style. */
  datatype TableRegion = TableRegion(
    firstRow: int, firstCol: int, lastRow: int, lastCol: int,
    headers: seq<string>, data: seq<seq<Cell>>, style: string)

  datatype Picture = Picture(row: int, col: int, image: Returned, xScale: real, yScale: real)

  class Workbook {
    /** The arguments of every `add_format` call made for a column format. */
    var formats: seq<FormatArgs>
    var sheets: seq<Worksheet>

    constructor()
      ensures formats == [] && sheets == []
    {
      formats := [];
      sheets := [];
    }

    method AddWorksheet(name: string) returns (ws: Worksheet)
      modifies this`sheets
      ensures fresh(ws) && ws.name == name && ws.IsBlank()
      ensures sheets == old(sheets) + [ws]
    {
      ws := new Worksheet(name);
      sheets := sheets + [ws];
    }
  }

  class Worksheet {
    const name: string
    var cells: map<(int, int), Entry>
    var widths: map<int, int>
    var heights: map<int, int>
    var tables: seq<TableRegion>
    var pictures: seq<Picture>
    var header: string
    var footer: string

    predicate IsBlank()
      reads this
    {
      cells == map[] && widths == map[] && heights == map[] && tables == [] && pictures == [] &&
      header == "" && footer == ""
    }

    constructor(name: string)
      ensures this.name == name && IsBlank()
    {
      this.name := name;
      cells, widths, heights := map[], map[], map[];
      tables, pictures := [], [];
      header, footer := "", "";
    }

    /** `worksheet.write` / `write_blank` */
    method Write(row: int, col: int, value: Value, style: Style)
      modifies this`cells
      ensures cells == old(cells)[(row, col) := Entry(value, style)]
    {
      cells := cells[(row, col) := Entry(value, style)];
    }

    /** `worksheet.set_column(col, col, width)` */
    method SetColumn(col: int, width: int)
      modifies this`widths
      ensures widths == old(widths)[col := width]
    {
      widths := widths[col := width];
    }

    /** `worksheet.set_row(row, height)` */
    method SetRow(row: int, height: int)
      modifies this`heights
      ensures heights == old(heights)[row := height]
    {
      heights := heights[row := height];
    }

    /** `worksheet.insert_image` at a cell. */
    method InsertImage(row: int, col: int, image: Returned, xScale: real, yScale: real)
      modifies this`pictures
      ensures pictures == old(pictures) + [Picture(row, col, image, xScale, yScale)]
    {
      pictures := pictures + [Picture(row, col, image, xScale, yScale)];
    }

    method SetHeader(text: string)
      modifies this`header
      ensures header == text
    {
      header := text;
    }

    method SetFooter(text: string)
      modifies this`footer
      ensures footer == text
    {
      footer := text;
    }

    /** `add_excel_table`: one table region with the header at `startRow` and
        the data below it; returns the inclusive bottom-right corner. */
    method AddExcelTable(df: DataFrame, startRow: int, startCol: int, style: string)
      returns (endRow: int, endCol: int)
      modifies this`tables
      ensures endRow == startRow + NRows(df)
      ensures endCol == startCol + NCols(df) - 1
      ensures tables == old(tables) + [TableRegion(startRow, startCol, endRow, endCol, df.columns, df.rows, style)]
    {
      var nrows, ncols := |df.rows|, |df.columns|;
      var lastRow := startRow + nrows;
      var lastCol := startCol + ncols - 1;
      tables := tables + [TableRegion(startRow, startCol, lastRow, lastCol, df.columns, df.rows, style)];
      endRow, endCol := lastRow, lastCol;
    }
  }

  /** `fmt_cache` with `get_format_obj`: format objects by cache key, each
      created once per cache. */
  class FormatCache {
    const book: Workbook
    const cfg: FormatConfig
    var cache: map<string, nat>

    /** Every cached handle names a format of the workbook, and (when the
        "__default__" key is unambiguous) the one its key calls for. */
    ghost predicate Valid()
      reads this, book
    {
      forall k :: k in cache ==>
        cache[k] < |book.formats| &&
        (Unambiguous(cfg) ==> book.formats[cache[k]] == KeyArgs(k, cfg))
    }

    constructor(book: Workbook, cfg: FormatConfig)
      ensures this.book == book && this.cfg == cfg && cache == map[] && Valid()
    {
      this.book := book;
      this.cfg := cfg;
      cache := map[];
    }

    /** `get_format_obj(fmt_name)`: a cache hit returns the cached object; a
        miss builds one from `SpecFor`, appends it to the workbook's formats
        and caches it. */
    method Get(fmtName: Option<string>) returns (h: nat)
      requires Valid()
      modifies this`cache, book`formats
      ensures Valid()
      ensures cache == old(cache)[CacheKey(fmtName) := h]
      ensures CacheKey(fmtName) in old(cache) ==>
        h == old(cache)[CacheKey(fmtName)] && book.formats == old(book.formats)
      ensures CacheKey(fmtName) !in old(cache) ==>
        h == |old(book.formats)| && book.formats == old(book.formats) + [BuildFormat(SpecFor(fmtName, cfg))]
      ensures h < |book.formats|
      ensures Unambiguous(cfg) ==> book.formats[h] == BuildFormat(SpecFor(fmtName, cfg))
    {
      var key := CacheKey(fmtName);
      if key in cache {
        h := cache[key];
      } else {
        h := |book.formats|;
        book.formats := book.formats + [BuildFormat(SpecFor(fmtName, cfg))];
        cache := cache[key := h];
      }
      if Unambiguous(cfg) {
        KeyArgsOfName(fmtName, cfg);
      }
    }
  }

  /** Rows and columns of the data body of a table whose header is at
      (`startRow`, `startCol`). */
  predicate InBody(p: (int, int), df: DataFrame, startRow: int, startCol: int) {
    startRow + 1 <= p.0 < startRow + 1 + NRows(df) && startCol <= p.1 < startCol + NCols(df)
  }

  /** Rows `r0 .. r1 - 1` by columns `c0 .. c1 - 1`. */
  predicate InRect(p: (int, int), r0: int, r1: int, c0: int, c1: int) {
    r0 <= p.0 < r1 && c0 <= p.1 < c1
  }

  /** `cells` is `old0` with cells added or replaced only inside the
      rectangle. */
  ghost predicate ChangedOnly(cells: map<(int, int), Entry>, old0: map<(int, int), Entry>,
                              r0: int, r1: int, c0: int, c1: int) {
    && (forall p {:trigger InRect(p, r0, r1, c0, c1)} :: p in cells ==> p in old0 || InRect(p, r0, r1, c0, c1))
    && (forall p {:trigger InRect(p, r0, r1, c0, c1)} :: p in old0 ==> p in cells && (InRect(p, r0, r1, c0, c1) || cells[p] == old0[p]))
  }

  /** The body of `df` sits below its header row, each value with its
      column's format object. */
  ghost predicate BodyWritten(cells: map<(int, int), Entry>, df: DataFrame, headerRow: int, col: int,
                              formats: seq<FormatArgs>, cfg: FormatConfig, search: Search) {
    forall p {:trigger InBody(p, df, headerRow, col)} :: InBody(p, df, headerRow, col) ==>
      p in cells && BodyCell(cells[p], p, df, headerRow, col, formats, cfg, search)
  }

  /** The format name the matchers give column `j`. */
  function ColumnFormatName(df: DataFrame, j: nat, cfg: FormatConfig, search: Search): Option<string>
    requires j < NCols(df)
  {
    InferFormatName(df.columns[j], cfg.matchers, None, search)
  }

  /** The width set for column `j`. */
  function WidthOf(df: DataFrame, j: nat, cfg: FormatConfig, overrides: map<string, int>, search: Search): int
    requires j < NCols(df)
  {
    ColumnWidth(df.columns[j], ColumnFormatName(df, j, cfg, search), overrides, cfg, ColumnValues(df, j))
  }

  /** What pandas raises when `name` is read from the frame that indexing a
      frame by a label naming several columns returns. */
  const NoNameMessage := "'DataFrame' object has no attribute 'name'"

  /** Computing column `j`'s width raises: the column reaches
      `autosize_width`, whose `df[col]` is a frame when the label names
      several columns, and reading that frame's `name` raises AttributeError
      unless some column is labelled "name" (pandas then returns that
      column instead). */
  predicate WidthFails(df: DataFrame, j: nat, cfg: FormatConfig, overrides: map<string, int>, search: Search)
    requires j < NCols(df)
  {
    && Autosized(df.columns[j], ColumnFormatName(df, j, cfg, search), overrides, cfg)
    && Repeated(df.columns, j)
    && "name" !in df.columns
  }

  /** The label at position `j` also sits at another position. */
  predicate Repeated(labels: seq<string>, j: nat)
    requires j < |labels|
  {
    labels[j] in labels[..j] || labels[j] in labels[j + 1..]
  }

  /** The first index below `n` at which `flags` is set, if any. */
  function FirstSet(flags: seq<bool>, n: nat): (r: Option<nat>)
    requires n <= |flags|
    ensures r.Some? ==> r.value < n
  {
    if n == 0 then None
    else
      var r := FirstSet(flags, n - 1);
      if r.Some? then r
      else if flags[n - 1] then Some(n - 1)
      else None
  }

  /** `FirstSet` finds a set flag, and no flag before it is set; when it
      finds none, no flag below `n` is set. */
  lemma {:induction false} FirstSetIsFirst(flags: seq<bool>, n: nat)
    requires n <= |flags|
    ensures FirstSet(flags, n).Some? ==> flags[FirstSet(flags, n).value]
    ensures forall k :: 0 <= k < n && (FirstSet(flags, n).None? || k < FirstSet(flags, n).value) ==> !flags[k]
  {
    if n > 0 {
      FirstSetIsFirst(flags, n - 1);
    }
  }

  /** For each column of `df`, whether computing its width raises. */
  function WidthFailures(df: DataFrame, cfg: FormatConfig, overrides: map<string, int>, search: Search): seq<bool> {
    seq(NCols(df), j requires 0 <= j < NCols(df) => WidthFails(df, j, cfg, overrides, search))
  }

  /** The first of the first `n` columns whose width raises, if any. */
  function FailingColumn(df: DataFrame, n: nat, cfg: FormatConfig, overrides: map<string, int>,
                         search: Search): (r: Option<nat>)
    requires n <= NCols(df)
    ensures r.Some? ==> r.value < n
  {
    FirstSet(WidthFailures(df, cfg, overrides, search), n)
  }

  /** `FailingColumn` finds a column whose width raises, and no column
      before it raises; when it finds none, no column raises. */
  lemma FailingColumnIsFirst(df: DataFrame, n: nat, cfg: FormatConfig, overrides: map<string, int>, search: Search)
    requires n <= NCols(df)
    ensures var r := FailingColumn(df, n, cfg, overrides, search);
      && (r.Some? ==> WidthFails(df, r.value, cfg, overrides, search))
      && (forall k :: 0 <= k < n && (r.None? || k < r.value) ==> !WidthFails(df, k, cfg, overrides, search))
  {
    var flags := WidthFailures(df, cfg, overrides, search);
    FirstSetIsFirst(flags, n);
    forall k | 0 <= k < n
      ensures flags[k] == WidthFails(df, k, cfg, overrides, search)
    {
    }
  }

  /** A label naming one column never makes its width fail, whichever
      branch of the precedence rule it takes. */
  lemma DistinctLabelsNeverFail(df: DataFrame, cfg: FormatConfig, overrides: map<string, int>, search: Search)
    requires forall i, k :: 0 <= i < k < NCols(df) ==> df.columns[i] != df.columns[k]
    ensures FailingColumn(df, NCols(df), cfg, overrides, search).None?
  {
    FailingColumnIsFirst(df, NCols(df), cfg, overrides, search);
  }

  /** The cell at `p` of the body holds the DataFrame's value, with a column
      format object that (when unambiguous) is the column's format. */
  ghost predicate BodyCell(e: Entry, p: (int, int), df: DataFrame, startRow: int, startCol: int,
                           formats: seq<FormatArgs>, cfg: FormatConfig, search: Search)
    requires InBody(p, df, startRow, startCol)
  {
    var i, j := p.0 - startRow - 1, p.1 - startCol;
    e.value == Datum(df.rows[i][j]) && e.style.NumberStyle? && e.style.handle < |formats| &&
    (Unambiguous(cfg) ==> formats[e.style.handle] == BuildFormat(SpecFor(ColumnFormatName(df, j, cfg, search), cfg)))
  }

  /** The cache keys of the first `n` columns' formats. */
  ghost function ColumnKeys(df: DataFrame, n: nat, cfg: FormatConfig, search: Search): set<string>
    requires n <= NCols(df)
  {
    set k | 0 <= k < n :: CacheKey(ColumnFormatName(df, k, cfg, search))
  }

  lemma ColumnKeysStep(df: DataFrame, n: nat, cfg: FormatConfig, search: Search)
    requires n < NCols(df)
    ensures ColumnKeys(df, n + 1, cfg, search) ==
            ColumnKeys(df, n, cfg, search) + {CacheKey(ColumnFormatName(df, n, cfg, search))}
  {
  }

  lemma ColumnKeysHas(df: DataFrame, n: nat, c: nat, cfg: FormatConfig, search: Search)
    requires c < n <= NCols(df)
    ensures CacheKey(ColumnFormatName(df, c, cfg, search)) in ColumnKeys(df, n, cfg, search)
  {
  }

  /** The cache holds a format object for every column of `df`. */
  ghost predicate CachesColumns(cache: FormatCache, df: DataFrame, search: Search)
    reads cache
  {
    ColumnKeys(df, NCols(df), cache.cfg, search) <= cache.cache.Keys
  }

  /** The width precedence of `set_column_formats_and_widths`: override, else
      the named format's width, else the default spec's width, else autosize. */
  method ChooseWidth(col: string, fmtName: Option<string>, overrides: map<string, int>,
                     cfg: FormatConfig, values: seq<Option<string>>) returns (width: int)
    ensures width == ColumnWidth(col, fmtName, overrides, cfg, values)
  {
    if col in overrides {
      width := overrides[col];
    } else if IsNamed(fmtName) && fmtName.value in cfg.named && cfg.named[fmtName.value].width.Some? {
      width := cfg.named[fmtName.value].width.value;
    } else if DefaultSpec(cfg).width.Some? {
      width := DefaultSpec(cfg).width.value;
    } else {
      width := AutosizeWidth(col, values);
    }
  }

  /** The width of column `j` by the precedence rule, or the AttributeError
      `autosize_width(df[col])` raises for a label naming several columns. */
  method ColumnWidthOf(df: DataFrame, j: nat, fmtName: Option<string>, cfg: FormatConfig,
                       overrides: map<string, int>, search: Search) returns (r: Result<int>)
    requires j < NCols(df) && fmtName == ColumnFormatName(df, j, cfg, search)
    ensures r.Err? <==> WidthFails(df, j, cfg, overrides, search)
    ensures r.Err? ==> r.error == AttributeError(NoNameMessage)
    ensures r.Ok? ==> r.value == WidthOf(df, j, cfg, overrides, search)
  {
    var col := df.columns[j];
    if Autosized(col, fmtName, overrides, cfg) && Repeated(df.columns, j) && "name" !in df.columns {
      return Err(AttributeError(NoNameMessage));
    }
    var width := ChooseWidth(col, fmtName, overrides, cfg, ColumnValues(df, j));
    r := Ok(width);
  }

  /** The first half of an iteration of the first loop: infer column `j`'s
      format name and fetch its format object through the cache. */
  method CacheColumn(df: DataFrame, j: nat, cache: FormatCache, search: Search)
    requires j < NCols(df) && cache.Valid()
    modifies cache`cache, cache.book`formats
    ensures cache.Valid()
    ensures cache.cache.Keys == old(cache.cache.Keys) + {CacheKey(ColumnFormatName(df, j, cache.cfg, search))}
    ensures old(cache.book.formats) <= cache.book.formats
    ensures |cache.book.formats| <= |old(cache.book.formats)| + 1
  {
    var fmtName := ColumnFormatName(df, j, cache.cfg, search);
    var _ := cache.Get(fmtName);
  }

  /** The second half: set column `j`'s width by the precedence rule, or
      raise before setting it. */
  method SetOneWidth(ws: Worksheet, df: DataFrame, startCol: int, j: nat, cfg: FormatConfig,
                     overrides: map<string, int>, search: Search) returns (r: Result<int>)
    requires j < NCols(df)
    modifies ws`widths
    ensures r.Err? <==> WidthFails(df, j, cfg, overrides, search)
    ensures r.Err? ==> r.error == AttributeError(NoNameMessage) && ws.widths == old(ws.widths)
    ensures r.Ok? ==> r.value == WidthOf(df, j, cfg, overrides, search)
    ensures r.Ok? ==> ws.widths == old(ws.widths)[startCol + j := r.value]
  {
    var fmtName := ColumnFormatName(df, j, cfg, search);
    var width :- ColumnWidthOf(df, j, fmtName, cfg, overrides, search);
    ws.SetColumn(startCol + j, width);
    r := Ok(width);
  }

  /** The widths of the columns of `df`, in order. */
  function ColumnWidths(df: DataFrame, cfg: FormatConfig, overrides: map<string, int>, search: Search): seq<int> {
    seq(NCols(df), j requires 0 <= j < NCols(df) => WidthOf(df, j, cfg, overrides, search))
  }

  /** `w` is `w0` with the first `n` of `widths` set from sheet column
      `startCol` on, and every other width kept. */
  ghost predicate WidthsAre(w: map<int, int>, w0: map<int, int>, startCol: int, widths: seq<int>, n: nat)
    requires n <= |widths|
  {
    && (forall c :: startCol <= c < startCol + n ==> c in w && w[c] == widths[c - startCol])
    && (forall c :: c in w ==> c in w0 || startCol <= c < startCol + n)
    && (forall c :: c in w0 ==> c in w && (startCol <= c < startCol + n || w[c] == w0[c]))
  }

  lemma WidthsAreStep(w: map<int, int>, w0: map<int, int>, startCol: int, widths: seq<int>, n: nat)
    requires n < |widths| && WidthsAre(w, w0, startCol, widths, n)
    ensures WidthsAre(w[startCol + n := widths[n]], w0, startCol, widths, n + 1)
  {
  }

  /** The widths of all columns of `df` set from `startCol` on, every other
      width kept. */
  ghost predicate WidthsSet(w: map<int, int>, w0: map<int, int>, df: DataFrame, startCol: int,
                            cfg: FormatConfig, overrides: map<string, int>, search: Search)
  {
    WidthsAre(w, w0, startCol, ColumnWidths(df, cfg, overrides, search), NCols(df))
  }

  /** The first loop of `set_column_formats_and_widths`: each column's width
      is set, and its format object is created through the cache on the way;
      the first column whose width raises stops the loop, the columns before
      it keeping the widths already set. */
  method SetWidths(ws: Worksheet, df: DataFrame, startCol: int, cache: FormatCache,
                   overrides: map<string, int>, search: Search) returns (r: Result<()>)
    requires cache.Valid()
    modifies ws`widths, cache`cache, cache.book`formats
    ensures cache.Valid()
    ensures old(cache.book.formats) <= cache.book.formats
    ensures |cache.book.formats| <= |old(cache.book.formats)| + NCols(df)
    ensures r.Err? <==> FailingColumn(df, NCols(df), cache.cfg, overrides, search).Some?
    ensures r.Err? ==> r.error == AttributeError(NoNameMessage)
    ensures r.Err? ==>
      WidthsAre(ws.widths, old(ws.widths), startCol, ColumnWidths(df, cache.cfg, overrides, search),
                FailingColumn(df, NCols(df), cache.cfg, overrides, search).value)
    ensures r.Ok? ==> CachesColumns(cache, df, search)
    ensures r.Ok? ==> WidthsSet(ws.widths, old(ws.widths), df, startCol, cache.cfg, overrides, search)
  {
    var cfg, book := cache.cfg, cache.book;
    ghost var widths := ColumnWidths(df, cfg, overrides, search);
    var ncols := |df.columns|;
    var j := 0;
    while j < ncols
      invariant 0 <= j <= ncols
      invariant cache.Valid()
      invariant ColumnKeys(df, j, cfg, search) <= cache.cache.Keys
      invariant old(book.formats) <= book.formats && |book.formats| <= |old(book.formats)| + j
      invariant WidthsAre(ws.widths, old(ws.widths), startCol, widths, j)
      invariant FailingColumn(df, j, cfg, overrides, search).None?
    {
      var step := WidthStep(ws, df, startCol, j, cache, overrides, search, old(ws.widths));
      if step.Err? {
        return Err(step.error);
      }
      j := j + 1;
    }
    r := Ok(());
  }

  /** One iteration of the first loop, past the columns before `j`: column
      `j`'s format object is fetched, then its width set or the exception
      raised. */
  method WidthStep(ws: Worksheet, df: DataFrame, startCol: int, j: nat, cache: FormatCache,
                   overrides: map<string, int>, search: Search, ghost widths0: map<int, int>)
    returns (r: Result<int>)
    requires j < NCols(df) && cache.Valid()
    requires ColumnKeys(df, j, cache.cfg, search) <= cache.cache.Keys
    requires FailingColumn(df, j, cache.cfg, overrides, search).None?
    requires WidthsAre(ws.widths, widths0, startCol, ColumnWidths(df, cache.cfg, overrides, search), j)
    modifies ws`widths, cache`cache, cache.book`formats
    ensures cache.Valid()
    ensures old(cache.book.formats) <= cache.book.formats
    ensures |cache.book.formats| <= |old(cache.book.formats)| + 1
    ensures r.Err? ==> r.error == AttributeError(NoNameMessage) && ws.widths == old(ws.widths)
    ensures r.Err? ==> FailingColumn(df, NCols(df), cache.cfg, overrides, search) == Some(j)
    ensures r.Err? ==> WidthsAre(ws.widths, widths0, startCol, ColumnWidths(df, cache.cfg, overrides, search),
                                 FailingColumn(df, NCols(df), cache.cfg, overrides, search).value)
    ensures r.Ok? ==> WidthsAre(ws.widths, widths0, startCol, ColumnWidths(df, cache.cfg, overrides, search), j + 1)
    ensures r.Ok? ==> ColumnKeys(df, j + 1, cache.cfg, search) <= cache.cache.Keys
    ensures r.Ok? ==> FailingColumn(df, j + 1, cache.cfg, overrides, search).None?
  {
    WidthsAreStep(ws.widths, widths0, startCol, ColumnWidths(df, cache.cfg, overrides, search), j);
    ColumnKeysStep(df, j, cache.cfg, search);
    CacheColumn(df, j, cache, search);
    r := SetOneWidth(ws, df, startCol, j, cache.cfg, overrides, search);
    if r.Err? {
      FailingColumnAt(df, j, cache.cfg, overrides, search);
    }
  }

  /** A column that fails after a passing prefix is the failing column. */
  lemma FailingColumnAt(df: DataFrame, j: nat, cfg: FormatConfig, overrides: map<string, int>, search: Search)
    requires j < NCols(df) && FailingColumn(df, j, cfg, overrides, search).None?
    requires WidthFails(df, j, cfg, overrides, search)
    ensures FailingColumn(df, NCols(df), cfg, overrides, search) == Some(j)
  {
    FailingColumnIsFirst(df, j, cfg, overrides, search);
    FailingColumnIsFirst(df, NCols(df), cfg, overrides, search);
  }

  /** One cell of the second loop: the value at row `r`, column `c` written
      with its column's format object, a cache hit. */
  method WriteCell(ws: Worksheet, df: DataFrame, startRow: int, startCol: int, r: nat, c: nat,
                   cache: FormatCache, search: Search)
    requires r < NRows(df) && c < NCols(df)
    requires cache.Valid() && CachesColumns(cache, df, search)
    modifies ws`cells, cache`cache, cache.book`formats
    ensures cache.Valid() && cache.cache.Keys == old(cache.cache.Keys)
    ensures cache.book.formats == old(cache.book.formats)
    ensures var p := (startRow + 1 + r, startCol + c);
      InBody(p, df, startRow, startCol) && p in ws.cells &&
      ws.cells == old(ws.cells)[p := ws.cells[p]] &&
      BodyCell(ws.cells[p], p, df, startRow, startCol, cache.book.formats, cache.cfg, search)
  {
    var h := FormatOf(df, c, cache, search);
    ws.Write(startRow + 1 + r, startCol + c, Datum(df.rows[r][c]), NumberStyle(h));
  }

  /** Column `c`'s format object, fetched from the cache, which already holds
      it: nothing is added. */
  method FormatOf(df: DataFrame, c: nat, cache: FormatCache, search: Search) returns (h: nat)
    requires c < NCols(df)
    requires cache.Valid() && CachesColumns(cache, df, search)
    modifies cache`cache, cache.book`formats
    ensures cache.Valid() && cache.cache.Keys == old(cache.cache.Keys)
    ensures cache.book.formats == old(cache.book.formats)
    ensures h < |cache.book.formats|
    ensures Unambiguous(cache.cfg) ==>
      cache.book.formats[h] == BuildFormat(SpecFor(ColumnFormatName(df, c, cache.cfg, search), cache.cfg))
  {
    var fmtName := ColumnFormatName(df, c, cache.cfg, search);
    ColumnKeysHas(df, NCols(df), c, cache.cfg, search);
    h := cache.Get(fmtName);
  }

  /** One row of the second loop. */
  method WriteRow(ws: Worksheet, df: DataFrame, startRow: int, startCol: int, r: nat,
                  cache: FormatCache, search: Search)
    requires r < NRows(df)
    requires cache.Valid() && CachesColumns(cache, df, search)
    modifies ws`cells, cache`cache, cache.book`formats
    ensures cache.Valid() && cache.cache.Keys == old(cache.cache.Keys)
    ensures cache.book.formats == old(cache.book.formats)
    ensures forall p :: p in ws.cells <==>
      p in old(ws.cells) || (InBody(p, df, startRow, startCol) && p.0 == startRow + 1 + r)
    ensures forall p :: InBody(p, df, startRow, startCol) && p.0 == startRow + 1 + r ==>
      BodyCell(ws.cells[p], p, df, startRow, startCol, cache.book.formats, cache.cfg, search)
    ensures forall p :: p in old(ws.cells) && !(InBody(p, df, startRow, startCol) && p.0 == startRow + 1 + r) ==>
      ws.cells[p] == old(ws.cells)[p]
  {
    var cfg, book := cache.cfg, cache.book;
    var ncols := |df.columns|;
    var c := 0;
    while c < ncols
      invariant 0 <= c <= ncols
      invariant cache.Valid() && cache.cache.Keys == old(cache.cache.Keys)
      invariant book.formats == old(book.formats)
      invariant forall p :: p in ws.cells <==>
        p in old(ws.cells) || (p.0 == startRow + 1 + r && startCol <= p.1 < startCol + c)
      invariant forall p: (int, int) :: p.0 == startRow + 1 + r && startCol <= p.1 < startCol + c ==>
        InBody(p, df, startRow, startCol) &&
        BodyCell(ws.cells[p], p, df, startRow, startCol, book.formats, cfg, search)
      invariant forall p: (int, int) :: p in old(ws.cells) && !(p.0 == startRow + 1 + r && startCol <= p.1 < startCol + c) ==>
        ws.cells[p] == old(ws.cells)[p]
    {
      WriteCell(ws, df, startRow, startCol, r, c, cache, search);
      c := c + 1;
    }
  }

  /** `set_column_formats_and_widths`: one pass over the columns setting each
      width (and creating its format object), then one pass over the body
      writing every value with its column's format. The format cache is local
      to the call. A width that raises aborts the call before any cell is
      written. */
  method SetColumnFormatsAndWidths(ws: Worksheet, df: DataFrame, startRow: int, startCol: int,
                                   book: Workbook, cfg: FormatConfig, overrides: map<string, int>,
                                   search: Search) returns (r: Result<()>)
    modifies ws`widths, ws`cells, book`formats
    ensures r.Err? <==> FailingColumn(df, NCols(df), cfg, overrides, search).Some?
    ensures r.Err? ==> r.error == AttributeError(NoNameMessage) && ws.cells == old(ws.cells)
    ensures r.Err? ==>
      WidthsAre(ws.widths, old(ws.widths), startCol, ColumnWidths(df, cfg, overrides, search),
                FailingColumn(df, NCols(df), cfg, overrides, search).value)
    ensures r.Ok? ==> WidthsSet(ws.widths, old(ws.widths), df, startCol, cfg, overrides, search)
    ensures r.Ok? ==> BodyWritten(ws.cells, df, startRow, startCol, book.formats, cfg, search)
    ensures r.Ok? ==> ChangedOnly(ws.cells, old(ws.cells), startRow + 1, startRow + 1 + NRows(df),
                                  startCol, startCol + NCols(df))
    ensures old(book.formats) <= book.formats
    ensures |book.formats| <= |old(book.formats)| + NCols(df)
  {
    var cache := new FormatCache(book, cfg);
    r := SetWidths(ws, df, startCol, cache, overrides, search);
    if r.Err? {
      return;
    }
    ghost var formats, widths := book.formats, ws.widths;
    var nrows := |df.rows|;
    var i := 0;
    while i < nrows
      invariant 0 <= i <= nrows
      invariant cache.Valid() && cache.book == book && cache.cfg == cfg && CachesColumns(cache, df, search)
      invariant book.formats == formats && ws.widths == widths
      invariant forall p :: p in ws.cells <==>
        p in old(ws.cells) || (InBody(p, df, startRow, startCol) && p.0 < startRow + 1 + i)
      invariant forall p :: InBody(p, df, startRow, startCol) && p.0 < startRow + 1 + i ==>
        BodyCell(ws.cells[p], p, df, startRow, startCol, formats, cfg, search)
      invariant forall p :: p in old(ws.cells) && !(InBody(p, df, startRow, startCol) && p.0 < startRow + 1 + i) ==>
        ws.cells[p] == old(ws.cells)[p]
    {
      WriteRow(ws, df, startRow, startCol, i, cache, search);
      i := i + 1;
    }
    forall p
      ensures p in ws.cells ==> p in old(ws.cells) || InRect(p, startRow + 1, startRow + 1 + NRows(df), startCol, startCol + NCols(df))
      ensures p in old(ws.cells) ==> p in ws.cells && (InRect(p, startRow + 1, startRow + 1 + NRows(df), startCol, startCol + NCols(df))
                                                       || ws.cells[p] == old(ws.cells)[p])
    {
      if InBody(p, df, startRow, startCol) {}
    }
  }
}
