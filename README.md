# Report builder and statistics helpers, modelled in Dafny

This project models two parts of a small reporting toolkit.

**The report builder** (`build_from_toml` and its helpers). It reads a parsed
configuration and writes an Excel workbook. The model covers:

- how a data source is resolved: a registry name, a dotted `module:function`
  reference, the legacy `module` + `function` pair, or a CSV or Excel file;
- what a user callable may return;
- the first-match regex lookup of column formats and the per-column format
  cache (`fmt_cache`);
- the column-width precedence (override > named width > default width >
  autosize) and the autosize clamp to [10, 40];
- the inclusive extent of a native Excel table;
- the running (row, column) cursor that places the protective marking, the
  title, tables, charts and footnotes on a sheet;
- the insert-if-absent extension of the interpreter's module search path.

**The statistics helpers** (`fn_get_mean`, `fn_get_median`, `fn_get_pay_gap`,
`fn_get_quantiles`). The model covers:

- their column guards and the messages they raise;
- the exactly-one-comparator rule of the pay gap and its fill loop;
- the quantile table: sort, split into contiguous parts, one row per part,
  and the count check.

Modules, one per file:

- `Common` holds Option, Result, the exception kinds and Python truthiness.
- `Frames` holds a DataFrame as a rectangular table of optional cell texts.
- `Callables` covers `resolve_callable`.
- `Sources` covers `load_dataframe` and `load_image`.
- `Formats` covers format inference, the format specs, `autosize_width` and
  width precedence.
- `Workbooks` holds the workbook and worksheet as classes that record writes,
  the format cache, and `set_column_formats_and_widths`.
- `Layout` holds the cursor rules as functions and a `SheetLayout` class whose
  methods place each element.
- `Report` covers `build_from_toml` over a sequence of sheets and `sys.path`.
- `Stats` covers the statistics helpers.

The host enters as parameters:

- regular-expression search;
- A1 cell parsing;
- the function registry, the importable modules and the result of calling a
  user function;
- the CSV and Excel readers and the image files;
- how a `pythonpath` entry resolves against the base directory;
- `pd.to_numeric` on a text cell;
- the pay-gap formula.

A worksheet is a map from (row, column) to the last value written there,
together with column widths, row heights, table regions, pictures, header and
footer.

Five behaviours of the code that are easy to miss, each modelled as written:

- The cursor can move up. An explicit table `start_cell` sets the row from
  that cell, and so does a chart's `chart_notes_start_cell`, whatever rows
  were already used.
- A chart's notes move the cursor to `spacing + 1` rows below the last note.
  The image height and the chart title never move it.
- The empty-table branch does not reset the column to 0.
  `Report.PlaceTables` proves that the column is 0 anyway after every table.
- A group cell that is missing in the pay-gap table raises `IndexError`.
- A repeated column label whose width is autosized raises `AttributeError`:
  `df[col]` is then a frame, which has no `name`. The title and the native
  table are already in place, and so are the widths of earlier columns.

## Model

| member | source | states |
|---|---|---|
| Callables.Normalise | src/report_builder/create_report.py:133 | every `:` becomes `.` and nothing else changes |
| Callables.SplitDotted | src/report_builder/create_report.py:133-137 | fails exactly when the normalised reference has no `.`, raising ValueError; on success module + "." + function is the normalised reference and the function name holds no `.` |
| Callables.SplitDottedUnique | src/report_builder/create_report.py:137 | the split at the last dot is the only split whose function name has no dot |
| Callables.ResolveCallable | src/report_builder/create_report.py:128-145 | succeeds exactly when the split succeeds, the module path is neither empty nor dot-led, the module imports and the attribute is callable, returning that attribute; otherwise ValueError (no dot, or "Empty module name"), TypeError (a relative module path), ImportError or AttributeError |
| Callables.BareFunctionFails | src/report_builder/create_report.py:133-141 | ":f" and ".f" name no module and raise ValueError "Empty module name", whatever modules exist |
| Callables.ColonIsDot | src/report_builder/create_report.py:133 | `pkg.mod:f` and `pkg.mod.f` resolve to the same thing |
| Sources.ResolveFunction | src/report_builder/create_report.py:88-106 | priority is registry (only with a non-empty registry) > dotted > module + function; an unknown registry name raises KeyError; no strategy raises ValueError |
| Sources.LegacyPairIsDotted | src/report_builder/create_report.py:100-104 | `module` + `function` behaves exactly as the dotted reference `module.function` |
| Sources.EmptyRegistryIgnored | src/report_builder/create_report.py:90 | with an empty registry, a `registry` entry changes nothing |
| Sources.AcceptFrame | src/report_builder/create_report.py:111-123 | accepts exactly a DataFrame, or a dict whose `key` entry is a DataFrame; everything else is TypeError |
| Sources.LoadDataFrame | src/report_builder/create_report.py:66-126 | csv and excel go to the readers (KeyError without `path`); an excel source without `sheet` yields the dict of all sheets, and only such a source does; function types dispatch, an exception the callable raises propagates unchanged, and a returned value is then checked; any other type is ValueError |
| Sources.DictWithoutKeyFails | src/report_builder/create_report.py:114-117 | a dict result without `key` is a TypeError |
| Sources.LoadImage | src/report_builder/create_report.py:18-64 | image types give the file's bytes or FileNotFoundError; function types give the callable's result, or the exception it raises; any other type fails on the unbound `result` |
| Formats.InferFormatName | src/report_builder/create_report.py:150-155 | the name of the first matcher in declaration order whose pattern is found; the fallback when none is |
| Formats.FirstMatchWins | src/report_builder/create_report.py:152-154 | of two matching patterns the earlier decides |
| Formats.SpecFor | src/report_builder/create_report.py:240-249 | no name gives the default spec; a name in `named` gives its spec; an unknown name gives the default spec |
| Formats.BuildFormat | src/report_builder/create_report.py:157-165 | a `num_format` argument exactly when the spec's number format is truthy |
| Formats.KeyArgsOfName | src/report_builder/create_report.py:240-249 | the object cached under a name's key is built from that name's spec, when the `__default__` key is unambiguous |
| Formats.PresentAppend | src/report_builder/create_report.py:172 | dropping missing values distributes over concatenation |
| Formats.Sample | src/report_builder/create_report.py:172 | the sample has at most 200 values |
| Formats.Longest | src/report_builder/create_report.py:169-174 | at least the header length and every sampled length, and equal to one of them |
| Formats.PresentKeeps | src/report_builder/create_report.py:172 | keeps a value exactly when it is present in the column, and drops nothing exactly when nothing is missing |
| Formats.AutoWidthBounds | src/report_builder/create_report.py:167-177 | the width lies in [10, 40], covers the header and each sampled value up to 40, and is one of 10, 40 or a padded length |
| Formats.AutoWidthIgnoresLaterValues | src/report_builder/create_report.py:172 | values after the 200th non-missing one cannot change the width |
| Formats.AutosizeWidth | src/report_builder/create_report.py:167-177 | the running-maximum loop computes the clamped padded longest length |
| Formats.ColumnWidth | src/report_builder/create_report.py:259-268 | override, else the named width, else the default spec's width, else the autosized width in [10, 40] |
| Formats.NoDefaultMeansFourteen | src/report_builder/create_report.py:228 | without `formats.default`, a column with no override and no named width is 14 wide |
| Formats.UnknownNameIsDefault | src/report_builder/create_report.py:247-266 | a matched name missing from `named` gets the same spec and width as no match |
| Workbooks.Worksheet.AddExcelTable | src/report_builder/create_report.py:195-218 | returns (start_row + nrows, start_col + ncols - 1) and records exactly that table region |
| Workbooks.FormatCache.Get | src/report_builder/create_report.py:240-249 | a cached key returns its object and adds no format; a new key adds one format built from the name's spec; the returned object is the name's format |
| Workbooks.ChooseWidth | src/report_builder/create_report.py:259-268 | the width chosen equals the precedence rule |
| Workbooks.ColumnWidthOf | src/report_builder/create_report.py:258-268 | raises AttributeError exactly when the column is autosized and `df[col]` selects a frame rather than a series; otherwise the width is the one the precedence rule gives |
| Workbooks.CacheColumn | src/report_builder/create_report.py:254-256 | the cache gains exactly the key of the column's inferred format name, keeps its old formats as a prefix and adds at most one |
| Workbooks.SetOneWidth | src/report_builder/create_report.py:258-270 | the column's width becomes the precedence rule's width and no other column's width changes; on the AttributeError no width changes |
| Workbooks.SetWidths | src/report_builder/create_report.py:254-270 | raises AttributeError exactly when some column's width does, with the columns before the first such column already set; otherwise every table column gets its width, other columns keep theirs, and every column's format is cached |
| Workbooks.WidthStep | src/report_builder/create_report.py:255-270 | one turn of the widths loop: either the column's width is set and the prefix of passing columns grows by one, or that column is the first failing one and no width changes |
| Workbooks.FailingColumn | src/report_builder/create_report.py:254-268 | the first column whose width raises lies among the columns searched |
| Workbooks.FailingColumnIsFirst | src/report_builder/create_report.py:254-268 | the column found raises, and no column before it does |
| Workbooks.FailingColumnAt | src/report_builder/create_report.py:254-268 | when the columns before `j` pass and column `j` raises, `j` is the first failing column of the table |
| Workbooks.DistinctLabelsNeverFail | src/report_builder/create_report.py:254-268 | a table whose column labels are all distinct never raises while setting widths |
| Workbooks.FormatOf | src/report_builder/create_report.py:276-278 | for a column whose key is cached, the lookup adds no format and returns the format built from the column's name spec |
| Workbooks.WriteCell | src/report_builder/create_report.py:277-280 | writes the DataFrame value with its column's format at that body cell and nowhere else |
| Workbooks.WriteRow | src/report_builder/create_report.py:275-280 | writes one body row and nothing else |
| Workbooks.SetColumnFormatsAndWidths | src/report_builder/create_report.py:220-280 | raises AttributeError exactly when an autosized column's label is repeated (and no column is called "name"), writing no cell and leaving the widths before that column set; otherwise widths by the precedence rule, every body cell (rows start_row+1 .. start_row+nrows) holds its value with its column's format, and no cell outside the body changes; either way at most one format per column is added |
| Layout.StartCell | src/report_builder/create_report.py:353-357 | the parsed `start_cell` when truthy, else the cursor |
| Layout.FirstSource | src/report_builder/create_report.py:359 | the first source; KeyError without `source`, IndexError for an empty list |
| Layout.Probe | src/report_builder/create_report.py:362 | a single frame passes the `df.empty` probe; the dict of sheets fails it with AttributeError |
| Layout.ExcelWithoutSheetFails | src/report_builder/create_report.py:85-86 | a table whose first source is an Excel file without `sheet` always fails: with the reader's error, or with AttributeError at the `df.empty` probe |
| Layout.TableCursorRule | src/report_builder/create_report.py:353-392 | an empty table leaves the cursor at (s + t + spacing + 1, same column); a non-empty one raises AttributeError when a width does, and otherwise leaves it at (s + t + nrows + 1 + notes + 1 + spacing, 0) |
| Layout.TableLoaded | src/report_builder/create_report.py:353-392 | once the data has loaded, the outcome is the widths' error or the loaded cursor, and the native table region depends only on the frame and the start cell |
| Layout.TableCursorAdvances | src/report_builder/create_report.py:353-392 | without a start cell the row grows by at least 1 + spacing |
| Layout.StartCellDecidesRow | src/report_builder/create_report.py:355-383 | with a start cell, where the cursor was plays no part |
| Layout.StartCellMovesBack | src/report_builder/create_report.py:355-383 | a start cell above the cursor moves the cursor up |
| Layout.TableCursorColumn | src/report_builder/create_report.py:362-392 | an empty table keeps the column; any other table resets it to 0 |
| Layout.TableRowsAboveCursor | src/report_builder/create_report.py:362-391 | every row the table writes lies above the new cursor |
| Layout.TablesRegionsCount | src/report_builder/create_report.py:351-392 | the tables of a sheet add at most one native table each |
| Layout.TablesAfterError | src/report_builder/create_report.py:351-392 | after a table fails, later tables change neither the outcome nor the native tables |
| Layout.Scale | src/report_builder/create_report.py:406-414 | a truthy scale is kept; absent or zero gives 1.0 |
| Layout.ChartWithoutNotes | src/report_builder/create_report.py:395-429 | a chart without notes adds exactly 1 + spacing, whatever its title and start cell |
| Layout.ChartWithNotes | src/report_builder/create_report.py:421-428 | with notes the row becomes the notes row + notes + 1 + spacing |
| Layout.ChartNotesNeedStartCell | src/report_builder/create_report.py:422 | notes without `chart_notes_start_cell` raise KeyError |
| Layout.ChartsPicturesCount | src/report_builder/create_report.py:395-429 | charts that are all placed add exactly one picture each |
| Layout.ChartsAfterError | src/report_builder/create_report.py:395-429 | after a chart fails, later charts change neither the outcome nor the pictures |
| Layout.WriteLines | src/report_builder/create_report.py:387-389 | each line on its own row down one column, nothing else changed |
| Layout.WriteHeaders | src/report_builder/create_report.py:380-381 | the header labels across the header row, nothing else changed |
| Layout.SheetLayout.PlaceMarking | src/report_builder/create_report.py:333-344 | with a marking: the row grows by 2, the banner fills row 0 across the span (default 10) with the marking at the cursor, row 0 is 24 high, and no other cell changes; without one nothing changes, and a negative span writes nothing |
| Layout.SheetLayout.MarkRow | src/report_builder/create_report.py:339-342 | the loop leaves row 0 blank-marked across the span and the marking at the cursor, with no other cell changed |
| Layout.SheetLayout.PlaceTitle | src/report_builder/create_report.py:346-348 | with a title: written at the cursor and the row grows by 2; without one nothing changes |
| Layout.SheetLayout.PlaceTable | src/report_builder/create_report.py:353-392 | succeeds exactly when the table cursor rule does, with its error otherwise; a loading error changes nothing, and a widths error leaves the title, the native table and the widths before the failing column; on success the cursor ends where the table cursor rule says; the title, then "(no data)" or the table region, widths, headers, body and notes are written, no cell outside the table's rows and columns changes, its native table is appended and formats are only added |
| Layout.SheetLayout.PlaceLoaded | src/report_builder/create_report.py:362-392 | an empty frame gives "(no data)" and leaves tables, widths and formats alone, any other the full table or the widths' AttributeError; either way only the table's rows and columns change, and on success the cursor follows the rule |
| Layout.SheetLayout.PlaceEmpty | src/report_builder/create_report.py:362-368 | title, then "(no data)" below it, no other cell changed; row becomes s + t + spacing + 1 |
| Layout.SheetLayout.PlaceFull | src/report_builder/create_report.py:369-392 | raises the widths' AttributeError after the title and the native table, as the rule says; otherwise title, table region, widths, headers, body and notes all present at the end, no cell outside rows s .. last note and the table's columns changed; the cursor is at column 0 below the notes and spacing |
| Layout.SheetLayout.PlaceChart | src/report_builder/create_report.py:395-429 | succeeds exactly when the chart cursor rule does, with its error otherwise; the image is appended under the title at the scales; title and notes are written and no other cell changes; the cursor ends where the rule says |
| Layout.SheetLayout.PlaceImageAndNotes | src/report_builder/create_report.py:418-429 | appends the picture under the title, then writes the notes or raises KeyError without a notes start cell, leaving the cells as they were |
| Layout.SheetLayout.DrawTitle | src/report_builder/create_report.py:402-404 | writes a truthy title and changes no other cell; otherwise changes nothing |
| Layout.SheetLayout.PlaceChartNotes | src/report_builder/create_report.py:420-429 | notes go down from their own start cell, changing no other cell but the title's, and the cursor follows them; without notes the row grows by 1 + spacing |
| Layout.SheetLayout.PlaceFootnotes | src/report_builder/create_report.py:431-438 | one footnote per row at column 0; then the row grows by 1 + spacing and the column is 0 |
| Layout.SheetLayout.PlaceBody | src/report_builder/create_report.py:377-381 | the native table is recorded; then either the widths' AttributeError, with no cell written, or widths, header labels and body all written, with nothing changed outside the table's rows and columns |
| Layout.SheetLayout.LabelHeaders | src/report_builder/create_report.py:380-381 | the header labels are written above a body already in place, which they leave intact |
| Report.ContextOf | src/report_builder/create_report.py:307-314 | font sizes 14, 12 and 9, table style "Table Style Light 1" and spacing 2 unless configured |
| Report.ExtendedContents | src/report_builder/create_report.py:293-296 | the new path holds exactly the old entries and the configured ones |
| Report.ExtendedKeepsPath | src/report_builder/create_report.py:293-296 | entries only go in front: the new path ends with the old path, in order |
| Report.ExtendedPresent | src/report_builder/create_report.py:295 | entries already present change nothing |
| Report.ExtendedIdempotent | src/report_builder/create_report.py:293-296 | extending twice with the same entries equals extending once |
| Report.ExtendedDistinct | src/report_builder/create_report.py:295-296 | a path without duplicates never gains one |
| Report.Interpreter.ExtendSysPath | src/report_builder/create_report.py:293-296 | the insert-if-absent loop leaves the path extended as above |
| Report.Resolved | src/report_builder/create_report.py:294 | each entry resolved against the base directory, in order |
| Report.TableErrorIgnoresCursor | src/report_builder/create_report.py:353-392 | whether a table fails, and how (loading, or its widths), does not depend on the cursor |
| Report.ChartErrorIgnoresCursor | src/report_builder/create_report.py:395-429 | whether a chart fails, and how (its image, or the notes start cell), does not depend on the cursor |
| Report.TablesCursorError | src/report_builder/create_report.py:351-392 | laying out the tables fails exactly with the first failing table's error, wherever the cursor starts |
| Report.ChartsCursorError | src/report_builder/create_report.py:395-429 | laying out the charts fails exactly with the first failing chart's error |
| Report.SheetCursorError | src/report_builder/create_report.py:317-438 | a named sheet fails exactly when its tables or charts do, with that error |
| Report.SheetCounts | src/report_builder/create_report.py:351-429 | a sheet that builds holds at most one native table per table and exactly one picture per chart |
| Report.PlaceNextTable | src/report_builder/create_report.py:351-392 | one turn of the tables loop: the cursor and native tables follow the folds over one more table, or the folds fail with this table's error |
| Report.PlaceTables | src/report_builder/create_report.py:351-392 | fails with the first failing table's error exactly when one fails; otherwise the cursor is the fold of the table cursor rule, at column 0; the native tables appended are those of the tables in order |
| Report.PlaceCharts | src/report_builder/create_report.py:395-429 | fails with the first failing chart's error exactly when one fails; otherwise the cursor is the fold of the chart cursor rule and one picture per chart is appended, in order |
| Report.LayOutSheet | src/report_builder/create_report.py:331-438 | from (0, 0): fails exactly when the sheet's tables or charts do; otherwise the sheet holds the native tables and pictures of its tables and charts, and its footnotes from the row where the charts end |
| Report.LayOutBody | src/report_builder/create_report.py:351-438 | the same, for the tables, charts and footnotes below the heading rows |
| Report.BuildSheet | src/report_builder/create_report.py:317-438 | fails with the sheet's first error exactly when it has one; otherwise adds one named worksheet with the configured header and footer, laid out as LayOutSheet states |
| Report.BuildSheets | src/report_builder/create_report.py:317-438 | fails with the first sheet error exactly when there is one; otherwise one worksheet per sheet, names in order, each laid out as LayOutSheet states |
| Report.BuildNext | src/report_builder/create_report.py:317-438 | one turn of the sheet loop: the next sheet fails with its own error exactly when it has one; otherwise it joins the sheets already built, named and laid out as LayOutSheet states |
| Report.Build | src/report_builder/create_report.py:285-438 | the module path is extended first; a missing `workbook` table raises KeyError('workbook'), a table without `output` raises KeyError('output'); otherwise it fails with the first sheet error exactly when there is one, or returns a fresh workbook with one worksheet per sheet, names in order, each laid out as LayOutSheet states |
| Stats.ToNumeric | src/stats_utils/stats_utils.py:34-37 | converts every cell, or raises the non-numeric ValueError exactly when one cell cannot be converted |
| Stats.ConvertColumn | src/stats_utils/stats_utils.py:34-37 | succeeds exactly when the label names one column and each of its cells converts, giving one number or NaN per row; a label naming several columns raises the non-numeric ValueError |
| Stats.RemoveFirst | src/stats_utils/stats_utils.py:25-26 | the columns without the first `value`, as a multiset and in order |
| Stats.MeanInputs | src/stats_utils/stats_utils.py:19-41 | KeyError without `value`; KeyError when no group column remains; then the non-numeric ValueError (also for a repeated `value` label); then `groupby`'s ValueError for a group label naming several columns; otherwise the group columns and the converted values |
| Stats.SharedLabelFails | src/stats_utils/stats_utils.py:34-37 | a repeated `value` label fails the mean, median and pay-gap conversion and a repeated range column the quantiles' conversion, with the non-numeric ValueError; a repeated `group` label fails the median's grouping |
| Stats.MedianInputs | src/stats_utils/stats_utils.py:64-81 | KeyError for `group`, then for `value`; then the conversion, which a repeated `value` label fails; then `groupby`'s ValueError for a repeated `group` label |
| Stats.MedianChecksGroupFirst | src/stats_utils/stats_utils.py:64-71 | with both columns missing the `group` error is raised |
| Stats.CountGroup | src/stats_utils/stats_utils.py:135-137 | zero exactly when no row matches; a missing group never matches |
| Stats.FirstOfGroup | src/stats_utils/stats_utils.py:143 | the first row of the group, or none exactly when no row matches |
| Stats.SameFirstOfGroup | src/stats_utils/stats_utils.py:143 | rows of one group share their first row |
| Stats.PayGapInputs | src/stats_utils/stats_utils.py:116-150 | KeyError for `group`, then `value`; then the conversion, which a repeated `value` label fails; then it succeeds exactly when the comparator occurs once, giving its row; otherwise the "more than one record" ValueError |
| Stats.AbsentComparatorFails | src/stats_utils/stats_utils.py:135-150 | an absent comparator also raises the "more than one record" ValueError |
| Stats.FillPayGap | src/stats_utils/stats_utils.py:139-148 | succeeds exactly when no group cell is missing, else IndexError; each row gets the gap of its group's first row |
| Stats.FillGroup | src/stats_utils/stats_utils.py:147-148 | the masked assignment sets the rows of the group and only those |
| Stats.GroupsShareGap | src/stats_utils/stats_utils.py:143-148 | rows of one group get one gap |
| Stats.ComparatorAgainstItself | src/stats_utils/stats_utils.py:138-145 | the comparator's row is its group's first row and is measured against itself |
| Stats.GetPayGap | src/stats_utils/stats_utils.py:98-153 | the guard errors, then the fill against the comparator's value |
| Stats.SortValues | src/stats_utils/stats_utils.py:185 | ascending with missing values last, and a permutation of the input |
| Stats.Split | src/stats_utils/stats_utils.py:188 | exactly `bin_count` contiguous parts whose concatenation is the input |
| Stats.SplitSizes | src/stats_utils/stats_utils.py:188 | the first n mod k parts have n / k + 1 values and the others n / k |
| Stats.PartsOrdered | src/stats_utils/stats_utils.py:185-188 | every value of an earlier part sorts no later than every value of a later part |
| Stats.MinOf | src/stats_utils/stats_utils.py:197 | the least number in the part, skipping missing values; none when there is no number |
| Stats.MaxOf | src/stats_utils/stats_utils.py:197 | the greatest number in the part, skipping missing values; none when there is no number |
| Stats.QuantileTable | src/stats_utils/stats_utils.py:192-198 | one row per part, in order, numbered from 1, with the part's count, minimum and maximum |
| Stats.SumCountsIsLength | src/stats_utils/stats_utils.py:201 | the record counts add up to the length of the concatenated parts |
| Stats.RangeValues | src/stats_utils/stats_utils.py:170-179 | KeyError "<column> column missing"; the non-numeric ValueError when the label names several columns or a cell does not convert; else the converted column, one value per row |
| Stats.QuantilesShape | src/stats_utils/stats_utils.py:188-202 | `bin_count` rows numbered 1 .. `bin_count`; counts sum to the input size, so the final check never fires; part sizes follow numpy's rule |
| Stats.QuantilesOrdered | src/stats_utils/stats_utils.py:185-197 | min <= max within a quantile, and an earlier quantile's max <= a later quantile's min |
| Stats.BinRows | src/stats_utils/stats_utils.py:192-198 | the rows appended by the bin loop are exactly the quantile table of the parts |
| Stats.TotalCount | src/stats_utils/stats_utils.py:201 | the summed record count equals the recursive sum of the rows' counts |
| Stats.GetQuantiles | src/stats_utils/stats_utils.py:156-204 | the column errors; ValueError for a non-positive bin count; otherwise exactly the quantile table of the input |

## Left out

- Reading the TOML file, CSV, Excel and image files, `os.path.expandvars`,
  path resolution, `importlib` and calling user functions: all are host
  parameters. Loading a configuration that lacks a table the model reads is
  covered only for `workbook.output` and a sheet's `name`.
- Regular-expression semantics and A1 cell notation (`xl_cell_to_rowcol`,
  `xl_rowcol_to_cell`) are parameters. An image position is kept as
  (row, column).
- Drawing: the cell writes that `add_table` performs itself are not modelled.
  The model records the table region, style, header and data it is given.
- Drawing, formats: the fixed formats (title, subtitle, footnote, marking,
  header) are style values. Only the column formats are modelled as
  `add_format` calls, by their arguments.
- Workbooks.FormatCache.Get: the format object for a name is stated only when
  no named format is itself called `__default__` (`Formats.Unambiguous`). Such
  a name shares the cache key of "no match" and gets whichever object was
  built first.
- Report.BuildSheet: xlsxwriter's validation of sheet names in
  `add_worksheet` (create_report.py:320) is not modelled. An empty name
  becomes `Sheet<N>`, and a duplicate name, a name over 31 characters, one
  holding any of `[]:*?/\` or one that starts or ends with `'` raises. The
  worksheet is stated to bear the configured name as it is. The same holds
  for Report.BuildNext, Report.BuildSheets and Report.Build.
- `writer.sheets` and the state of a workbook after an exception are not
  modelled. A failed build returns the error and nothing else.
- Closing the writer and the output file name are not modelled.
- `print` calls are left out.
- Report.BuildSheet: a built sheet is stated by its native tables, pictures
  and footnotes (`SheetBuilt`). The cells of each table and chart are stated
  by `PlaceTable` and `PlaceChart` when they are placed. They are not gathered
  per sheet, since a later element may overwrite an earlier one's cells.
- Report.BuildSheets and Report.Build state the same for every sheet.
- Report.PlaceCharts: the pictures are stated only when every chart is
  placed. After a failure, the pictures already inserted are not stated.
- Callables.ResolveCallable: the TypeError message quotes the module path as
  it is. Python's `repr` escaping of a quote inside it is not modelled.
- Workbooks.SetColumnFormatsAndWidths: when a column is labelled "name",
  `df[col]` for a repeated autosized label returns a frame whose `name`
  attribute is that column, and `autosize_width` goes on with its text
  representation. The model raises no error then and autosizes the column
  from its own values.
- xlsxwriter's own checks of the header names given to `add_table` are not
  modelled.
- Workbooks.SetColumnFormatsAndWidths: xlsxwriter's TypeError for a NaN or
  infinite number written at create_report.py:280 is not modelled. The writer
  at create_report.py:304 does not set `nan_inf_to_errors`, so a missing number
  (an empty CSV field, say) aborts the build there. A cell is text or missing
  (`None`) whatever its kind, and a missing cell is written as a blank value.
  The same holds for Workbooks.WriteCell and Workbooks.WriteRow.
- `int()` applied to `spacing_rows` is not modelled: the spacing is an
  integer.
- Layout.TableCursorAdvances: strict growth is stated for a non-negative
  spacing. A negative `spacing_rows` is accepted by the code and can move the
  cursor up.
- Numbers in the statistics helpers are integers, with a missing value (NaN)
  as `None`. `astype(float)` and floating-point rounding are not modelled.
- Means, medians, group-by, merge and the median-record selection are not
  modelled. Only the inputs those helpers validate are.
- The pay-gap formula `round((c - v) / c, 4)` is a parameter.
- Stats.PayGapInputs: a `group` label shared by several columns is read as
  its first column. pandas then compares a whole frame with the comparator and
  masks cell by cell, which is not modelled.
- Stats.GetPayGap: the same holds for a repeated `group` label.
- Stats.GetPayGap returns the `pay_gap` column. It does not write that column
  into the input frame, and it does not write the converted values column back
  in place. The same holds for the other helpers' in-place conversion.
- Stats.SortValues: NaN sorts last, as pandas' default does. The relative order
  of equal values is not modelled because equal values are indistinguishable.
- Stats.Split: numpy's `array_split` is not part of this model. Its documented
  sizing rule (the first n mod k parts one longer) is assumed. The ordering
  lemmas hold for any contiguous split. A bin count of 0 or less is assumed to
  raise numpy's ValueError "number sections must be larger than 0.".
- The protective-marking banner writes the marking at the cursor, which is
  (0, 0) when the banner is placed. The banner's blank cells are stated only
  for row 0.
- The environment installer (`pvenv_setup`) is not part of this model.
