/** The format resolver: which named format a column gets (regex matchers,
    first match wins), what that format's spec is, and how wide the column is
    (override > named width > default width > autosize). Regular-expression
    search is the host's and is given as a `Search`. */
module Formats {
  import opened Common

  /** A format spec from the configuration: `num_format` and `width`, both
      optional. */
  datatype FormatSpec = FormatSpec(numFormat: Option<string>, width: Option<int>)

  /** `cfg_formats`: the optional `default` spec, the `named` specs, and the
      `matchers` table (pattern -> format name) in declaration order. */
  datatype FormatConfig = FormatConfig(
    defaultSpec: Option<FormatSpec>,
    named: map<string, FormatSpec>,
    matchers: seq<(string, string)>)

  /** `re.compile(pattern).search(name)` finds a match. */
  type Search = (string, string) -> bool

  const MinWidth: int := 10
  const MaxWidth: int := 40
  const SampleSize: nat := 200
  const FallbackWidth: int := 14
  /** The cache key `get_format_obj` uses when no format name was matched. */
  const DefaultKey: string := "__default__"

  /** `cfg_formats.get("default", {"num_format": "", "width": 14})` */
  function DefaultSpec(cfg: FormatConfig): FormatSpec {
    cfg.defaultSpec.GetOr(FormatSpec(Some(""), Some(FallbackWidth)))
  }

  /** `infer_format_name`: the format name of the first matcher, in
      declaration order, whose pattern is found in the column name, or
      `fallback` when none is. */
  function InferFormatName(col: string, matchers: seq<(string, string)>, fallback: Option<string>,
                           search: Search): (r: Option<string>)
    ensures (forall i :: 0 <= i < |matchers| ==> !search(matchers[i].0, col)) ==> r == fallback
    ensures (exists i :: 0 <= i < |matchers| && search(matchers[i].0, col)) ==>
      exists i :: 0 <= i < |matchers| && search(matchers[i].0, col) && r == Some(matchers[i].1) &&
        forall j :: 0 <= j < i ==> !search(matchers[j].0, col)
  {
    if matchers == [] then fallback
    else if search(matchers[0].0, col) then Some(matchers[0].1)
    else
      var r := InferFormatName(col, matchers[1..], fallback, search);
      assert forall i :: 1 <= i < |matchers| ==> matchers[i] == matchers[1..][i - 1];
      r
  }

  /** Two matchers that both match: the earlier one decides, however specific
      the later one is. */
  lemma FirstMatchWins(col: string, matchers: seq<(string, string)>, fallback: Option<string>,
                       search: Search, i: nat, j: nat)
    requires i < j < |matchers|
    requires search(matchers[i].0, col) && search(matchers[j].0, col)
    requires forall k :: 0 <= k < i ==> !search(matchers[k].0, col)
    ensures InferFormatName(col, matchers, fallback, search) == Some(matchers[i].1)
  {
    var r := InferFormatName(col, matchers, fallback, search);
    var i' :| 0 <= i' < |matchers| && search(matchers[i'].0, col) && r == Some(matchers[i'].1) &&
              forall k :: 0 <= k < i' ==> !search(matchers[k].0, col);
    assert i' == i;
  }

  /** Python truthiness of the inferred format name (None and "" are false). */
  predicate IsNamed(fmtName: Option<string>) {
    fmtName.Some? && fmtName.value != ""
  }

  /** The key `get_format_obj` caches the format object under. */
  function CacheKey(fmtName: Option<string>): string {
    if IsNamed(fmtName) then fmtName.value else DefaultKey
  }

  /** The spec `get_format_obj` builds for a format name. */
  function SpecFor(fmtName: Option<string>, cfg: FormatConfig): (spec: FormatSpec)
    ensures !IsNamed(fmtName) ==> spec == DefaultSpec(cfg)
    ensures IsNamed(fmtName) && fmtName.value in cfg.named ==> spec == cfg.named[fmtName.value]
    ensures IsNamed(fmtName) && fmtName.value !in cfg.named ==> spec == DefaultSpec(cfg)
  {
    if !IsNamed(fmtName) then DefaultSpec(cfg)
    else if fmtName.value in cfg.named then cfg.named[fmtName.value]
    else DefaultSpec(cfg)
  }

  /** The arguments `build_format` gives `add_format`: the number format when
      the spec has a truthy one, else nothing. */
  type FormatArgs = Option<string>

  function BuildFormat(spec: FormatSpec): (args: FormatArgs)
    ensures args.Some? <==> spec.numFormat.Some? && spec.numFormat.value != ""
    ensures args.Some? ==> args == spec.numFormat
  {
    if spec.numFormat.Some? && spec.numFormat.value != "" then spec.numFormat else None
  }

  /** The arguments of the format object cached under `key`. */
  function KeyArgs(key: string, cfg: FormatConfig): FormatArgs {
    if key != DefaultKey && key in cfg.named then BuildFormat(cfg.named[key])
    else BuildFormat(DefaultSpec(cfg))
  }

  /** The cache key "__default__" is shared by "no format matched" and a named
      format literally called "__default__"; the key determines the format
      object only when those two build the same arguments. */
  predicate Unambiguous(cfg: FormatConfig) {
    DefaultKey in cfg.named ==> BuildFormat(cfg.named[DefaultKey]) == BuildFormat(DefaultSpec(cfg))
  }

  lemma {:induction false} KeyArgsOfName(fmtName: Option<string>, cfg: FormatConfig)
    requires Unambiguous(cfg)
    ensures KeyArgs(CacheKey(fmtName), cfg) == BuildFormat(SpecFor(fmtName, cfg))
  {
  }

  // ---------------------------------------------------------------------
  // autosize_width

  /** `series.dropna()`: the values that are not missing, in order. */
  function Present(values: seq<Option<string>>): (p: seq<string>)
    ensures |p| <= |values|
  {
    if values == [] then []
    else Present(values[..|values| - 1]) + (if values[|values| - 1].Some? then [values[|values| - 1].value] else [])
  }

  /** `dropna` keeps exactly the present values: every value kept is present
      in `values` and every present value is kept, and nothing is dropped
      exactly when nothing is missing. `PresentAppend` gives the order: the
      values of a prefix come first. */
  lemma {:induction false} PresentKeeps(values: seq<Option<string>>)
    ensures forall v :: v in Present(values) <==> Some(v) in values
    ensures |Present(values)| == |values| <==> forall i :: 0 <= i < |values| ==> values[i].Some?
    decreases |values|
  {
    if values != [] {
      var init, last := values[..|values| - 1], values[|values| - 1];
      assert values == init + [last];
      PresentKeeps(init);
    }
  }

  lemma {:induction false} PresentAppend(a: seq<Option<string>>, b: seq<Option<string>>)
    ensures Present(a + b) == Present(a) + Present(b)
    decreases |b|
  {
    if b == [] {
      assert a + b == a;
    } else {
      assert (a + b)[..|a + b| - 1] == a + b[..|b| - 1];
      PresentAppend(a, b[..|b| - 1]);
    }
  }

  /** `.head(200)` of the non-missing values. */
  function Sample(values: seq<Option<string>>): (s: seq<string>)
    ensures |s| <= SampleSize
  {
    var p := Present(values);
    if |p| <= SampleSize then p else p[..SampleSize]
  }

  /** The larger of the header length and the longest sampled value. */
  function Longest(header: string, sample: seq<string>): (n: nat)
    ensures n >= |header|
    ensures forall v :: v in sample ==> n >= |v|
    ensures n == |header| || exists v :: v in sample && n == |v|
  {
    if sample == [] then |header|
    else
      var init := sample[..|sample| - 1];
      var last := sample[|sample| - 1];
      assert sample == init + [last];
      var m := Longest(header, init);
      if m < |last| then |last| else m
  }

  function Clamp(n: int): int {
    Min(MaxWidth, Max(MinWidth, n))
  }

  /** The width `autosize_width` computes: the padded longest length, clamped
      to [10, 40]. */
  function AutoWidth(header: string, values: seq<Option<string>>): int {
    Clamp(Longest(header, Sample(values)) + 2)
  }

  /** The autosized width lies in [10, 40], covers the header and every
      sampled value (up to the cap), and is the padded length of one of them
      unless a bound applies. */
  lemma AutoWidthBounds(header: string, values: seq<Option<string>>)
    ensures MinWidth <= AutoWidth(header, values) <= MaxWidth
    ensures AutoWidth(header, values) >= Min(MaxWidth, |header| + 2)
    ensures forall v :: v in Sample(values) ==> AutoWidth(header, values) >= Min(MaxWidth, |v| + 2)
    ensures var w := AutoWidth(header, values);
      w == MinWidth || w == MaxWidth || w == |header| + 2 ||
      exists v :: v in Sample(values) && w == |v| + 2
  {
  }

  /** Values after the 200th non-missing one cannot change the width. */
  lemma {:induction false} AutoWidthIgnoresLaterValues(header: string, values: seq<Option<string>>,
                                                       later: seq<Option<string>>)
    requires |Present(values)| >= SampleSize
    ensures AutoWidth(header, values + later) == AutoWidth(header, values)
  {
    PresentAppend(values, later);
    assert Present(values + later)[..SampleSize] == Present(values)[..SampleSize];
  }

  /** `autosize_width(series)`: a running maximum over the sample. */
  method AutosizeWidth(header: string, values: seq<Option<string>>) returns (w: int)
    ensures w == AutoWidth(header, values)
  {
    var maxLen := |header|;
    var sample := Sample(values);
    for i := 0 to |sample|
      invariant maxLen == Longest(header, sample[..i])
    {
      assert sample[..i + 1][..i] == sample[..i];
      maxLen := Max(maxLen, |sample[i]|);
    }
    assert sample[..|sample|] == sample;
    w := Min(MaxWidth, Max(MinWidth, maxLen + 2));
  }

  // ---------------------------------------------------------------------
  // Column width precedence

  /** The width of the matched named format, when the name is truthy, is in
      `named`, and that spec has a width. */
  function NamedWidth(fmtName: Option<string>, cfg: FormatConfig): Option<int> {
    if IsNamed(fmtName) && fmtName.value in cfg.named then cfg.named[fmtName.value].width else None
  }

  /** Column `col` has neither an override nor a named width, and the
      default spec has no width: its width is left to `autosize_width`. */
  predicate Autosized(col: string, fmtName: Option<string>, overrides: map<string, int>, cfg: FormatConfig) {
    col !in overrides && NamedWidth(fmtName, cfg).None? && DefaultSpec(cfg).width.None?
  }

  /** The width `set_column_formats_and_widths` gives column `col`. */
  function ColumnWidth(col: string, fmtName: Option<string>, overrides: map<string, int>,
                       cfg: FormatConfig, values: seq<Option<string>>): (w: int)
    ensures col in overrides ==> w == overrides[col]
    ensures col !in overrides && NamedWidth(fmtName, cfg).Some? ==> w == NamedWidth(fmtName, cfg).value
    ensures col !in overrides && NamedWidth(fmtName, cfg).None? && DefaultSpec(cfg).width.Some? ==>
      w == DefaultSpec(cfg).width.value
    ensures Autosized(col, fmtName, overrides, cfg) ==> MinWidth <= w <= MaxWidth && w == AutoWidth(col, values)
  {
    AutoWidthBounds(col, values);
    if col in overrides then overrides[col]
    else if NamedWidth(fmtName, cfg).Some? then NamedWidth(fmtName, cfg).value
    else if DefaultSpec(cfg).width.Some? then DefaultSpec(cfg).width.value
    else AutoWidth(col, values)
  }

  /** Without a `formats.default` table every column that has neither an
      override nor a named width is 14 wide: autosizing never happens. */
  lemma NoDefaultMeansFourteen(col: string, fmtName: Option<string>, overrides: map<string, int>,
                               cfg: FormatConfig, values: seq<Option<string>>)
    requires cfg.defaultSpec.None? && col !in overrides && NamedWidth(fmtName, cfg).None?
    ensures ColumnWidth(col, fmtName, overrides, cfg, values) == FallbackWidth
  {
  }

  /** A matched name missing from `named` behaves like no match at all: the
      default spec's format and the default width. */
  lemma UnknownNameIsDefault(col: string, name: string, overrides: map<string, int>,
                             cfg: FormatConfig, values: seq<Option<string>>)
    requires name !in cfg.named
    ensures SpecFor(Some(name), cfg) == SpecFor(None, cfg)
    ensures ColumnWidth(col, Some(name), overrides, cfg, values) ==
            ColumnWidth(col, None, overrides, cfg, values)
  {
  }
}
