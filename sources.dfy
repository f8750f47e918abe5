/** The data-source resolver: `load_dataframe` and `load_image` turn a source
    descriptor from the configuration into a table or an image. File readers,
    file existence, module import and the user callables themselves belong to
    the host and are given by an `Env`. */
module Sources {
  import opened Common
  import opened Frames
  import opened Callables

  /** Keyword arguments passed verbatim to a user callable. */
  type Kwargs = map<string, string>

  /** A source descriptor (`t_cfg["source"][0]`): every key is optional. */
  datatype Source = Source(
    stype: Option<string>,          // "type"
    path: Option<string>,           // "path", for file sources
    sheet: Option<string>,          // "sheet", for excel sources
    registry: Option<string>,       // "registry"
    dotted: Option<string>,         // "dotted"
    moduleName: Option<string>,     // legacy "module"
    functionName: Option<string>,   // legacy "function"
    kwargs: Option<Kwargs>,         // "kwargs"
    key: Option<string>)            // "key", selects from a dict result

  /** What a user callable may return: a DataFrame, a dict, raw bytes, or
      anything else. */
  datatype Returned =
    | Frame(frame: DataFrame)
    | Dict(entries: map<string, Returned>)
    | Bytes(data: seq<bv8>)
    | Other

  /** The host: the `func_registry` argument (None and {} are both the empty
      map), the importable modules, how a callable answers its keyword
      arguments (its result, or the exception it raises), the CSV reader, the Excel reader for one named sheet and
      for every sheet at once (`sheet_name=None`, a dict by sheet name), and
      the image files that exist (by path as configured, with their
      contents). */
  datatype Env = Env(
    registry: map<string, FuncRef>,
    modules: Modules,
    invoke: (FuncRef, Kwargs) -> Result<Returned>,
    readCsv: string -> Result<DataFrame>,
    readSheet: (string, string) -> Result<DataFrame>,
    readAllSheets: string -> Result<map<string, DataFrame>>,
    files: map<string, seq<bv8>>)

  /** What `load_dataframe` returns: a DataFrame, or, for an Excel source
      without a sheet, the dict of every sheet that `read_excel` gives. */
  datatype Loaded = OneFrame(frame: DataFrame) | SheetDict(sheets: map<string, DataFrame>)

  function AsTable(r: Result<DataFrame>): Result<Loaded> {
    if r.Err? then Err(r.error) else Ok(OneFrame(r.value))
  }

  const ImageTypes: set<string> := {"gif", "jpg", "png", "tif"}
  const FunctionTypes: set<string> := {"function", "callable", "python"}

  predicate IsType(src: Source, types: set<string>) {
    src.stype.Some? && src.stype.value in types
  }

  /** `source.get("kwargs", {}) or {}` */
  function KwargsOf(src: Source): Kwargs {
    src.kwargs.GetOr(map[])
  }

  /** The registry is consulted only when the descriptor names an entry and the
      registry is truthy (non-empty). */
  predicate UsesRegistry(src: Source, env: Env) {
    src.registry.Some? && |env.registry| > 0
  }

  /** The strategy dispatch shared by `load_dataframe` and `load_image` for
      function sources: registry name, else dotted reference, else the legacy
      module + function pair, else a configuration error. */
  function ResolveFunction(src: Source, env: Env): (r: Result<FuncRef>)
    ensures UsesRegistry(src, env) ==>
      if src.registry.value in env.registry then r == Ok(env.registry[src.registry.value])
      else r == Err(KeyError(src.registry.value))
    ensures !UsesRegistry(src, env) && src.dotted.Some? ==>
      r == ResolveCallable(src.dotted.value, env.modules)
    ensures !UsesRegistry(src, env) && src.dotted.None? &&
            (src.moduleName.None? || src.functionName.None?) ==>
      r.Err? && r.error.ValueError?
    ensures r.Err? ==>
      r.error.KeyError? || r.error.ValueError? || r.error.TypeError? || r.error.ImportError? || r.error.AttributeError?
  {
    if UsesRegistry(src, env) then
      var name := src.registry.value;
      if name !in env.registry then Err(KeyError(name))
      else Ok(env.registry[name])
    else if src.dotted.Some? then
      ResolveCallable(src.dotted.value, env.modules)
    else if src.moduleName.Some? && src.functionName.Some? then
      ResolveCallable(src.moduleName.value + "." + src.functionName.value, env.modules)
    else
      Err(ValueError("Function source requires 'registry' or 'dotted' (or 'module'+'function')."))
  }

  /** The legacy pair is the dotted reference "module.function". */
  lemma LegacyPairIsDotted(src: Source, env: Env)
    requires !UsesRegistry(src, env) && src.dotted.None?
    requires src.moduleName.Some? && src.functionName.Some?
    ensures ResolveFunction(src, env) ==
            ResolveFunction(src.(dotted := Some(src.moduleName.value + "." + src.functionName.value)), env)
  {
  }

  /** An empty registry is ignored even when the descriptor names an entry:
      resolution proceeds as if no registry name were given. */
  lemma EmptyRegistryIgnored(src: Source, env: Env)
    requires |env.registry| == 0
    ensures ResolveFunction(src, env) == ResolveFunction(src.(registry := None), env)
  {
  }

  /** The result check of `load_dataframe` for function sources: a DataFrame is
      accepted; a dict needs `key` and a DataFrame under it; anything else is a
      TypeError. */
  function AcceptFrame(ret: Returned, key: Option<string>): (r: Result<DataFrame>)
    ensures r.Ok? <==>
      || ret.Frame?
      || (ret.Dict? && key.Some? && key.value in ret.entries && ret.entries[key.value].Frame?)
    ensures r.Ok? && ret.Frame? ==> r.value == ret.frame
    ensures r.Ok? && ret.Dict? ==> r.value == ret.entries[key.value].frame
    ensures r.Err? ==> r.error.TypeError?
  {
    match ret
    case Frame(df) => Ok(df)
    case Dict(entries) =>
      if key.None? then Err(TypeError("Function returned a dict; please specify source.key in TOML."))
      else if key.value in entries && entries[key.value].Frame? then Ok(entries[key.value].frame)
      else Err(TypeError(key.value))
    case _ => Err(TypeError("did not return a pandas DataFrame"))
  }

  /** `load_dataframe`. An Excel source without `sheet` passes
      `sheet_name=None`, so it returns the dict of all sheets and never a
      single table. */
  function LoadDataFrame(src: Source, env: Env): (r: Result<Loaded>)
    ensures src.stype == Some("csv") ==>
      r == (if src.path.None? then Err(KeyError("path")) else AsTable(env.readCsv(src.path.value)))
    ensures src.stype == Some("excel") && src.path.Some? && src.sheet.Some? ==>
      r == AsTable(env.readSheet(src.path.value, src.sheet.value))
    ensures src.stype == Some("excel") && src.path.Some? && src.sheet.None? ==>
      (r.Ok? <==> env.readAllSheets(src.path.value).Ok?) &&
      (r.Ok? ==> r == Ok(SheetDict(env.readAllSheets(src.path.value).value))) &&
      (r.Err? ==> r.error == env.readAllSheets(src.path.value).error)
    ensures src.stype == Some("excel") && src.path.None? ==> r == Err(KeyError("path"))
    ensures IsType(src, FunctionTypes) ==>
      match ResolveFunction(src, env)
      case Err(e) => r == Err(e)
      case Ok(f) =>
        && (env.invoke(f, KwargsOf(src)).Err? ==> r == Err(env.invoke(f, KwargsOf(src)).error))
        && (env.invoke(f, KwargsOf(src)).Ok? ==> r == AsTable(AcceptFrame(env.invoke(f, KwargsOf(src)).value, src.key)))
    ensures src.stype != Some("csv") && src.stype != Some("excel") && !IsType(src, FunctionTypes) ==>
      r.Err? && r.error.ValueError?
    ensures r.Ok? && r.value.SheetDict? ==> src.stype == Some("excel") && src.sheet.None?
  {
    if src.stype == Some("csv") then
      if src.path.None? then Err(KeyError("path")) else AsTable(env.readCsv(src.path.value))
    else if src.stype == Some("excel") then
      if src.path.None? then Err(KeyError("path"))
      else if src.sheet.Some? then AsTable(env.readSheet(src.path.value, src.sheet.value))
      else
        var sheets :- env.readAllSheets(src.path.value);
        Ok(SheetDict(sheets))
    else if IsType(src, FunctionTypes) then
      var f :- ResolveFunction(src, env);
      var result :- env.invoke(f, KwargsOf(src));
      AsTable(AcceptFrame(result, src.key))
    else
      Err(ValueError("Unsupported source.type"))
  }

  /** `load_image`: an image file's bytes, or whatever a function source
      returns. Any other type falls through to `return result` with `result`
      never assigned, which Python reports as an UnboundLocalError. */
  function LoadImage(src: Source, env: Env): (r: Result<Returned>)
    ensures IsType(src, ImageTypes) ==>
      if src.path.None? then r == Err(KeyError("path"))
      else if src.path.value in env.files then r == Ok(Bytes(env.files[src.path.value]))
      else r == Err(FileNotFoundError(src.path.value))
    ensures IsType(src, FunctionTypes) ==>
      match ResolveFunction(src, env)
      case Err(e) => r == Err(e)
      case Ok(f) => r == env.invoke(f, KwargsOf(src))
    ensures !IsType(src, ImageTypes) && !IsType(src, FunctionTypes) ==>
      r.Err? && r.error.UnboundLocalError?
  {
    if IsType(src, ImageTypes) then
      if src.path.None? then Err(KeyError("path"))
      else if src.path.value !in env.files then Err(FileNotFoundError(src.path.value))
      else Ok(Bytes(env.files[src.path.value]))
    else if IsType(src, FunctionTypes) then
      var f :- ResolveFunction(src, env);
      env.invoke(f, KwargsOf(src))
    else
      Err(UnboundLocalError("result"))
  }

  /** A function source whose callable returns a dict and which gives no `key`
      fails with a TypeError: it never yields an empty table silently. */
  lemma DictWithoutKeyFails(src: Source, env: Env)
    requires IsType(src, FunctionTypes) && src.key.None?
    requires ResolveFunction(src, env).Ok?
    requires env.invoke(ResolveFunction(src, env).value, KwargsOf(src)).Ok?
    requires env.invoke(ResolveFunction(src, env).value, KwargsOf(src)).value.Dict?
    ensures LoadDataFrame(src, env).Err? && LoadDataFrame(src, env).error.TypeError?
  {
  }
}
