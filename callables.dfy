/** `resolve_callable`: turning a dotted reference such as "pkg.mod:func" or
    "pkg.mod.func" into a callable. Importing a module and fetching an
    attribute are the interpreter's business; the model receives the modules
    that can be imported, each with its attributes. */
module Callables {
  import opened Common

  /** The identity of a Python callable. */
  datatype FuncRef = FuncRef(id: string)

  /** A module attribute: a callable, or some other object. */
  datatype Attr = Callable(func: FuncRef) | NotCallable

  /** The importable modules, by dotted module path, with their attributes. */
  type Modules = map<string, map<string, Attr>>

  /** `dotted.replace(":", ".")` */
  function Normalise(dotted: string): (r: string)
    ensures |r| == |dotted|
    ensures forall i :: 0 <= i < |dotted| ==> r[i] == (if dotted[i] == ':' then '.' else dotted[i])
    ensures ':' !in r
  {
    if dotted == [] then []
    else [if dotted[0] == ':' then '.' else dotted[0]] + Normalise(dotted[1..])
  }

  /** The position of the last occurrence of `c` in `s`, if any. */
  function LastIndexOf(s: string, c: char): (k: Option<nat>)
    ensures k.None? <==> c !in s
    ensures k.Some? ==> k.value < |s| && s[k.value] == c && c !in s[k.value + 1..]
  {
    if s == [] then None
    else if s[|s| - 1] == c then Some(|s| - 1)
    else
      var k := LastIndexOf(s[..|s| - 1], c);
      assert s == s[..|s| - 1] + [s[|s| - 1]];
      if k.Some? then
        assert s[k.value + 1..] == s[..|s| - 1][k.value + 1..] + [s[|s| - 1]];
        k
      else k
  }

  /** The string part of `resolve_callable`: normalise, reject a reference
      without a dot, and split at the last dot into module path and function
      name. */
  function SplitDotted(dotted: string): (r: Result<(string, string)>)
    ensures r.Err? <==> '.' !in Normalise(dotted)
    ensures r.Err? ==> r.error == ValueError(Normalise(dotted))
    ensures r.Ok? ==> '.' !in r.value.1 && ':' !in r.value.0 + r.value.1
    ensures r.Ok? ==> r.value.0 + "." + r.value.1 == Normalise(dotted)
  {
    var n := Normalise(dotted);
    match LastIndexOf(n, '.')
    case None => Err(ValueError(n))
    case Some(k) =>
      var (m, f) := (n[..k], n[k + 1..]);
      assert n == m + [n[k]] + f;
      assert multiset(m + f) <= multiset(n);
      Ok((m, f))
  }

  /** The split is the only one possible: any module path and dot-free
      function name that join to the normalised reference are the ones
      `SplitDotted` returns. */
  lemma {:induction false} SplitDottedUnique(dotted: string, modulePath: string, funcName: string)
    requires '.' !in funcName
    requires modulePath + "." + funcName == Normalise(dotted)
    ensures SplitDotted(dotted) == Ok((modulePath, funcName))
  {
    var n := Normalise(dotted);
    var m := |modulePath|;
    assert n[m] == '.';
    assert n[..m] == modulePath;
    assert n[m + 1..] == funcName;
  }

  /** What `importlib.import_module` raises for an empty module name. */
  const EmptyModuleName := "Empty module name"

  /** What `importlib.import_module` raises for a relative module name such
      as ".mod", since no package is given to resolve it against. */
  function RelativeImportMessage(modulePath: string): string {
    "the 'package' argument is required to perform a relative import for '" + modulePath + "'"
  }

  /** `resolve_callable(dotted)`: the callable named by the reference, or the
      exception raised on the way: ValueError for a reference without a dot,
      ValueError when the module path is empty, TypeError when it starts
      with a dot (a relative import), ImportError when the module cannot be
      imported, AttributeError when the attribute is missing or not
      callable. */
  function ResolveCallable(dotted: string, modules: Modules): (r: Result<FuncRef>)
    ensures r.Ok? <==>
      SplitDotted(dotted).Ok? &&
      var (m, f) := SplitDotted(dotted).value;
      m != [] && m[0] != '.' && m in modules && f in modules[m] && modules[m][f].Callable?
    ensures r.Ok? ==>
      var (m, f) := SplitDotted(dotted).value;
      r.value == modules[m][f].func
    ensures r.Err? ==>
      || (r.error == ValueError(Normalise(dotted)) && '.' !in Normalise(dotted))
      || (r.error == ValueError(EmptyModuleName) && SplitDotted(dotted).Ok? && SplitDotted(dotted).value.0 == [])
      || (r.error.TypeError? && SplitDotted(dotted).Ok? && SplitDotted(dotted).value.0 != [] &&
          SplitDotted(dotted).value.0[0] == '.')
      || (r.error.ImportError? && SplitDotted(dotted).Ok? && SplitDotted(dotted).value.0 !in modules)
      || (r.error == AttributeError(Normalise(dotted)) && SplitDotted(dotted).Ok?)
  {
    var (modulePath, funcName) :- SplitDotted(dotted);
    if modulePath == [] then Err(ValueError(EmptyModuleName))
    else if modulePath[0] == '.' then Err(TypeError(RelativeImportMessage(modulePath)))
    else if modulePath !in modules then Err(ImportError(modulePath))
    else if funcName in modules[modulePath] && modules[modulePath][funcName].Callable? then
      Ok(modules[modulePath][funcName].func)
    else Err(AttributeError(Normalise(dotted)))
  }

  /** A reference that names only a function, as in ":func" or ".func",
      has an empty module path, which nothing can import, whatever the
      importable modules are. */
  lemma {:induction false} BareFunctionFails(funcName: string, modules: Modules)
    requires '.' !in funcName && ':' !in funcName
    ensures ResolveCallable(":" + funcName, modules) == Err(ValueError(EmptyModuleName))
    ensures ResolveCallable("." + funcName, modules) == Err(ValueError(EmptyModuleName))
  {
    assert Normalise(":" + funcName) == "" + "." + funcName;
    assert Normalise("." + funcName) == "" + "." + funcName;
    SplitDottedUnique(":" + funcName, "", funcName);
    SplitDottedUnique("." + funcName, "", funcName);
  }

  /** ':' and '.' are interchangeable separators: two references that
      normalise alike resolve alike. */
  lemma ColonIsDot(d1: string, d2: string, modules: Modules)
    requires Normalise(d1) == Normalise(d2)
    ensures ResolveCallable(d1, modules) == ResolveCallable(d2, modules)
  {
  }
}
