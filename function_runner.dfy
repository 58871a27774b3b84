/// i2i_src/backend/tools/function_runner.py: `run(function_path, **kwargs)`
/// resolves a helper written as `module:function`, calls it with the
/// gathered fields as keyword arguments and checks that it returned a UI
/// event. The importable modules are an explicit namespace.
module FunctionRunner {
  import opened Py
  import opened Values

  /** A module attribute: a callable of keyword arguments, or some other
      object. */
  datatype Attr = Callable(call: Dict -> Result<Value>) | Plain(v: Value)

  /** The importable modules: module name -> attribute name -> attribute. */
  type Modules = map<string, map<string, Attr>>

  /** `importlib.import_module(name)` followed by `getattr(module, attr)`;
      a missing attribute becomes the ImportError `run` raises. */
  function Lookup(mods: Modules, moduleName: string, funcName: string): (r: Result<Attr>)
    ensures r.Ok? <==> moduleName != "" && moduleName in mods && funcName in mods[moduleName]
    ensures r.Ok? ==> r.value == mods[moduleName][funcName]
    ensures moduleName != "" && moduleName in mods && funcName !in mods[moduleName] ==>
      r == Err(ImportError("Could not find function '" + funcName + "' in module '" + moduleName + "'"))
  {
    if moduleName == "" then Err(ValueError("Empty module name"))
    else if moduleName !in mods then Err(ModuleNotFoundError(moduleName))
    else if funcName !in mods[moduleName] then
      Err(ImportError("Could not find function '" + funcName + "' in module '" + moduleName + "'"))
    else Ok(mods[moduleName][funcName])
  }

  /** The result check: a dict holding a `"ui_event"` key is returned as is;
      anything else is a ValueError naming its type. */
  function CheckResult(result: Value): (r: Result<Dict>)
    ensures r.Ok? <==> result.Dict? && "ui_event" in result.fields
    ensures r.Ok? ==> Dict(r.value) == result
    ensures r.Err? ==> r.error.ValueError?
  {
    if result.Dict? && "ui_event" in result.fields then Ok(result.fields)
    else Err(ValueError("Helper must return a dict that includes a 'ui_event' key (got " + TypeName(result) + ")"))
  }

  /** `run(function_path, **kwargs)` */
  function Run(mods: Modules, functionPath: string, kwargs: Dict): (r: Result<Dict>)
    ensures ':' !in functionPath ==>
      r == Err(ValueError("function_path must be 'module.sub:func', got '" + functionPath + "'"))
    ensures r.Ok? ==> "ui_event" in r.value
  {
    match SplitOnce(functionPath, ':')
    case None => Err(ValueError("function_path must be 'module.sub:func', got '" + functionPath + "'"))
    case Some((moduleName, funcName)) =>
      var attr :- Lookup(mods, moduleName, funcName);
      match attr
      case Plain(_) => Err(TypeError("Target '" + functionPath + "' is not callable"))
      case Callable(f) =>
        var result :- f(kwargs);
        CheckResult(result)
  }

  /** The path is split at its first `:`: the module is the text before it
      and the function name all of the rest. A missing function is an
      ImportError, a non-callable attribute a TypeError, and a callable is
      called once with the keyword arguments unchanged, its exception
      propagating and its result checked. */
  lemma RunAt(mods: Modules, moduleName: string, funcName: string, kwargs: Dict)
    requires ':' !in moduleName
    ensures var r := Run(mods, moduleName + ":" + funcName, kwargs);
      && (Lookup(mods, moduleName, funcName).Err? ==> r == Err(Lookup(mods, moduleName, funcName).error))
      && (Lookup(mods, moduleName, funcName).Ok? && mods[moduleName][funcName].Plain? ==>
            r == Err(TypeError("Target '" + moduleName + ":" + funcName + "' is not callable")))
      && (Lookup(mods, moduleName, funcName).Ok? && mods[moduleName][funcName].Callable? ==>
            var out := mods[moduleName][funcName].call(kwargs);
            && (out.Err? ==> r == Err(out.error))
            && (out.Ok? ==> r == CheckResult(out.value)))
  {
    var path := moduleName + ":" + funcName;
    assert path == moduleName + [':'] + funcName;
    SplitOnceAt(moduleName, funcName, ':');
    assert SplitOnce(path, ':') == Some((moduleName, funcName));
    if Lookup(mods, moduleName, funcName).Ok? && mods[moduleName][funcName].Plain? {
      assert Run(mods, path, kwargs) == Err(TypeError("Target '" + path + "' is not callable"));
      assert "Target '" + path + "' is not callable" == "Target '" + moduleName + ":" + funcName + "' is not callable";
    }
  }

  /** A successful run returns exactly the dict the helper returned. */
  lemma RunReturnsHelperResult(mods: Modules, functionPath: string, kwargs: Dict)
    requires Run(mods, functionPath, kwargs).Ok?
    ensures ':' in functionPath
    ensures var (m, f) := SplitOnce(functionPath, ':').value;
      && m in mods && f in mods[m] && mods[m][f].Callable?
      && mods[m][f].call(kwargs) == Ok(Dict(Run(mods, functionPath, kwargs).value))
  {
  }

  /** A path of several colons keeps all but the first in the function
      name: for `"pkg:b:c"` the attribute looked up in `pkg` is `"b:c"`,
      and its absence is the ImportError naming it. */
  lemma FirstColonSplit(mods: Modules, kwargs: Dict)
    requires "pkg" in mods && "b:c" !in mods["pkg"]
    ensures Run(mods, "pkg:b:c", kwargs) == Err(Lookup(mods, "pkg", "b:c").error)
    ensures Lookup(mods, "pkg", "b:c").error.ImportError?
  {
    assert "pkg" + ":" + "b:c" == "pkg:b:c";
    assert ':' !in "pkg";
    RunAt(mods, "pkg", "b:c", kwargs);
  }
}
