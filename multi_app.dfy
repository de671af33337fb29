/** extrude/multi_app.py: a root navigation page that dispatches to child
    apps, driven by one session field. Streamlit reruns the whole script on
    every interaction; one call of `DispatchChildApps` is one such run. The
    widgets it renders and the module executions it performs are logged in
    the session; what a child app renders itself and what importlib does are
    left to the environment. */
module MultiApp {
  import opened Results
  import opened Strings
  import opened Dicts
  import opened PosixPath

  const ROOT_APP := "__extrude_root__"
  const EXTRUDE_FUNCS := "extrude_funcs"
  const BACK_KEY := "backtoroot"

  /** `importlib.machinery.ModuleSpec`, as far as it matters here. */
  datatype ModuleSpec = ModuleSpec(name: string, origin: string)

  /** The Python values found in the configuration and in a child module. */
  datatype PyVal =
    | NoneV
    | BoolV(b: bool)
    | IntV(i: int)
    | StrV(s: string)
    | ListV(items: seq<PyVal>)
    | DictV(entries: Dict<PyVal>)
    | FuncV(id: string)                                 // a function or other callable object
    | DispatchFuncs(funcs: PyVal, configs: Dict<PyVal>)  // the `dispatch` closure of `mk_dflt_dispatch`

  /** `bool(v)` */
  predicate Truthy(v: PyVal)
  {
    match v
    case NoneV => false
    case BoolV(b) => b
    case IntV(i) => i != 0
    case StrV(s) => s != ""
    case ListV(xs) => xs != []
    case DictV(es) => es != []
    case FuncV(_) => true
    case DispatchFuncs(_, _) => true
  }

  /** The kinds of exception that occur here. `Raised` is any other
      subclass of `Exception`; `BaseExceptionOnly` is a `BaseException` that
      is not an `Exception` (`SystemExit`, `KeyboardInterrupt`, the requests
      streamlit's `st.stop()` and `st.rerun()` raise). */
  datatype ExcKind =
    | KeyError | AttributeError | TypeError | ValueError | Raised(name: string)
    | BaseExceptionOnly(name: string)

  /** An exception; `message` is `str(exception)`. */
  datatype Exception = Exception(kind: ExcKind, message: string)

  /** `except Exception` catches it. */
  predicate Caught(e: Exception)
  {
    !e.kind.BaseExceptionOnly?
  }

  /** What the script reads from the file system and asks of importlib and
      of the code it calls. */
  datatype Env = Env(
    cwd: string,
    isDir: string -> bool,
    listDir: string -> seq<string>,
    /** `spec_from_file_location` finds a loader for the file. */
    loadable: string -> bool,
    /** `execute_module_spec`: the module's attributes, or what it raised,
        given how many times the spec was already executed in this run
        (each execution builds a fresh module and reruns its top level). */
    execModule: (ModuleSpec, nat) -> Result<Dict<PyVal>, Exception>,
    /** calling a callable with no arguments */
    call: string -> Result<PyVal, Exception>,
    /** `streamlitfront.base.dispatch_funcs(funcs, configs=configs)` */
    dispatchFuncs: (PyVal, Dict<PyVal>) -> Result<PyVal, Exception>)

  /** The widgets the script renders. A button remembers the name its
      `on_click` callback passes to `set_current_module`. */
  datatype Widget =
    | PageConfig(layout: string)
    | Header(text: string)
    | Button(key: string, display: PyVal, sidebar: bool, target: string)
    | ErrorBox(message: string)

  const BACK_BUTTON := Button(BACK_KEY, StrV("Back to root"), true, ROOT_APP)

  /** How a run of the script ends: normally, or with an exception that
      escapes it. */
  datatype Outcome = Returned | Escaped(error: Exception)

  // ---------------------------------------------------------------------
  // Naming the children

  /** `get_module_spec_from_pathname(pathname)`; `None` where
      `spec_from_file_location` finds no loader. */
  function GetModuleSpec(env: Env, pathname: string): (spec: Option<ModuleSpec>)
    ensures spec.Some? ==> spec.value.name == Basename(NormPath(pathname))
    ensures spec.Some? ==> spec.value.origin == (if env.isDir(pathname) then JoinPath(pathname, "__init__.py") else pathname)
  {
    var name := Basename(NormPath(pathname));
    var location := if env.isDir(pathname) then JoinPath(pathname, "__init__.py") else pathname;
    if env.loadable(location) then Some(ModuleSpec(name, location)) else None
  }

  /** `module_specs` */
  function ModuleSpecs(env: Env, pathnames: seq<string>): (specs: seq<Option<ModuleSpec>>)
    ensures |specs| == |pathnames| && forall i :: 0 <= i < |pathnames| ==> specs[i] == GetModuleSpec(env, pathnames[i])
  {
    seq(|pathnames|, i requires 0 <= i < |pathnames| => GetModuleSpec(env, pathnames[i]))
  }

  /** `configs.get(name, configs)`: the child's own entry, or else the whole
      configuration. */
  function ConfigFor(configs: Dict<PyVal>, name: string): PyVal
  {
    if HasKey(configs, name) then Get(configs, name) else DictV(configs)
  }

  const NO_GET := Exception(AttributeError, "object has no attribute 'get'")

  /** `get_display_name(spec)` for a spec of this name. */
  function DisplayName(configs: Dict<PyVal>, name: string): Result<PyVal, Exception>
  {
    match ConfigFor(configs, name)
    case DictV(es) => Ok(GetOr(es, "display_name", StrV(name)))
    case _ => Err(NO_GET)
  }

  /** The display name is the child's own `display_name`, else the
      top-level `display_name` when the child has no entry, else its name. */
  lemma DisplayNameResolution(configs: Dict<PyVal>, name: string)
    ensures HasKey(configs, name) && Get(configs, name).DictV? ==>
              DisplayName(configs, name) == Ok(GetOr(Get(configs, name).entries, "display_name", StrV(name)))
    ensures HasKey(configs, name) && !Get(configs, name).DictV? ==> DisplayName(configs, name).Err?
    ensures !HasKey(configs, name) ==> DisplayName(configs, name) == Ok(GetOr(configs, "display_name", StrV(name)))
  {
  }

  /** `spec.name`, which fails on a missing spec. */
  const NO_NAME := Exception(AttributeError, "'NoneType' object has no attribute 'name'")

  /** `{spec.name: get_display_name(spec) for spec in module_specs}` */
  function AppNameMapping(specs: seq<Option<ModuleSpec>>, configs: Dict<PyVal>): Result<Dict<PyVal>, Exception>
    decreases |specs|
  {
    if specs == [] then Ok([])
    else
      match AppNameMapping(specs[..|specs| - 1], configs)
      case Err(e) => Err(e)
      case Ok(acc) => NameEntry(acc, specs[|specs| - 1], configs)
  }

  /** One entry of the comprehension. */
  function NameEntry(acc: Dict<PyVal>, spec: Option<ModuleSpec>, configs: Dict<PyVal>): Result<Dict<PyVal>, Exception>
  {
    if spec.None? then Err(NO_NAME)
    else
      match DisplayName(configs, spec.value.name)
      case Err(e) => Err(e)
      case Ok(display) => Ok(Put(acc, spec.value.name, display))
  }

  /** `{spec.name: spec for spec in module_specs}` */
  function ModuleMapping(specs: seq<Option<ModuleSpec>>): Dict<ModuleSpec>
    decreases |specs|
  {
    if specs == [] then []
    else
      var acc := ModuleMapping(specs[..|specs| - 1]);
      var spec := specs[|specs| - 1];
      if spec.Some? then Put(acc, spec.value.name, spec.value) else acc
  }

  /** The comprehension over a non-empty list: the prefix succeeded and the
      last entry was added to it. */
  lemma AppNameMappingLast(specs: seq<Option<ModuleSpec>>, configs: Dict<PyVal>)
    requires specs != [] && AppNameMapping(specs, configs).Ok?
    ensures AppNameMapping(specs[..|specs| - 1], configs).Ok?
    ensures specs[|specs| - 1].Some?
    ensures AppNameMapping(specs, configs) ==
              NameEntry(AppNameMapping(specs[..|specs| - 1], configs).value, specs[|specs| - 1], configs)
  {
  }

  /** Every path gave a spec. */
  ghost predicate NoMissing(specs: seq<Option<ModuleSpec>>)
  {
    forall i :: 0 <= i < |specs| ==> specs[i].Some?
  }

  /** The navigation mapping exists only when every path gave a spec. */
  lemma {:induction false} MappingNeedsSpecs(specs: seq<Option<ModuleSpec>>, configs: Dict<PyVal>)
    ensures AppNameMapping(specs, configs).Ok? ==> NoMissing(specs)
    decreases |specs|
  {
    if specs != [] && AppNameMapping(specs, configs).Ok? {
      AppNameMappingLast(specs, configs);
      MappingNeedsSpecs(specs[..|specs| - 1], configs);
      NoMissingSnoc(specs);
    }
  }

  lemma NoMissingSnoc(specs: seq<Option<ModuleSpec>>)
    requires specs != [] && NoMissing(specs[..|specs| - 1]) && specs[|specs| - 1].Some?
    ensures NoMissing(specs)
  {
    assert forall i :: 0 <= i < |specs| - 1 ==> specs[..|specs| - 1][i] == specs[i];
  }

  /** Both mappings have the children's names as keys, in first-seen order,
      and each name's label is its display name. */
  lemma {:induction false} MappingsAgree(specs: seq<Option<ModuleSpec>>, configs: Dict<PyVal>)
    requires AppNameMapping(specs, configs).Ok?
    ensures Agree(AppNameMapping(specs, configs).value, ModuleMapping(specs), configs)
    decreases |specs|
  {
    if specs != [] {
      var init := specs[..|specs| - 1];
      AppNameMappingLast(specs, configs);
      MappingsAgree(init, configs);
      AgreeStep(AppNameMapping(init, configs).value, ModuleMapping(init), configs, specs[|specs| - 1].value);
    }
  }

  /** The two mappings have the same keys in the same order, every module
      is filed under its own name and every label is that name's display
      name. */
  ghost predicate Agree(names: Dict<PyVal>, modules: Dict<ModuleSpec>, configs: Dict<PyVal>)
  {
    Keys(names) == Keys(modules) &&
    forall k :: HasKey(modules, k) ==> Get(modules, k).name == k && DisplayName(configs, k) == Ok(Get(names, k))
  }

  /** Adding one spec to both comprehensions keeps them in agreement. */
  lemma AgreeStep(names: Dict<PyVal>, modules: Dict<ModuleSpec>, configs: Dict<PyVal>, spec: ModuleSpec)
    requires Agree(names, modules, configs) && DisplayName(configs, spec.name).Ok?
    ensures Agree(Put(names, spec.name, DisplayName(configs, spec.name).value), Put(modules, spec.name, spec), configs)
  {
    var k := spec.name;
    var names' := Put(names, k, DisplayName(configs, k).value);
    var modules' := Put(modules, k, spec);
    assert HasKey(names, k) == HasKey(modules, k) by {
      assert Keys(names) == Keys(modules);
    }
    assert Keys(names') == Keys(modules');
    forall j | HasKey(modules', j)
      ensures Get(modules', j).name == j && DisplayName(configs, j) == Ok(Get(names', j))
    {
      if j != k {
        assert HasKey(modules, j);
      }
    }
  }

  /** Every child's name is a key of the module mapping. */
  lemma {:induction false} ModuleMappingHasAll(specs: seq<Option<ModuleSpec>>)
    ensures forall i :: 0 <= i < |specs| && specs[i].Some? ==> HasKey(ModuleMapping(specs), specs[i].value.name)
    decreases |specs|
  {
    if specs != [] {
      var init := specs[..|specs| - 1];
      ModuleMappingHasAll(init);
      assert forall i :: 0 <= i < |init| ==> init[i] == specs[i];
    }
  }

  /** `spec` is present and carries the name `k`. */
  predicate IsNamed(spec: Option<ModuleSpec>, k: string)
  {
    spec.Some? && spec.value.name == k
  }

  /** The position of the last spec named `k`, or -1. */
  function LastNamed(specs: seq<Option<ModuleSpec>>, k: string): (i: int)
    ensures -1 <= i < |specs|
    ensures i >= 0 ==> IsNamed(specs[i], k)
    ensures forall j :: i < j < |specs| ==> !IsNamed(specs[j], k)
    decreases |specs|
  {
    if specs == [] then -1
    else if IsNamed(specs[|specs| - 1], k) then |specs| - 1
    else
      var i := LastNamed(specs[..|specs| - 1], k);
      assert forall j :: 0 <= j < |specs| - 1 ==> specs[..|specs| - 1][j] == specs[j];
      i
  }

  /** A name is a key of the module mapping exactly when some spec has it,
      and the spec filed under it is the last one of that name: later
      entries of a comprehension overwrite earlier ones. */
  lemma {:induction false} ModuleMappingLast(specs: seq<Option<ModuleSpec>>, k: string)
    ensures HasKey(ModuleMapping(specs), k) <==> LastNamed(specs, k) >= 0
    ensures HasKey(ModuleMapping(specs), k) ==> Get(ModuleMapping(specs), k) == specs[LastNamed(specs, k)].value
    decreases |specs|
  {
    if specs != [] {
      var init := specs[..|specs| - 1];
      ModuleMappingLast(init, k);
      var last := specs[|specs| - 1];
      if !IsNamed(last, k) {
        assert LastNamed(specs, k) == LastNamed(init, k);
        if LastNamed(init, k) >= 0 {
          assert init[LastNamed(init, k)] == specs[LastNamed(init, k)];
        }
      }
    }
  }

  // ---------------------------------------------------------------------
  // The root page

  /** The buttons `render_root_nav(app_name_mapping)` renders, one per
      entry, in the mapping's order. */
  function NavButtons(mapping: Dict<PyVal>): (ws: seq<Widget>)
    ensures |ws| == |mapping|
    ensures forall i :: 0 <= i < |mapping| ==> ws[i] == Button(mapping[i].0, mapping[i].1, false, mapping[i].0)
  {
    seq(|mapping|, i requires 0 <= i < |mapping| => Button(mapping[i].0, mapping[i].1, false, mapping[i].0))
  }

  function RootNav(mapping: Dict<PyVal>): seq<Widget>
  {
    [PageConfig("centered"), Header("Choose an app")] + NavButtons(mapping)
  }

  // ---------------------------------------------------------------------
  // A child page

  /** `callable(v)` */
  predicate Callable(v: PyVal)
  {
    v.FuncV? || v.DispatchFuncs?
  }

  /** The app of a child page: a Python value, or the runner that
      `dispatch_raw_module` makes. */
  datatype App = Value(v: PyVal) | RawModule(spec: ModuleSpec)

  /** Calling a value with no arguments. */
  function CallValue(env: Env, v: PyVal): Result<PyVal, Exception>
  {
    match v
    case FuncV(id) => env.call(id)
    case DispatchFuncs(funcs, configs) => env.dispatchFuncs(funcs, configs)
    case _ => Err(Exception(TypeError, "object is not callable"))
  }

  /** `mk_dflt_dispatch(module, configs)`; `getattr` refuses a name that is
      not a string. */
  function DefaultDispatch(attrs: Dict<PyVal>, config: Dict<PyVal>): Result<PyVal, Exception>
  {
    match GetOr(config, "funcs_to_dispatch", StrV(EXTRUDE_FUNCS))
    case StrV(attr) => Ok(DispatchFuncs(GetOr(attrs, attr, ListV([])), config))
    case _ => Err(Exception(TypeError, "attribute name must be string"))
  }

  /** What the child page did before `app()`: the modules it executed and
      the app it settled on, or the exception that escaped. */
  datatype Resolution = Resolution(executions: seq<ModuleSpec>, app: Result<App, Exception>)

  /** Lines 109-122: the app from the configuration (or the raw-module
      runner), the module executed, a string app looked up in the module
      and then in the configuration, and a non-callable app replaced by what
      the dispatcher returns. */
  function ResolveApp(env: Env, spec: ModuleSpec, configs: Dict<PyVal>, name: string): Resolution
  {
    match ConfigFor(configs, name)
    case DictV(config) =>
      var configured := GetOr(config, "app", NoneV);
      var app := if Truthy(configured) then Value(configured) else RawModule(spec);
      (match env.execModule(spec, 0)
       case Err(e) => Resolution([spec], Err(e))
       case Ok(attrs) =>
         var app := if app.Value? && app.v.StrV? then Value(GetOr(attrs, app.v.s, GetOr(config, app.v.s, NoneV))) else app;
         if app.RawModule? || Callable(app.v) then Resolution([spec], Ok(app))
         else
           match DefaultDispatch(attrs, config)
           case Err(e) => Resolution([spec], Err(e))
           case Ok(dflt) =>
             var dispatch := GetOr(config, "dispatch", dflt);
             if dispatch.StrV? && !HasKey(attrs, dispatch.s) then
               Resolution([spec], Err(Exception(AttributeError, "module has no attribute " + Quote(dispatch.s))))
             else
               var dispatch := if dispatch.StrV? then Get(attrs, dispatch.s) else dispatch;
               match CallValue(env, dispatch)
               case Err(e) => Resolution([spec], Err(e))
               case Ok(v) => Resolution([spec], Ok(Value(v))))
    case _ => Resolution([], Err(NO_GET))
  }


  /** What a run of a child page adds to the session's logs, and how it ends. */
  datatype ChildRun = ChildRun(widgets: seq<Widget>, executions: seq<ModuleSpec>, outcome: Outcome)

  /** `app()`: what it raises, if anything. The raw-module runner executes
      the module a second time in this run. */
  function CallApp(env: Env, app: App): Option<Exception>
  {
    match app
    case RawModule(spec) => if env.execModule(spec, 1).Err? then Some(env.execModule(spec, 1).error) else None
    case Value(v) => if CallValue(env, v).Err? then Some(CallValue(env, v).error) else None
  }

  /** `try: app() except Exception as error: st.error(str(error))`: the
      widgets it renders, the modules it executes, and an exception the
      `except` does not catch. */
  function RunApp(env: Env, app: App): ChildRun
  {
    var executions := if app.RawModule? then [app.spec] else [];
    match CallApp(env, app)
    case None => ChildRun([], executions, Returned)
    case Some(e) =>
      if Caught(e) then ChildRun([ErrorBox(e.message)], executions, Returned)
      else ChildRun([], executions, Escaped(e))
  }

  /** Lines 108-131 for a child that is in the module mapping, as written. */
  function RunChild(env: Env, spec: ModuleSpec, configs: Dict<PyVal>, name: string): ChildRun
  {
    var resolution := ResolveApp(env, spec, configs, name);
    match resolution.app
    case Err(e) => ChildRun([], resolution.executions, Escaped(e))
    case Ok(app) =>
      var tried := RunApp(env, app);
      if tried.outcome.Escaped? then ChildRun(tried.widgets, resolution.executions + tried.executions, tried.outcome)
      else ChildRun(tried.widgets + [BACK_BUTTON], resolution.executions + tried.executions, Returned)
  }

  // ---------------------------------------------------------------------
  // One run of the script

  /** The session: `st.session_state['current_app']` (absent as `None`) and
      the logs of rendered widgets and executed modules. */
  datatype UiState = UiState(current: Option<string>, widgets: seq<Widget>, executions: seq<ModuleSpec>)

  /** `dispatch_child_apps(pathnames, configs)`; an empty `configs` stands
      for both `None` and `{}`. */
  function Dispatch(s: UiState, env: Env, pathnames: seq<string>, configs: Dict<PyVal>): (UiState, Outcome)
  {
    var specs := ModuleSpecs(env, pathnames);
    match AppNameMapping(specs, configs)
    case Err(e) => (s, Escaped(e))
    case Ok(mapping) =>
      var modules := ModuleMapping(specs);
      var s := if s.current.None? then s.(current := Some(ROOT_APP)) else s;
      var name := s.current.value;
      if name == ROOT_APP then (s.(widgets := s.widgets + RootNav(mapping)), Returned)
      else if !HasKey(modules, name) then (s, Escaped(Exception(KeyError, Quote(name))))
      else
        var run := RunChild(env, Get(modules, name), configs, name);
        (s.(widgets := s.widgets + run.widgets, executions := s.executions + run.executions), run.outcome)
  }

  /** `set_current_module(name)`, the callback of a clicked button. */
  function Click(s: UiState, button: Widget): UiState
    requires button.Button?
  {
    s.(current := Some(button.target))
  }

  /** `dispatch_child_apps_from_root`: the paths of the root directory's
      entries not starting with `__`, in listing order. */
  function ChildPaths(env: Env, rootDir: string): Result<seq<string>, Exception>
  {
    var root := AbsPath(env.cwd, rootDir);
    if !env.isDir(root) then Err(Exception(ValueError, rootDir + " is not a path to a directory."))
    else
      var children := Children(env.listDir(root));
      Ok(seq(|children|, i requires 0 <= i < |children| => JoinPath(root, children[i])))
  }

  /** `[path for path in entries if not path.startswith('__')]` */
  function Children(entries: seq<string>): (children: seq<string>)
    ensures forall c :: c in children <==> c in entries && !StartsWith(c, "__")
  {
    if entries == [] then []
    else if StartsWith(entries[0], "__") then Children(entries[1..])
    else [entries[0]] + Children(entries[1..])
  }

  /** `dispatch_child_apps_from_root(root_dir, configs)` */
  function DispatchFromRoot(s: UiState, env: Env, rootDir: string, configs: Dict<PyVal>): (UiState, Outcome)
  {
    match ChildPaths(env, rootDir)
    case Err(e) => (s, Escaped(e))
    case Ok(paths) => Dispatch(s, env, paths, configs)
  }

  // ---------------------------------------------------------------------
  // Properties of a run

  /** A path without a module spec makes every run fail before anything is
      rendered or the session is touched. */
  lemma UnloadablePathFails(s: UiState, env: Env, pathnames: seq<string>, configs: Dict<PyVal>, i: int)
    requires 0 <= i < |pathnames| && GetModuleSpec(env, pathnames[i]).None?
    ensures Dispatch(s, env, pathnames, configs).0 == s
    ensures Dispatch(s, env, pathnames, configs).1 == Escaped(NO_NAME) || Dispatch(s, env, pathnames, configs).1 == Escaped(NO_GET)
  {
    var specs := ModuleSpecs(env, pathnames);
    MappingNeedsSpecs(specs, configs);
    assert !NoMissing(specs) by {
      assert specs[i].None?;
    }
    AppNameMappingErrors(specs, configs);
  }

  /** The comprehension fails only on a missing spec or a child
      configuration that is not a dict. */
  lemma {:induction false} AppNameMappingErrors(specs: seq<Option<ModuleSpec>>, configs: Dict<PyVal>)
    ensures AppNameMapping(specs, configs).Err? ==>
              AppNameMapping(specs, configs).error == NO_NAME || AppNameMapping(specs, configs).error == NO_GET
    decreases |specs|
  {
    if specs != [] {
      AppNameMappingErrors(specs[..|specs| - 1], configs);
    }
  }

  /** A run that gets past the mappings starts from the saved app, or from
      the root when none is saved. */
  lemma DispatchCurrent(s: UiState, env: Env, pathnames: seq<string>, configs: Dict<PyVal>)
    requires AppNameMapping(ModuleSpecs(env, pathnames), configs).Ok?
    ensures Dispatch(s, env, pathnames, configs).0.current == if s.current.None? then Some(ROOT_APP) else s.current
  {
  }

  /** At the root the run renders the navigation page and nothing else. */
  lemma DispatchRoot(s: UiState, env: Env, pathnames: seq<string>, configs: Dict<PyVal>)
    requires AppNameMapping(ModuleSpecs(env, pathnames), configs).Ok?
    requires s.current.None? || s.current == Some(ROOT_APP)
    ensures var mapping := AppNameMapping(ModuleSpecs(env, pathnames), configs).value;
      Dispatch(s, env, pathnames, configs) == (UiState(Some(ROOT_APP), s.widgets + RootNav(mapping), s.executions), Returned)
  {
  }

  /** The root page has a button for every path, labelled with the display
      name of the path's module and selecting that module. */
  lemma RootNavListsChildren(env: Env, pathnames: seq<string>, configs: Dict<PyVal>, i: int)
    requires AppNameMapping(ModuleSpecs(env, pathnames), configs).Ok?
    requires 0 <= i < |pathnames|
    ensures var name := Basename(NormPath(pathnames[i]));
      DisplayName(configs, name).Ok? &&
      Button(name, DisplayName(configs, name).value, false, name) in RootNav(AppNameMapping(ModuleSpecs(env, pathnames), configs).value)
  {
    var specs := ModuleSpecs(env, pathnames);
    var mapping := AppNameMapping(specs, configs).value;
    var name := Basename(NormPath(pathnames[i]));
    MappingNeedsSpecs(specs, configs);
    MappingsAgree(specs, configs);
    ModuleMappingHasAll(specs);
    assert specs[i].Some? && specs[i].value.name == name;
    assert HasKey(ModuleMapping(specs), name);
    assert HasKey(mapping, name) by {
      assert Keys(mapping) == Keys(ModuleMapping(specs));
    }
    NavButtonFor(mapping, name);
  }

  /** Each key of the mapping has its button on the root page. */
  lemma NavButtonFor(mapping: Dict<PyVal>, name: string)
    requires HasKey(mapping, name)
    ensures Button(name, Get(mapping, name), false, name) in RootNav(mapping)
  {
    var j := IndexOf(mapping, name);
    assert RootNav(mapping)[j + 2] == NavButtons(mapping)[j];
  }

  /** Every button of the root page selects the module of some path. */
  lemma RootNavTargetsChildren(env: Env, pathnames: seq<string>, configs: Dict<PyVal>, w: Widget)
    requires AppNameMapping(ModuleSpecs(env, pathnames), configs).Ok?
    requires w in RootNav(AppNameMapping(ModuleSpecs(env, pathnames), configs).value) && w.Button?
    ensures exists i :: 0 <= i < |pathnames| && Basename(NormPath(pathnames[i])) == w.target
  {
    var specs := ModuleSpecs(env, pathnames);
    var mapping := AppNameMapping(specs, configs).value;
    MappingsAgree(specs, configs);
    NavButtonTarget(mapping, w);
    assert HasKey(ModuleMapping(specs), w.target);
    ModuleKeyHasPath(env, pathnames, w.target);
  }

  /** A button of the root page selects one of the mapping's keys. */
  lemma NavButtonTarget(mapping: Dict<PyVal>, w: Widget)
    requires w in RootNav(mapping) && w.Button?
    ensures w.target in Keys(mapping)
  {
    var j :| 0 <= j < |RootNav(mapping)| && RootNav(mapping)[j] == w;
    assert j >= 2 && NavButtons(mapping)[j - 2] == w;
    assert Keys(mapping)[j - 2] == w.target;
  }

  /** Every key of the module mapping is the name of some path's module. */
  lemma ModuleKeyHasPath(env: Env, pathnames: seq<string>, k: string)
    requires HasKey(ModuleMapping(ModuleSpecs(env, pathnames)), k)
    ensures exists i :: 0 <= i < |pathnames| && Basename(NormPath(pathnames[i])) == k
  {
    var specs := ModuleSpecs(env, pathnames);
    ModuleMappingLast(specs, k);
    var i := LastNamed(specs, k);
    assert specs[i] == GetModuleSpec(env, pathnames[i]);
  }

  /** A saved name that no path has stops the run with a `KeyError`; the
      session keeps its state. */
  lemma DispatchUnknownApp(s: UiState, env: Env, pathnames: seq<string>, configs: Dict<PyVal>, name: string)
    requires AppNameMapping(ModuleSpecs(env, pathnames), configs).Ok?
    requires s.current == Some(name) && name != ROOT_APP
    requires forall i :: 0 <= i < |pathnames| ==> Basename(NormPath(pathnames[i])) != name
    ensures Dispatch(s, env, pathnames, configs) == (s, Escaped(Exception(KeyError, Quote(name))))
  {
    var specs := ModuleSpecs(env, pathnames);
    ModuleMappingLast(specs, name);
    var i := LastNamed(specs, name);
    assert forall j :: 0 <= j < |specs| ==> !IsNamed(specs[j], name) by {
      forall j | 0 <= j < |specs| ensures !IsNamed(specs[j], name) {
        assert Basename(NormPath(pathnames[j])) != name;
      }
    }
  }

  /** A saved child name runs the child page of the LAST path with that
      name, and the run adds exactly that page's widgets and executions. */
  lemma DispatchChild(s: UiState, env: Env, pathnames: seq<string>, configs: Dict<PyVal>, i: int)
    requires AppNameMapping(ModuleSpecs(env, pathnames), configs).Ok?
    requires 0 <= i < |pathnames|
    requires s.current == Some(Basename(NormPath(pathnames[i]))) && s.current != Some(ROOT_APP)
    requires forall j :: i < j < |pathnames| ==> Basename(NormPath(pathnames[j])) != s.current.value
    ensures var name := s.current.value;
      var p := pathnames[i];
      var spec := ModuleSpec(name, if env.isDir(p) then JoinPath(p, "__init__.py") else p);
      var run := RunChild(env, spec, configs, name);
      Dispatch(s, env, pathnames, configs) ==
        (s.(widgets := s.widgets + run.widgets, executions := s.executions + run.executions), run.outcome)
  {
    var specs := ModuleSpecs(env, pathnames);
    var name := s.current.value;
    MappingNeedsSpecs(specs, configs);
    assert IsNamed(specs[i], name);
    ModuleMappingLast(specs, name);
    var last := LastNamed(specs, name);
    assert specs[last] == GetModuleSpec(env, pathnames[last]);
    assert last == i;
  }

  /** Clicking a button of the root page and rerunning runs that child:
      the button's target is always a key of the module mapping. */
  lemma ClickNavButton(s: UiState, env: Env, pathnames: seq<string>, configs: Dict<PyVal>, j: int)
    requires AppNameMapping(ModuleSpecs(env, pathnames), configs).Ok?
    requires 0 <= j < |AppNameMapping(ModuleSpecs(env, pathnames), configs).value|
    requires NavButtons(AppNameMapping(ModuleSpecs(env, pathnames), configs).value)[j].target != ROOT_APP
    ensures var specs := ModuleSpecs(env, pathnames);
      var b := NavButtons(AppNameMapping(specs, configs).value)[j];
      HasKey(ModuleMapping(specs), b.target) &&
      var run := RunChild(env, Get(ModuleMapping(specs), b.target), configs, b.target);
      Dispatch(Click(s, b), env, pathnames, configs) ==
        (Click(s, b).(widgets := s.widgets + run.widgets, executions := s.executions + run.executions), run.outcome)
  {
    var specs := ModuleSpecs(env, pathnames);
    var mapping := AppNameMapping(specs, configs).value;
    MappingsAgree(specs, configs);
    assert mapping[j].0 in Keys(mapping);
    assert Keys(mapping) == Keys(ModuleMapping(specs));
  }

  /** Clicking the back button and rerunning renders the root page again. */
  lemma ClickBackButton(s: UiState, env: Env, pathnames: seq<string>, configs: Dict<PyVal>)
    requires AppNameMapping(ModuleSpecs(env, pathnames), configs).Ok?
    ensures var mapping := AppNameMapping(ModuleSpecs(env, pathnames), configs).value;
      Dispatch(Click(s, BACK_BUTTON), env, pathnames, configs) ==
        (UiState(Some(ROOT_APP), s.widgets + RootNav(mapping), s.executions), Returned)
  {
  }

  // ---------------------------------------------------------------------
  // Properties of a child page

  /** A child whose configuration is a dict has its module executed first. */
  lemma ChildExecutedFirst(env: Env, spec: ModuleSpec, configs: Dict<PyVal>, name: string)
    requires ConfigFor(configs, name).DictV?
    ensures |RunChild(env, spec, configs, name).executions| >= 1
    ensures RunChild(env, spec, configs, name).executions[0] == spec
  {
  }

  /** The back button is rendered exactly when the run returns, and then
      it is the last widget. A failure before `app()` escapes; an
      `Exception` from `app()` is shown in an error box before the back
      button; any other `BaseException` from it escapes. */
  lemma ChildBackButton(env: Env, spec: ModuleSpec, configs: Dict<PyVal>, name: string)
    ensures var run := RunChild(env, spec, configs, name);
      (run.outcome == Returned <==> BACK_BUTTON in run.widgets) &&
      (run.outcome == Returned ==> run.widgets[|run.widgets| - 1] == BACK_BUTTON && 1 <= |run.widgets| <= 2)
    ensures var res := ResolveApp(env, spec, configs, name);
      var run := RunChild(env, spec, configs, name);
      (res.app.Err? ==> run == ChildRun([], res.executions, Escaped(res.app.error))) &&
      (res.app.Ok? ==>
        match CallApp(env, res.app.value)
        case None => run.widgets == [BACK_BUTTON] && run.outcome == Returned
        case Some(e) =>
          if Caught(e) then run.widgets == [ErrorBox(e.message), BACK_BUTTON] && run.outcome == Returned
          else run.widgets == [] && run.outcome == Escaped(e))
  {
  }

  /** Without a configured app the child's module is executed twice, once
      unguarded and once as the app inside the `try`. A failure of the
      first execution escapes; an `Exception` from the second is shown
      before the back button. */
  lemma RawModuleRunsTwice(env: Env, spec: ModuleSpec, configs: Dict<PyVal>, name: string)
    requires ConfigFor(configs, name).DictV?
    requires !Truthy(GetOr(ConfigFor(configs, name).entries, "app", NoneV))
    ensures var run := RunChild(env, spec, configs, name);
      var first := env.execModule(spec, 0);
      var second := env.execModule(spec, 1);
      if first.Err? then run == ChildRun([], [spec], Escaped(first.error))
      else if second.Ok? then run == ChildRun([BACK_BUTTON], [spec, spec], Returned)
      else if Caught(second.error) then run == ChildRun([ErrorBox(second.error.message), BACK_BUTTON], [spec, spec], Returned)
      else run == ChildRun([], [spec, spec], Escaped(second.error))
  {
  }

  /** An app configured as a string names an attribute of the module; a
      callable attribute is called inside the `try`. */
  lemma StringAppFromModule(env: Env, spec: ModuleSpec, configs: Dict<PyVal>, name: string, attrs: Dict<PyVal>, a: string)
    requires ConfigFor(configs, name).DictV?
    requires GetOr(ConfigFor(configs, name).entries, "app", NoneV) == StrV(a) && a != ""
    requires env.execModule(spec, 0) == Ok(attrs) && HasKey(attrs, a) && Callable(Get(attrs, a))
    ensures var run := RunChild(env, spec, configs, name);
      var called := CallValue(env, Get(attrs, a));
      run.executions == [spec] &&
      (called.Ok? ==> run.widgets == [BACK_BUTTON] && run.outcome == Returned) &&
      (called.Err? && Caught(called.error) ==>
         run.widgets == [ErrorBox(called.error.message), BACK_BUTTON] && run.outcome == Returned) &&
      (called.Err? && !Caught(called.error) ==> run.widgets == [] && run.outcome == Escaped(called.error))
  {
  }

  /** A string that the module does not define is looked up in the child's
      configuration instead. */
  lemma StringAppFromConfig(env: Env, spec: ModuleSpec, configs: Dict<PyVal>, name: string, attrs: Dict<PyVal>, a: string)
    requires ConfigFor(configs, name).DictV?
    requires GetOr(ConfigFor(configs, name).entries, "app", NoneV) == StrV(a) && a != ""
    requires env.execModule(spec, 0) == Ok(attrs) && !HasKey(attrs, a)
    requires Callable(GetOr(ConfigFor(configs, name).entries, a, NoneV))
    ensures ResolveApp(env, spec, configs, name) == Resolution([spec], Ok(Value(GetOr(ConfigFor(configs, name).entries, a, NoneV))))
  {
  }

  /** An app that is not callable and no configured dispatcher: the app
      becomes what `dispatch_funcs` makes of the module's `funcs_to_dispatch`
      attribute (by default `extrude_funcs`, else an empty list), with the
      child's configuration. */
  lemma DefaultDispatchFallback(env: Env, spec: ModuleSpec, configs: Dict<PyVal>, name: string, attrs: Dict<PyVal>)
    requires ConfigFor(configs, name).DictV?
    requires var config := ConfigFor(configs, name).entries;
      var app := GetOr(config, "app", NoneV);
      Truthy(app) && !Callable(app) && !app.StrV? && !HasKey(config, "dispatch")
    requires env.execModule(spec, 0) == Ok(attrs)
    ensures var config := ConfigFor(configs, name).entries;
      match GetOr(config, "funcs_to_dispatch", StrV(EXTRUDE_FUNCS))
      case StrV(attr) =>
        var made := env.dispatchFuncs(GetOr(attrs, attr, ListV([])), config);
        ResolveApp(env, spec, configs, name) ==
          Resolution([spec], if made.Ok? then Ok(Value(made.value)) else Err(made.error))
      case _ => ResolveApp(env, spec, configs, name).app.Err?
  {
  }

  /** A dispatcher named by a string must be an attribute of the module;
      a missing one raises `AttributeError` and the page has no back
      button. */
  lemma NamedDispatchMissing(env: Env, spec: ModuleSpec, configs: Dict<PyVal>, name: string, attrs: Dict<PyVal>, d: string)
    requires ConfigFor(configs, name).DictV?
    requires var config := ConfigFor(configs, name).entries;
      var app := GetOr(config, "app", NoneV);
      Truthy(app) && !Callable(app) && !app.StrV? &&
      HasKey(config, "dispatch") && Get(config, "dispatch") == StrV(d) &&
      GetOr(config, "funcs_to_dispatch", StrV(EXTRUDE_FUNCS)).StrV?
    requires env.execModule(spec, 0) == Ok(attrs) && !HasKey(attrs, d)
    ensures RunChild(env, spec, configs, name).outcome == Escaped(Exception(AttributeError, "module has no attribute " + Quote(d)))
    ensures BACK_BUTTON !in RunChild(env, spec, configs, name).widgets
  {
  }

  /** As written, an exception raised while executing the child's module
      bypasses the `try` around `app()`: the run ends with it and the page
      has neither an error box nor a way back to the root. */
  lemma ExecutionErrorEscapes(env: Env, spec: ModuleSpec, configs: Dict<PyVal>, name: string)
    requires ConfigFor(configs, name).DictV? && env.execModule(spec, 0).Err?
    ensures RunChild(env, spec, configs, name) == ChildRun([], [spec], Escaped(env.execModule(spec, 0).error))
  {
  }

  /** A child page that contains every failure of the lines before
      `app()` the way the `try` contains failures of `app()` itself: an
      `Exception` is shown and the back button rendered, so only a
      `BaseException` the `except` does not catch can escape. */
  function RunChildContained(env: Env, spec: ModuleSpec, configs: Dict<PyVal>, name: string): (run: ChildRun)
    ensures run.outcome.Escaped? ==> !Caught(run.outcome.error)
    ensures run.outcome == Returned <==> BACK_BUTTON in run.widgets
    ensures run.outcome == Returned ==> |run.widgets| > 0 && run.widgets[|run.widgets| - 1] == BACK_BUTTON
    ensures run.executions == RunChild(env, spec, configs, name).executions
    ensures var written := RunChild(env, spec, configs, name);
              written.outcome == Returned || !Caught(written.outcome.error) ==> run == written
    ensures var written := RunChild(env, spec, configs, name);
              written.outcome.Escaped? && Caught(written.outcome.error) ==>
                run.widgets == [ErrorBox(written.outcome.error.message), BACK_BUTTON] && run.outcome == Returned
  {
    var resolution := ResolveApp(env, spec, configs, name);
    match resolution.app
    case Err(e) =>
      if Caught(e) then ChildRun([ErrorBox(e.message), BACK_BUTTON], resolution.executions, Returned)
      else ChildRun([], resolution.executions, Escaped(e))
    case Ok(_) => RunChild(env, spec, configs, name)
  }

  /** Child paths, when the root is a directory: one per entry not
      starting with `__`, in listing order, and each plain entry's module
      is named after the entry itself. */
  lemma ChildPathNames(env: Env, rootDir: string)
    ensures ChildPaths(env, rootDir).Err? <==> !env.isDir(AbsPath(env.cwd, rootDir))
    ensures ChildPaths(env, rootDir).Ok? ==>
              var root := AbsPath(env.cwd, rootDir);
              var children := Children(env.listDir(root));
              var paths := ChildPaths(env, rootDir).value;
              |paths| == |children| &&
              forall i :: 0 <= i < |paths| ==>
                paths[i] == JoinPath(root, children[i]) &&
                (PlainName(children[i]) ==> Basename(NormPath(paths[i])) == children[i])
  {
    if ChildPaths(env, rootDir).Ok? {
      var root := AbsPath(env.cwd, rootDir);
      var children := Children(env.listDir(root));
      forall i | 0 <= i < |children| && PlainName(children[i])
        ensures Basename(NormPath(JoinPath(root, children[i]))) == children[i]
      {
        ChildBasename(root, children[i]);
      }
    }
  }

  /** A root that is not a directory fails every run with a `ValueError`
      before anything else happens. */
  lemma RootNotDirectory(s: UiState, env: Env, rootDir: string, configs: Dict<PyVal>)
    requires !env.isDir(AbsPath(env.cwd, rootDir))
    ensures DispatchFromRoot(s, env, rootDir, configs) ==
              (s, Escaped(Exception(ValueError, rootDir + " is not a path to a directory.")))
  {
  }

  // ---------------------------------------------------------------------
  // The session, updated in place

  /** `st.session_state` with the logs of what the script rendered and
      executed. */
  class Session {
    var current: Option<string>
    var widgets: seq<Widget>
    var executions: seq<ModuleSpec>

    function State(): UiState
      reads this
    {
      UiState(current, widgets, executions)
    }

    /** A fresh session: no saved app, nothing rendered. */
    constructor ()
      ensures State() == UiState(None, [], [])
    {
      current := None;
      widgets := [];
      executions := [];
    }

    /** `set_current_module(app_name)` */
    method SetCurrentModule(appName: string)
      modifies this
      ensures State() == old(State()).(current := Some(appName))
    {
      current := Some(appName);
    }

    /** `render_root_nav(app_name_mapping)` */
    method RenderRootNav(mapping: Dict<PyVal>)
      modifies this
      ensures State() == old(State()).(widgets := old(widgets) + RootNav(mapping))
    {
      widgets := widgets + [PageConfig("centered"), Header("Choose an app")];
      var i := 0;
      while i < |mapping|
        invariant 0 <= i <= |mapping|
        invariant widgets == old(widgets) + [PageConfig("centered"), Header("Choose an app")] + NavButtons(mapping)[..i]
        invariant current == old(current) && executions == old(executions)
      {
        var (appName, displayName) := mapping[i];
        widgets := widgets + [Button(appName, displayName, false, appName)];
        assert NavButtons(mapping)[..i + 1] == NavButtons(mapping)[..i] + [NavButtons(mapping)[i]];
        i := i + 1;
      }
      assert NavButtons(mapping)[..i] == NavButtons(mapping);
    }

    /** Lines 108-131 for a child in the module mapping. */
    method RunChildPage(env: Env, spec: ModuleSpec, configs: Dict<PyVal>, name: string) returns (outcome: Outcome)
      modifies this
      ensures var run := RunChild(env, spec, configs, name);
        State() == old(State()).(widgets := old(widgets) + run.widgets, executions := old(executions) + run.executions) &&
        outcome == run.outcome
    {
      var resolution := ResolveApp(env, spec, configs, name);
      executions := executions + resolution.executions;
      if resolution.app.Err? {
        return Escaped(resolution.app.error);
      }
      var tried := RunApp(env, resolution.app.value);
      widgets := widgets + tried.widgets;
      executions := executions + tried.executions;
      assert executions == old(executions) + (resolution.executions + tried.executions);
      if tried.outcome.Escaped? {
        return tried.outcome;
      }
      widgets := widgets + [BACK_BUTTON];
      assert widgets == old(widgets) + (tried.widgets + [BACK_BUTTON]);
      return Returned;
    }

    /** `dispatch_child_apps(pathnames, configs)`: one run of the script. */
    method DispatchChildApps(env: Env, pathnames: seq<string>, configs: Dict<PyVal>) returns (outcome: Outcome)
      modifies this
      ensures (State(), outcome) == Dispatch(old(State()), env, pathnames, configs)
    {
      var specs := ModuleSpecs(env, pathnames);
      var names := AppNameMapping(specs, configs);
      if names.Err? {
        return Escaped(names.error);
      }
      var modules := ModuleMapping(specs);
      if current.None? {
        current := Some(ROOT_APP);
      }
      var name := current.value;
      if name == ROOT_APP {
        RenderRootNav(names.value);
        return Returned;
      }
      if !HasKey(modules, name) {
        return Escaped(Exception(KeyError, Quote(name)));
      }
      outcome := RunChildPage(env, Get(modules, name), configs, name);
    }

    /** `dispatch_child_apps_from_root(root_dir, configs)` */
    method DispatchChildAppsFromRoot(env: Env, rootDir: string, configs: Dict<PyVal>) returns (outcome: Outcome)
      modifies this
      ensures (State(), outcome) == DispatchFromRoot(old(State()), env, rootDir, configs)
    {
      var paths := ChildPaths(env, rootDir);
      if paths.Err? {
        return Escaped(paths.error);
      }
      outcome := DispatchChildApps(env, paths.value, configs);
    }
  }
}
