# extrude, modelled in Dafny

extrude turns plain Python functions into a web service and into a
streamlit front-end that consumes that service. This project models the
three pieces of it that have logic of their own:

- **CRUDE wrapping** (`extrude/crude.py`, module `Crude`).
  - `auto_key` builds a string key from call arguments.
  - `prepare_for_crude_dispatch` wraps a function so that its "crude"
    parameters take a store key instead of an object. The key is looked up
    in a store at call time, and the output can be written back into the
    store mapping. That write is modelled on a `StoreForParam` object
    updated in place by the methods `Egress` and `CallWrapped`.
- **Service and front-end configuration** (`extrude/base.py`, module `Base`).
  - `mk_api` erases a mall's values into a "light mall" endpoint (module
    `ConfigTree`), merges the default web-service settings with the caller's,
    and derives `openapi.base_url`.
  - `mk_web_app` collects each function's `param_to_mall_map` into a crude
    configuration. It then writes a select box and its options into the
    front-end configuration at each crudified parameter's five-segment path.
    This rewriting is done by methods with loops (`HandleCrudifiedParams`,
    `ConfigureCrude`, `ConfigureFunction`), each proved against a recursive
    specification function.
- **Multi-app navigation** (`extrude/multi_app.py`, module `MultiApp`).
  - There is one session field, `current_app`. It holds either the root
    page or the name of a child app.
  - One run of the streamlit script is one call of
    `Session.DispatchChildApps`. A run renders the root navigation or
    resolves and runs the selected child, then renders a back button.
  - Buttons change the session field through `Session.SetCurrentModule`.
  - The class `Session` keeps the field, a log of rendered widgets and a
    log of module executions.

Supporting modules model the Python behaviour the core relies on:

- `Results`: `Option` and `Result`.
- `Strings`: `str.join`, `str.split`, `str(int)`.
- `Dicts`: an insertion-ordered `dict` as an association list. It covers
  `d[k] = v`, `dict(a, **b)` and `.get`.
- `Signatures`: the parameter list of an `inspect.Signature`.
- `ConfigTree`: nested dicts, `glom.glom` lookup and `glom.assign`.
- `PosixPath`: `os.path.normpath`, `basename`, `join` and `abspath`.

A Python dict whose order shows is an ordered association list. That covers:

- keyword arguments;
- the key list that becomes a select box's options;
- the order of the navigation buttons;
- the merged service configuration.

The crude store is a Dafny `map`, because its order never shows.

## Where the code and its documentation differ (the model follows the code)

- A child's name is `basename(normpath(path))`, so a file `beta.py` is
  named `beta.py`, not `beta`.
- The display name is `configs.get(name, configs).get('display_name', name)`.
  - Without a per-child entry, the top-level `display_name` of `configs`
    is used for every such child.
  - The module itself is never asked for a display name.
- The egress assigns the function output to the whole
  `store_for_param[output_store_name]` entry. The added `save_name`
  parameter is never read.
- The debug prints in the egress evaluate their arguments:
  - `list(store_for_param[output_store_name])` before the write raises on a
    missing or non-iterable entry;
  - `list(func_output)` after the write raises on a non-iterable output,
    once the store has already changed.
  The printing itself is left out.
- `mk_dflt_dispatch(...)` is evaluated as the default argument of
  `config.get('dispatch', ...)` even when `dispatch` is configured, so its
  `getattr` always runs. A missing attribute falls back to `[]`. A
  `funcs_to_dispatch` configured as a non-string makes `getattr` raise
  TypeError, and that happens even when `dispatch` is configured.
- The selected module is executed at line 113, outside the `try`. An
  exception raised while executing it escapes the run with no back button.
- When no `app` is configured, the raw-module runner executes the module a
  second time at line 124, inside the `try`. That execution builds a fresh
  module and reruns its top level. It can fail where the first one did not,
  and then its error is shown before the back button.
- `except Exception` at line 125 does not catch a `BaseException` that is
  not an `Exception`, such as `SystemExit`, `KeyboardInterrupt`, or the
  requests of streamlit's `st.stop()` and `st.rerun()`. Such an exception
  from `app()` escapes the run, and the back button at line 127 is not
  rendered.
- The `get_light_mall` endpoint is a closure over the mall object. It
  reports the mall's stores as they are when it is called, not as they were
  when `mk_api` ran.

## Model

| member | source | states |
|---|---|---|
| Crude.AutoKey | extrude/crude.py:36-38 | Without keyword arguments the key is the positional part. Without positional text it is the keyword part. Otherwise it is both parts joined by one comma. |
| Crude.AutoKeyExamples | extrude/crude.py:27-34 | The four doctest results: `'1,2,c=3,d=4'`, `'1,2'`, `'c=3,d=4'` and `''`. |
| Crude.AutoKeyEmpty | extrude/crude.py:36-38 | The key is empty exactly when there are no keyword arguments and the positional arguments are none or a single empty string. |
| Crude.AutoKeyPieces | extrude/crude.py:36-37 | When no argument text holds a comma and none is empty, splitting the key on commas gives the positional texts in order, then each `k=v` in insertion order, unsorted. |
| Crude.CrudeParams | extrude/crude.py:59 | A name is a crude parameter exactly when it is a signature name and a store key; the crude parameters keep the signature's order. |
| Crude.OuterSig | extrude/crude.py:69-83 | The outer signature has the inner names followed by `save_name`. Kinds and defaults are kept. Crude parameters are annotated `str` and the others keep their annotation. The last parameter is keyword-only `save_name` with default `""` and type `str`. |
| Crude.PrepareForCrudeDispatch | extrude/crude.py:56-94 | The inner signature is kept. There is an ingress exactly when a store is given, and an egress exactly when the output store name is truthy; the egress writes to that name. |
| Crude.VisibleSigShape | extrude/crude.py:76-94 | Without a store the wrapped function shows the inner signature. With one it shows the inner names plus `save_name`, with the crude parameters' annotations turned to `str`. |
| Crude.KwargsTrans | extrude/crude.py:61-67 | The translation succeeds exactly when every crude parameter resolves. Its keys are then exactly the crude parameters, each bound to `store[p][outer_kw[p]]`. A failure is the error of the first parameter that does not resolve. |
| Crude.Resolve | extrude/crude.py:64-65 | Defines one lookup `store_for_param[p][outer_kw[p]]` with its KeyError and TypeError cases. Its properties are in `KwargsTrans` and `MissingKeyRaises`. |
| Crude.Subscript | extrude/crude.py:65 | Defines Python subscripting of a dict, list or string with its errors. Its properties are in `MissingKeyRaises` and `SaveOutput`. |
| Crude.IngressSubstitutes | extrude/crude.py:61-83 | Inner keyword arguments are inner signature names only. Each crude one is the store's entry at the caller's key. Each other one is passed through unchanged, and present exactly when the caller gave it. |
| Crude.InnerKwargs | extrude/crude.py:61-83 | Defines the inner call's keyword arguments: the outer ones with the crude ones translated, restricted to the inner signature. Its properties are in `IngressSubstitutes`, `MissingKeyRaises` and `UnreadArgumentIngress`. |
| Crude.MissingKeyRaises | extrude/crude.py:63-65 | A key missing from a crude parameter's store makes the call fail. When that parameter is the first crude one that fails to resolve, the error is `KeyError(key)`. |
| Crude.KwargsTransDependsOnCrudeOnly | extrude/crude.py:61-67 | The translation depends only on how the crude parameters resolve. |
| Crude.EgressEffect | extrude/crude.py:88-92 | Without a store the egress raises TypeError. A missing output store raises `KeyError(name)` and changes nothing. A non-iterable entry raises TypeError before the write. A non-iterable output raises TypeError after the write. Otherwise `store[o] := output` and the output is returned unchanged. No other store entry ever changes. |
| Crude.CallEffect | extrude/crude.py:94 | Defines a whole call of the wrapped function: ingress, the inner function, then egress. Its properties are in `CallStoreEffect`, `SaveNameNeverRead` and `UnreadArgument`. |
| Crude.CallStoreEffect | extrude/crude.py:85-94 | A failing translation fails the call with its error and writes nothing. Without an egress the call returns the inner function's output and never changes the store. The call succeeds exactly when the translation succeeds and the egress, if any, can write. A successful call with an egress has replaced the whole output-store entry by the output. |
| Crude.SaveNameNeverRead | extrude/crude.py:69-92 | Two calls that differ only in the `save_name` argument have the same effect on the store and the same result. |
| Crude.UnreadArgument | extrude/crude.py:76-94 | Among the model's outer keyword arguments, taken as given without signature binding, one that is neither an inner signature name nor a crude parameter does not change the call's outcome or stores. |
| Crude.UnreadArgumentIngress | extrude/crude.py:61-83 | Such an outer keyword argument of the model does not change the inner keyword arguments. |
| Crude.SaveNameIgnoredAsWritten | extrude/crude.py:69-92 | As written: a call with `save_name='s'` replaces the whole `results` store by the output, instead of storing the output under `'s'`. |
| Crude.SaveOutput | extrude/crude.py:69-92 | Corrected egress: an empty save name changes nothing. Otherwise the output is stored under the save name inside the output store, where subscripting finds it again. A missing or non-dict output store is an error that leaves the store unchanged. |
| Crude.CallSaving | extrude/crude.py:69-94 | Defines a whole call with the corrected egress in place of the as-written one. Its properties are in `CallSavingRoundTrip` and `CallSavingNoSaveName`. |
| Crude.CallSavingRoundTrip | extrude/crude.py:61-94 | A corrected call with a non-empty save name returns the inner function's output, files it in the output store under the save name and changes no other store; a later crude parameter named after the output store, keyed by the save name, resolves to that output. |
| Crude.CallSavingNoSaveName | extrude/crude.py:69-94 | With an empty save name the corrected call changes no store, and it succeeds exactly when the ingress succeeds and, for an egress, a store mapping is given. |
| Crude.StoreForParam.constructor | extrude/crude.py:43 | The store object starts with the given mapping. |
| Crude.Egress | extrude/crude.py:88-92 | Updating the store object in place leaves it, and the returned value, as `EgressEffect` specifies. |
| Crude.CallWrapped | extrude/crude.py:94 | A call of the wrapped function updates the store object and returns as `CallEffect` specifies. |
| ConfigTree.RemoveValuesShape | extrude/base.py:102-106 | `remove_values` keeps the keys and their order. It recurses into every dict value and turns every other value into `None`. |
| ConfigTree.ErasePaths | extrude/base.py:102-106 | Erasure keeps exactly the paths of the tree at every nesting level; what a path holds is the erased original. |
| ConfigTree.EraseGet | extrude/base.py:103-105 | An erased dict has the same keys, and each key's value is the erased original. |
| ConfigTree.EraseLeavesNone | extrude/base.py:104 | Every leaf of an erased tree is `None`. |
| ConfigTree.EraseNoneTree | extrude/base.py:102-106 | A tree whose leaves are all `None` is its own erasure. |
| ConfigTree.RemoveValuesIdempotent | extrude/base.py:102-106 | `remove_values(remove_values(m)) == remove_values(m)`. |
| ConfigTree.Erase | extrude/base.py:102-106 | Defines `remove_values` on a single value. Its properties are in `ErasePaths`, `EraseGet`, `EraseLeavesNone` and `EraseNoneTree`. |
| ConfigTree.RemoveValues | extrude/base.py:102-108 | Defines `remove_values(mall)`. Its properties are in `RemoveValuesShape` and `RemoveValuesIdempotent`. |
| ConfigTree.Lookup | extrude/base.py:70 | Defines `glom.glom(config, path)`; a missing step is `None`, for which line 70 substitutes its default. Its properties are in `AssignLookupSame`, `AssignLookupDiverge` and `ErasePaths`. |
| ConfigTree.Assign | extrude/base.py:74 | Defines `glom.assign(config, path, value, missing=dict)`. Its properties are in `AssignLookupSame`, `AssignLookupDiverge` and `AssignFails`. |
| ConfigTree.AssignLookupSame | extrude/base.py:74 | After a successful `glom.assign` the path holds the assigned value. |
| ConfigTree.AssignLookupDiverge | extrude/base.py:74 | `glom.assign` leaves every path that diverges from its own unchanged. |
| ConfigTree.AssignFails | extrude/base.py:74 | `glom.assign` with `missing=dict` fails exactly when a proper prefix of the path leads to a plain value. |
| Base.MkApi | extrude/base.py:99-130 | `get_light_mall` over the given mall object is appended as the last endpoint exactly when a mall is given. Otherwise the endpoints are the caller's. The service configuration is `ServiceConfig(kwargs)`, whose properties are in `ServiceConfigEntries`, `ServiceConfigOpenApiGiven` and `ServiceConfigOpenApiBuilt`. |
| Base.GetLightMall | extrude/base.py:101-108 | Defines the endpoint's result: the mall's current stores with their values erased. Its properties are in `ConfigTree.RemoveValuesShape` and `AddStoreSeenByEndpoint`. |
| Base.Mall.constructor | extrude/base.py:87 | The mall object starts with the given stores. |
| Base.Mall.SetStore | extrude/base.py:87 | Writing a store into the mall object replaces or adds that one entry. |
| Base.AddStoreSeenByEndpoint | extrude/base.py:101-108 | A store written into the mall after `mk_api` shows in the endpoint's next result, erased. |
| Base.DefaultConfig | extrude/base.py:112-119 | Defines the default settings. Their properties are in `DefaultConfigKeys`, `DefaultSettings` and `DefaultConfigCore`. |
| Base.ServiceConfig | extrude/base.py:120-128 | Defines the settings handed to the web-service builder: the merge, then `openapi`. Its properties are in `ServiceConfigEntries`, `ServiceConfigOpenApiGiven`, `ServiceConfigOpenApiBuilt` and `ServiceConfigOrder`. |
| Base.DefaultConfigKeys | extrude/base.py:112-119 | The defaults are protocol, host, port, enable_cors, publish_openapi and publish_swagger, in that order. |
| Base.DefaultConfigDistinct | extrude/base.py:112-119 | The default settings have distinct keys. |
| Base.DefaultSettings | extrude/base.py:113-115 | The default protocol is `'http'`, the default host `'localhost'` and the default port the string `'3030'`. |
| Base.DefaultUrl | extrude/base.py:126 | The default settings give `http://localhost:3030`. |
| Base.MergedConfig | extrude/base.py:120 | A key of the merged settings is a default key or a caller's key. Its value is the caller's when given and the default otherwise. |
| Base.ServiceConfigEntries | extrude/base.py:120-128 | The same holds for every key other than `openapi` of the configuration handed to the web-service builder. |
| Base.ServiceConfigOpenApiGiven | extrude/base.py:122 | An explicit `openapi` is kept untouched. |
| Base.ServiceConfigOpenApiBuilt | extrude/base.py:122-126 | Without `openapi`, it is set to `{base_url: protocol + "://" + host + ":" + port}` from the merged values. |
| Base.MergedOpenApi | extrude/base.py:120-126 | The base URL is built from the caller's protocol, host and port where given, and from the defaults otherwise. |
| Base.OpenApiBuilt | extrude/base.py:122-126 | The base URL is built from whatever the merged configuration holds for protocol, host and port. |
| Base.WithOpenApiEntries | extrude/base.py:122-126 | Adding `openapi` keeps every other entry and the key order, appends `openapi` last when it was absent, and keeps an existing one. |
| Base.DefaultConfigCore | extrude/base.py:112-119 | The defaults have protocol, host and port, and no `openapi`. |
| Base.ServiceConfigOrder | extrude/base.py:120 | The merged configuration starts with the six default keys in their order. |
| Base.ServiceConfigDefaultUrl | extrude/base.py:112-126 | Without keyword arguments, `openapi.base_url` is `http://localhost:3030`. |
| Base.CrudeConfigDistinct | extrude/base.py:55 | The crude configuration is a dict: its function names are distinct. |
| Base.CrudeConfig | extrude/base.py:49-55 | Defines the crude configuration. Its properties are in `CrudeConfigDistinct` and `CrudeConfigEntries`. |
| Base.LastCrudified | extrude/base.py:50-55 | The index found is the last function of that name with a non-empty map, or -1 when there is none. |
| Base.CrudeConfigEntries | extrude/base.py:49-55 | A name is in the crude configuration exactly when some function of that name has a non-empty `param_to_mall_map`. Its value is the map of the last such function. |
| Base.ParamPathsDiverge | extrude/base.py:67-69 | The paths of two different (function, parameter) pairs diverge, so writing one never touches the other. |
| Base.ConfigureParam | extrude/base.py:67-74 | Defines one step of the inner loop, with its errors: a non-dict configuration without the element, options that are not iterable, an assignment through a plain value. Its properties are in `ConfigureParamEffect`. |
| Base.ConfigureParams | extrude/base.py:66-74 | Defines the inner loop. Its properties are in `ConfigureParamsEffect` and `ConfigureParamsErrSticky`. |
| Base.ConfigureAll | extrude/base.py:65-74 | Defines both loops. Their properties are in `ConfigureAllEffect` and `ConfigureAllErrSticky`. |
| Base.CrudifiedKwargs | extrude/base.py:55-75 | Defines the keyword arguments after `handle_crudified_params`. Their properties are in `CrudifiedKwargsEffect`. |
| Base.ConfigureParamEffect | extrude/base.py:70-74 | One step sets the parameter's path. A configuration with an element is left as it is. Otherwise the element becomes `SelectBox` and the options become the store's keys, or `[]` when the store is absent. Every diverging path is unchanged. |
| Base.ConfigureParamsEffect | extrude/base.py:66-74 | After one function's loop, each of its parameters is configured from its value before the loop; every path outside them is unchanged. |
| Base.ConfigureAllEffect | extrude/base.py:65-74 | After both loops every crudified parameter of every function is configured from its original value, and nothing else changes. |
| Base.ConfigureParamsErrSticky | extrude/base.py:66-74 | Once the inner loop fails, the rest of it does not run: its failure is the overall result. |
| Base.ConfigureAllErrSticky | extrude/base.py:65-74 | Once the outer loop fails, its failure is the overall result. |
| Base.ConfigureParamStep | extrude/base.py:70-74 | The loop body computes one parameter's configuration step. |
| Base.ConfigureFunction | extrude/base.py:66-74 | The inner loop over one function's map computes `ConfigureParams`. |
| Base.ConfigureCrude | extrude/base.py:65-74 | The outer loop over the crude configuration computes `ConfigureAll`. |
| Base.BuildCrudeConfig | extrude/base.py:49-55 | The loop over the functions builds the crude configuration. |
| Base.HandleCrudifiedParams | extrude/base.py:48-75 | The whole procedure computes the crudified keyword arguments, errors included. |
| Base.CrudifiedKwargsEffect | extrude/base.py:55-75 | With no crudified function, the keyword arguments are unchanged. Without a `get_light_mall` endpoint it raises the RuntimeError. On success only `config` changes, and it is configured for every crudified parameter and unchanged elsewhere. |
| Base.FuncNames | extrude/base.py:80 | One name per function, in order. |
| Base.RemoveSelf | extrude/base.py:39 | The flattened signature has exactly the original parameters not named `self`, in their order. |
| Base.WsFuncs | extrude/base.py:81 | Defines `[flatten_api_meth(getattr(api, name)) for name in func_names]`. Its properties are in `WsFuncsDefined`, `WsFuncsElements` and `WsFuncsFirstMissing`. |
| Base.WsFuncsDefined | extrude/base.py:81 | The API methods can be collected exactly when the API has every function's name. |
| Base.WsFuncsElements | extrude/base.py:81 | On success there is one entry per name, in order, each the method of that name without `self`. |
| Base.WsFuncsFirstMissing | extrude/base.py:81 | On failure the AttributeError names the first missing method. |
| Base.MkWebApp | extrude/base.py:80-84 | The app is built exactly when every function has an API method and the crude handling succeeds. It then carries the flattened methods in order and the crudified keyword arguments. A missing method is an AttributeError. Otherwise a failure of the crude handling, such as the RuntimeError for a missing `get_light_mall`, is the error returned. |
| PosixPath.ChildBasename | extrude/multi_app.py:45 | The basename of a directory entry joined to a root, normalised, is the entry itself. |
| PosixPath.NormPath | extrude/multi_app.py:45 | Defines `os.path.normpath`. Its properties are in `NormPathChild` and `ChildBasename`. |
| PosixPath.JoinPath | extrude/multi_app.py:144 | Defines `os.path.join`. Its properties are in `ChildBasename`. |
| PosixPath.NormPathChild | extrude/multi_app.py:45 | Normalising a path ending in `/` and a plain entry gives a run of leading slashes, then normalised components ending in the entry. |
| PosixPath.BasenameOfJoined | extrude/multi_app.py:45 | The basename of leading slashes followed by `/`-joined components ending in a plain entry is that entry. |
| MultiApp.GetModuleSpec | extrude/multi_app.py:43-48 | The module name is the basename of the normalised path. The origin is the path's `__init__.py` for a directory and the path itself otherwise. |
| MultiApp.ModuleSpecs | extrude/multi_app.py:93 | One spec per pathname, in order. |
| MultiApp.DisplayNameResolution | extrude/multi_app.py:95-97 | With a dict entry for the child, its `display_name` is used, defaulting to the child's name. A non-dict entry fails. Without an entry, the top-level `display_name` is used, defaulting to the child's name. |
| MultiApp.ConfigFor | extrude/multi_app.py:109 | Defines `configs.get(name, configs)`. Its properties are in `DisplayNameResolution`. |
| MultiApp.DisplayName | extrude/multi_app.py:95-97 | Defines `get_display_name`. Its properties are in `DisplayNameResolution`. |
| MultiApp.AppNameMapping | extrude/multi_app.py:99 | Defines the name mapping. Its properties are in `MappingNeedsSpecs`, `AppNameMappingErrors` and `MappingsAgree`. |
| MultiApp.ModuleMapping | extrude/multi_app.py:100 | Defines the module mapping. Its properties are in `ModuleMappingHasAll`, `ModuleMappingLast` and `MappingsAgree`. |
| MultiApp.MappingNeedsSpecs | extrude/multi_app.py:93-99 | The name mapping can only be built when every pathname has a module spec. |
| MultiApp.AppNameMappingErrors | extrude/multi_app.py:95-99 | Building the name mapping fails only because of a missing spec or a failing `.get`. |
| MultiApp.MappingsAgree | extrude/multi_app.py:99-100 | The name mapping and the module mapping have the same keys in the same order, and each display name is that child's. |
| MultiApp.AgreeStep | extrude/multi_app.py:99-100 | Adding one spec to both mappings keeps them in agreement. |
| MultiApp.ModuleMappingHasAll | extrude/multi_app.py:100 | Every loadable child's name is a key of the module mapping. |
| MultiApp.LastNamed | extrude/multi_app.py:100 | The index found is the last spec with that name, or -1 when there is none. |
| MultiApp.ModuleMappingLast | extrude/multi_app.py:100 | A name is in the module mapping exactly when some spec has it, and the last such spec wins. |
| MultiApp.UnloadablePathFails | extrude/multi_app.py:93-99 | A pathname without a module spec makes the run fail before anything is rendered or executed. |
| MultiApp.DispatchCurrent | extrude/multi_app.py:101-104 | `current_app` is set to the root only when it is absent. An existing value is preserved. |
| MultiApp.DispatchRoot | extrude/multi_app.py:105-106 | In the root state the run renders the page setting, the header and one button per child, and executes nothing. |
| MultiApp.NavButtons | extrude/multi_app.py:58-63 | One button per mapping entry, in order. Each has the child's name as key, its display name as label and its name as click target. |
| MultiApp.RootNavListsChildren | extrude/multi_app.py:55-63 | Every pathname's child has a button on the root page. |
| MultiApp.NavButtonFor | extrude/multi_app.py:58-63 | Every mapping entry has its button. |
| MultiApp.RootNavTargetsChildren | extrude/multi_app.py:55-63 | Every button of the root page targets the name of some pathname. |
| MultiApp.NavButtonTarget | extrude/multi_app.py:58-63 | Every button targets a mapping key. |
| MultiApp.ModuleKeyHasPath | extrude/multi_app.py:100 | Every module-mapping key is the name of some pathname. |
| MultiApp.Dispatch | extrude/multi_app.py:75-131 | Defines one run of the script on the session. Its properties are in `DispatchCurrent`, `DispatchRoot`, `DispatchUnknownApp`, `DispatchChild` and `UnloadablePathFails`. |
| MultiApp.Click | extrude/multi_app.py:51-52 | Defines a button's `on_click`. Its properties are in `ClickNavButton` and `ClickBackButton`. |
| MultiApp.ClickNavButton | extrude/multi_app.py:51-63 | After a root button is clicked, the next run runs the child it names. |
| MultiApp.ClickBackButton | extrude/multi_app.py:127-131 | After the back button is clicked, the next run renders the root page. |
| MultiApp.DispatchUnknownApp | extrude/multi_app.py:108 | An unknown name raises a KeyError that escapes, and nothing is rendered. |
| MultiApp.DispatchChild | extrude/multi_app.py:108-131 | For a known name, the run is the child run of the last pathname with that name. |
| MultiApp.ChildExecutedFirst | extrude/multi_app.py:113 | The selected module is always executed, first. |
| MultiApp.DefaultDispatch | extrude/multi_app.py:66-72 | Defines `mk_dflt_dispatch`. Its properties are in `DefaultDispatchFallback`. |
| MultiApp.ResolveApp | extrude/multi_app.py:109-122 | Defines the app resolution chain. Its properties are in `StringAppFromModule`, `StringAppFromConfig`, `DefaultDispatchFallback` and `NamedDispatchMissing`. |
| MultiApp.CallApp | extrude/multi_app.py:124 | Defines `app()`. The raw-module runner's call is the module's second execution in the run. |
| MultiApp.RunApp | extrude/multi_app.py:123-126 | Defines the `try`. An `Exception` becomes an error box and any other `BaseException` escapes. Its properties are in `ChildBackButton`. |
| MultiApp.RunChild | extrude/multi_app.py:108-131 | Defines a child page as written. Its properties are in `ChildExecutedFirst`, `ChildBackButton`, `RawModuleRunsTwice` and `ExecutionErrorEscapes`. |
| MultiApp.ChildBackButton | extrude/multi_app.py:108-131 | A child run returns exactly when the back button is rendered, and then it is last. A failure before `app()` escapes with nothing rendered. If `app()` returns, only the back button is rendered. An `Exception` from `app()` is shown in an error box before the back button. Any other `BaseException` from it escapes with nothing rendered. |
| MultiApp.RawModuleRunsTwice | extrude/multi_app.py:111-126 | Without a truthy `app` the module is executed twice. A failure of the first execution escapes. The second execution's result is independent of the first: an `Exception` from it is shown before the back button, and a non-`Exception` escapes. |
| MultiApp.StringAppFromModule | extrude/multi_app.py:114-131 | A string `app` is looked up first among the module's attributes and called inside the `try`. Its `Exception` is shown in an error box before the back button; another `BaseException` escapes. |
| MultiApp.StringAppFromConfig | extrude/multi_app.py:114-115 | A string `app` that is not a module attribute is looked up among the child's configuration entries. |
| MultiApp.DefaultDispatchFallback | extrude/multi_app.py:116-122 | Through `mk_dflt_dispatch` (lines 66-72), a non-callable app with no `dispatch` configured falls back to `dispatch_funcs` over the module's `funcs_to_dispatch` attribute (default `extrude_funcs`, else `[]`). |
| MultiApp.NamedDispatchMissing | extrude/multi_app.py:120-121 | A `dispatch` name the module lacks raises an AttributeError that escapes, with no back button. |
| MultiApp.ExecutionErrorEscapes | extrude/multi_app.py:113 | As written: an exception from executing the module escapes, with no error box and no back button. |
| MultiApp.RunChildContained | extrude/multi_app.py:113-131 | Corrected run: it keeps the as-written run's executions, and only a `BaseException` that `except Exception` does not catch can escape. A run that returns ends with the back button. It equals the as-written run unless that one escapes with an `Exception`, which it shows instead, followed by the back button. |
| MultiApp.Children | extrude/multi_app.py:143 | The children are exactly the directory entries not starting with `__`. |
| MultiApp.ChildPaths | extrude/multi_app.py:140-144 | Defines the discovery of child paths. Its properties are in `ChildPathNames`. |
| MultiApp.DispatchFromRoot | extrude/multi_app.py:134-145 | Defines a run over a root directory's children. Its properties are in `RootNotDirectory`. |
| MultiApp.ChildPathNames | extrude/multi_app.py:140-144 | Discovery fails exactly when the absolute root is not a directory. Otherwise it gives one path per kept entry, joined to the root; a plain entry names its child. |
| MultiApp.RootNotDirectory | extrude/multi_app.py:140-142 | A root that is not a directory raises ValueError `'<root_dir> is not a path to a directory.'` and changes nothing. |
| MultiApp.Session.constructor | extrude/multi_app.py:101 | A fresh session has no `current_app`, no widgets and no executions. |
| MultiApp.Session.SetCurrentModule | extrude/multi_app.py:51-52 | Sets `current_app` and nothing else. |
| MultiApp.Session.RenderRootNav | extrude/multi_app.py:55-63 | Appends the root page's widgets to the log and changes nothing else. |
| MultiApp.Session.RunChildPage | extrude/multi_app.py:108-131 | Appends the child run's widgets and executions to the logs and returns its outcome. |
| MultiApp.Session.DispatchChildApps | extrude/multi_app.py:75-131 | One run of the script moves the session and returns as `Dispatch` specifies. |
| MultiApp.Session.DispatchChildAppsFromRoot | extrude/multi_app.py:134-145 | The same, for a run over a root directory's children. |

## Left out

- extrude/run_app.py is not part of this model. It launches processes and waits for readiness.
- `split_dag` in extrude/util.py is not part of this model. Its work is a foreign call into meshed.
- The example apps and test scripts are not part of this model. They have no logic of their own.
- `dispatch_child_apps_from_module` is not part of this model. It only derives a directory from a module's `__file__`.
- `run_api` is not part of this model. It only starts the service.
- Streamlit rendering is a log of widgets. What a child app renders itself is left to it.
- `st.session_state` persistence across reruns is the `Session` object's lifetime.
- Importlib is abstracted as environment parameters:
  - `spec_from_file_location` finding a loader is a predicate;
  - executing a module gives its attributes or an exception, chosen independently for each execution of the spec within a run;
  - the `sys.modules` registration is left out.
- HttpClient: the API is given as its method signatures and its light mall.
  - The `if not api` branch that builds a client from `api_url` (extrude/base.py:77-79) is left out. It is network setup.
- `py2http.mk_webservice` and `streamlitfront`'s `mk_app` and `dispatch_funcs` are external, kept as the arguments they receive.
- `Base.RemoveSelf`: models `Sig(meth) - 'self'` by dropping the parameters named `self`. It does not model i2's signature validation or the `wraps` copying of metadata.
- Crude.UnreadArgument, Crude.UnreadArgumentIngress and Crude.CallEffect: the binding of a call to the outer signature that i2's `Ingress` performs is not modelled. The outer keyword arguments are taken as given: defaults of omitted parameters are not filled in, and a missing required argument or an argument outside the outer signature raises no TypeError. In the program the only unread argument that reaches the call is `save_name` (see `Crude.SaveNameNeverRead`).
- i2's `wrap` and `Ingress` are modelled by what they do to a call. The wrapped function is a pure, total function of its keyword arguments.
  - Positional calling convention is left out.
  - Exceptions raised by the function itself are left out.
- The `print` output in the egress is left out. Its arguments' evaluation is kept (see above).
- glom's dotted-path splitting is left out: paths are sequences of keys. So are glom's attribute and integer-index access.
- The crude store of `Crude.StoreForParam` and the mall of `Base.Mall` are modelled separately. No lemma follows one shared mall object through an egress and then the light-mall endpoint.
- Calls of child apps (`env.call`, `env.dispatchFuncs`) are functions of their arguments. Each happens at most once per run.
- The in-place aliasing between `param_config` and `config` is left out.
  - `Dicts.Put` and `ConfigTree.Assign` return new values.
  - For dict configurations the resulting configuration is the same either way.
- Base.ConfigureAllEffect: requires the function names of the crude configuration and the parameters of each map to be distinct. `Base.CrudeConfigDistinct` proves the first for the crude configuration; a Python dict guarantees the second.
- Base.ConfigureParamsEffect: requires the parameters of the map to be distinct, for the same reason.
- Base.CrudifiedKwargsEffect: requires every `param_to_mall_map` to have distinct keys, for the same reason.
- Base.MergedConfig: requires the keyword arguments to have distinct keys, as Python keyword arguments do.
- `Strings.Quote`: the `repr` of a string is modelled without escaping quotes or backslashes inside it.
- `configs=None` and `configs={}` are both the empty configuration. The code makes them the same at lines 90-91.
- Python's `str()` of arbitrary objects: `auto_key` receives its arguments as already-converted text.

## Findings

| source | as written | input that shows it | evidently intended | confidence | as-written member | corrected member |
|---|---|---|---|---|---|---|
| extrude/crude.py:69-92 | The wrapper adds a `save_name` parameter but never reads it. The egress replaces the whole output store `store_for_param[output_store_name]` by the function's output. | Store `results = {}`, a call with `save_name='s'` whose output is `[]`: afterwards `results` is `[]` and no longer a store. | Store the output under the save name inside the output store: `store_for_param[output_store_name][save_name] = func_output`. | not executed | Crude.SaveNameIgnoredAsWritten | Crude.SaveOutput |
| extrude/multi_app.py:113 | The selected module is executed before the `try`, so an exception raised while executing it escapes without an error message or back button. The user cannot get back to the root page. | A child module whose top level raises, e.g. `raise ValueError('x')`, selected from the root page. | Contain the failure like one from `app()`: show the error and render the back button, so that only a `BaseException` beyond `except Exception` escapes. | not executed | MultiApp.ExecutionErrorEscapes | MultiApp.RunChildContained |
