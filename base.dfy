/** extrude/base.py: building the web service (`mk_api`) and the front-end
    that consumes it (`mk_web_app`). The web-service and front-end builders
    themselves are external; the model computes the arguments they are
    handed. */
module Base {
  import opened Results
  import opened Strings
  import opened Dicts
  import opened Signatures
  import opened ConfigTree

  /** Keys of the front-end configuration (they come from the `front`
      package). */
  const RENDERING_KEY := "rendering"
  const ELEMENT_KEY := "element"

  /** The `SelectBox` element class of the front-end. */
  const SELECT_BOX := ClassRef("streamlitfront.elements.SelectBox")

  // ---------------------------------------------------------------------
  // mk_api

  /** The mall, shared by reference: its stores by name. The
      `get_light_mall` closure holds the object, so it sees whatever was
      written into it since. */
  class Mall {
    var stores: Dict<Node>

    constructor (initial: Dict<Node>)
      ensures stores == initial
    {
      stores := initial;
    }

    /** `mall[name] = store` */
    method SetStore(name: string, store: Node)
      modifies this
      ensures stores == Put(old(stores), name, store)
    {
      stores := Put(stores, name, store);
    }
  }

  /** A function handed to the web-service builder: one of the caller's, or
      the `get_light_mall` closure over the mall. */
  datatype Endpoint = FuncEndpoint(name: string) | LightMallEndpoint(mall: Mall)

  /** What calling the `get_light_mall` endpoint returns: the structure of
      the mall as it is at call time, with every value erased. */
  function GetLightMall(e: Endpoint): Dict<Node>
    requires e.LightMallEndpoint?
    reads e.mall
  {
    RemoveValues(e.mall.stores)
  }

  /** A store added to the mall after `mk_api` shows in the endpoint. */
  method AddStoreSeenByEndpoint(e: Endpoint, name: string, store: Node)
    requires e.LightMallEndpoint?
    modifies e.mall
    ensures GetLightMall(e) == RemoveValues(Put(old(e.mall.stores), name, store))
    ensures HasKey(GetLightMall(e), name) && Get(GetLightMall(e), name) == Erase(store)
  {
    e.mall.SetStore(name, store);
    EraseGet(e.mall.stores, name);
  }

  /** `dflt_config` */
  function DefaultConfig(): Dict<Node>
  {
    [ ("protocol", Leaf(StrV("http"))),
      ("host", Leaf(StrV("localhost"))),
      ("port", Leaf(StrV("3030"))),
      ("enable_cors", Leaf(BoolV(true))),
      ("publish_openapi", Leaf(BoolV(true))),
      ("publish_swagger", Leaf(BoolV(true))) ]
  }

  /** `repr(v)` of a plain value. */
  function ScalarRepr(v: Scalar): string
  {
    match v
    case NoneV => "None"
    case BoolV(b) => if b then "True" else "False"
    case IntV(i) => IntToStr(i)
    case StrV(s) => Quote(s)
    case StrList(xs) => "[" + Join(", ", seq(|xs|, i requires 0 <= i < |xs| => Quote(xs[i]))) + "]"
    case ClassRef(q) => "<class " + Quote(q) + ">"
  }

  /** `repr(n)` */
  function Repr(n: Node): string
  {
    match n
    case Leaf(v) => ScalarRepr(v)
    case Map(es) =>
      "{" + Join(", ", seq(|es|, i requires 0 <= i < |es| => Quote(es[i].0) + ": " + Repr(es[i].1))) + "}"
  }

  /** `str(n)`, which is what an f-string inserts. */
  function PyStr(n: Node): string
  {
    if n.Leaf? && n.v.StrV? then n.v.s else Repr(n)
  }

  /** `f'{protocol}://{host}:{port}'` */
  function Url(protocol: Node, host: Node, port: Node): string
  {
    PyStr(protocol) + "://" + PyStr(host) + ":" + PyStr(port)
  }

  /** The base url from a merged configuration. */
  function BaseUrl(config: Dict<Node>): string
  {
    Url(GetOr(config, "protocol", Leaf(NoneV)), GetOr(config, "host", Leaf(NoneV)), GetOr(config, "port", Leaf(NoneV)))
  }

  /** The arguments `mk_webservice` is called with. */
  datatype WebService = WebService(funcs: seq<Endpoint>, config: Dict<Node>)

  /** `mk_api(funcs, mall, **kwargs)` */
  function MkApi(funcs: seq<Endpoint>, mall: Mall?, kwargs: Dict<Node>): (ws: WebService)
    ensures mall != null ==> ws.funcs == funcs + [LightMallEndpoint(mall)]
    ensures mall == null ==> ws.funcs == funcs
    ensures ws.config == ServiceConfig(kwargs)
  {
    var endpoints := if mall != null then funcs + [LightMallEndpoint(mall)] else funcs;
    WebService(endpoints, ServiceConfig(kwargs))
  }

  /** The keyword arguments `mk_webservice` receives. */
  function ServiceConfig(kwargs: Dict<Node>): Dict<Node>
  {
    WithOpenApi(Update(DefaultConfig(), kwargs))
  }

  /** `ws_config` once the `openapi` entry is filled in when missing. */
  function WithOpenApi(wsConfig: Dict<Node>): Dict<Node>
  {
    if HasKey(wsConfig, "openapi") then wsConfig
    else Put(wsConfig, "openapi", Map([("base_url", Leaf(StrV(BaseUrl(wsConfig))))]))
  }

  lemma WithOpenApiEntries(wsConfig: Dict<Node>, k: string)
    ensures HasKey(WithOpenApi(wsConfig), k) <==> HasKey(wsConfig, k) || k == "openapi"
    ensures k != "openapi" && HasKey(wsConfig, k) ==> Get(WithOpenApi(wsConfig), k) == Get(wsConfig, k)
    ensures HasKey(wsConfig, "openapi") ==> Get(WithOpenApi(wsConfig), "openapi") == Get(wsConfig, "openapi")
    ensures !HasKey(wsConfig, "openapi") ==>
              Get(WithOpenApi(wsConfig), "openapi") == Map([("base_url", Leaf(StrV(BaseUrl(wsConfig))))])
    ensures Keys(WithOpenApi(wsConfig)) == Keys(wsConfig) + (if HasKey(wsConfig, "openapi") then [] else ["openapi"])
  {
  }

  /** A setting after the merge: the caller's value over the default. */
  function Setting(kwargs: Dict<Node>, k: string): Node
  {
    GetOr(kwargs, k, GetOr(DefaultConfig(), k, Leaf(NoneV)))
  }

  const DEFAULT_KEYS := ["protocol", "host", "port", "enable_cors", "publish_openapi", "publish_swagger"]

  lemma DefaultConfigKeys()
    ensures Keys(DefaultConfig()) == DEFAULT_KEYS
  {
  }

  lemma DefaultConfigDistinct()
    ensures DistinctKeys(DefaultConfig())
  {
  }

  /** `dict(dflt_config, **kwargs)` */
  lemma MergedConfig(kwargs: Dict<Node>, k: string)
    requires DistinctKeys(kwargs)
    ensures HasKey(Update(DefaultConfig(), kwargs), k) <==> k in DEFAULT_KEYS || HasKey(kwargs, k)
    ensures HasKey(Update(DefaultConfig(), kwargs), k) ==> Get(Update(DefaultConfig(), kwargs), k) == Setting(kwargs, k)
  {
    UpdateGet(DefaultConfig(), kwargs, k);
    DefaultConfigKeys();
  }

  /** The service configuration is the defaults overridden key by key by the
      caller's options, plus `openapi`. */
  lemma ServiceConfigEntries(kwargs: Dict<Node>, k: string)
    requires DistinctKeys(kwargs)
    requires k != "openapi"
    ensures HasKey(ServiceConfig(kwargs), k) <==> k in DEFAULT_KEYS || HasKey(kwargs, k)
    ensures HasKey(ServiceConfig(kwargs), k) ==> Get(ServiceConfig(kwargs), k) == Setting(kwargs, k)
  {
    MergedConfig(kwargs, k);
    WithOpenApiEntries(Update(DefaultConfig(), kwargs), k);
  }

  /** `openapi` is the caller's when given. */
  lemma ServiceConfigOpenApiGiven(kwargs: Dict<Node>)
    requires DistinctKeys(kwargs) && HasKey(kwargs, "openapi")
    ensures HasKey(ServiceConfig(kwargs), "openapi")
    ensures Get(ServiceConfig(kwargs), "openapi") == Get(kwargs, "openapi")
  {
    MergedConfig(kwargs, "openapi");
    WithOpenApiEntries(Update(DefaultConfig(), kwargs), "openapi");
  }

  /** Otherwise `openapi` holds a `base_url` built from the merged protocol,
      host and port. */
  lemma ServiceConfigOpenApiBuilt(kwargs: Dict<Node>)
    requires DistinctKeys(kwargs) && !HasKey(kwargs, "openapi")
    ensures HasKey(ServiceConfig(kwargs), "openapi")
    ensures Get(ServiceConfig(kwargs), "openapi") == Map([("base_url", Leaf(StrV(
              Url(Setting(kwargs, "protocol"), Setting(kwargs, "host"), Setting(kwargs, "port")))))])
  {
    DefaultConfigCore();
    MergedOpenApi(DefaultConfig(), kwargs);
  }

  lemma DefaultConfigCore()
    ensures !HasKey(DefaultConfig(), "openapi")
    ensures HasKey(DefaultConfig(), "protocol") && HasKey(DefaultConfig(), "host") && HasKey(DefaultConfig(), "port")
  {
    DefaultConfigKeys();
  }

  lemma MergedOpenApi(d: Dict<Node>, kwargs: Dict<Node>)
    requires DistinctKeys(kwargs) && !HasKey(kwargs, "openapi") && !HasKey(d, "openapi")
    requires HasKey(d, "protocol") && HasKey(d, "host") && HasKey(d, "port")
    ensures HasKey(WithOpenApi(Update(d, kwargs)), "openapi")
    ensures Get(WithOpenApi(Update(d, kwargs)), "openapi") == Map([("base_url", Leaf(StrV(
              Url(GetOr(kwargs, "protocol", Get(d, "protocol")), GetOr(kwargs, "host", Get(d, "host")),
                  GetOr(kwargs, "port", Get(d, "port"))))))])
  {
    var merged := Update(d, kwargs);
    UpdateGet(d, kwargs, "openapi");
    UpdateGet(d, kwargs, "protocol");
    UpdateGet(d, kwargs, "host");
    UpdateGet(d, kwargs, "port");
    OpenApiBuilt(merged, GetOr(kwargs, "protocol", Get(d, "protocol")), GetOr(kwargs, "host", Get(d, "host")),
                 GetOr(kwargs, "port", Get(d, "port")));
  }

  lemma OpenApiBuilt(merged: Dict<Node>, protocol: Node, host: Node, port: Node)
    requires !HasKey(merged, "openapi")
    requires GetOr(merged, "protocol", Leaf(NoneV)) == protocol
    requires GetOr(merged, "host", Leaf(NoneV)) == host
    requires GetOr(merged, "port", Leaf(NoneV)) == port
    ensures HasKey(WithOpenApi(merged), "openapi")
    ensures Get(WithOpenApi(merged), "openapi") == Map([("base_url", Leaf(StrV(Url(protocol, host, port))))])
  {
  }

  /** The defaults come first in the service configuration, in their order. */
  lemma ServiceConfigOrder(kwargs: Dict<Node>)
    ensures var ks := Keys(ServiceConfig(kwargs));
      |ks| >= 6 && ks[..6] == DEFAULT_KEYS
  {
    var merged := Update(DefaultConfig(), kwargs);
    UpdateKeysPrefix(DefaultConfig(), kwargs);
    DefaultConfigKeys();
    WithOpenApiEntries(merged, "openapi");
  }

  /** With no options the service is published at `http://localhost:3030`. */
  lemma ServiceConfigDefaultUrl()
    ensures Get(ServiceConfig([]), "openapi") == Map([("base_url", Leaf(StrV("http://localhost:3030")))])
  {
    ServiceConfigOpenApiBuilt([]);
    DefaultSettings();
    DefaultUrl();
  }

  lemma DefaultSettings()
    ensures Setting([], "protocol") == Leaf(StrV("http"))
    ensures Setting([], "host") == Leaf(StrV("localhost"))
    ensures Setting([], "port") == Leaf(StrV("3030"))
  {
  }

  lemma DefaultUrl()
    ensures Url(Leaf(StrV("http")), Leaf(StrV("localhost")), Leaf(StrV("3030"))) == "http://localhost:3030"
  {
  }

  // ---------------------------------------------------------------------
  // mk_web_app: the crude configuration

  /** A function given to `mk_web_app`: its `name_of_obj` and its
      `param_to_mall_map` attribute (empty when the attribute is absent). */
  datatype Func = Func(name: string, paramToMallMap: Dict<string>)

  /** The `HttpClient` the front-end talks to: its methods by endpoint name,
      each with its signature (receiver included), and what its
      `get_light_mall()` returns. */
  datatype Api = Api(methods: Dict<seq<Param>>, lightMall: Dict<Node>)

  datatype WebAppError =
    | AttributeError(name: string)
    | RuntimeError(message: string)
    | TypeError(reason: string)
    | PathAssignError(path: seq<string>)

  /** `{k: v for k, v in build_crude_config()}`: the functions with a
      non-empty `param_to_mall_map`, keyed by name; a later function of the
      same name replaces the earlier one's map. */
  function CrudeConfig(funcs: seq<Func>): Dict<Dict<string>>
    decreases |funcs|
  {
    if funcs == [] then []
    else
      var acc := CrudeConfig(funcs[..|funcs| - 1]);
      var f := funcs[|funcs| - 1];
      if f.paramToMallMap != [] then Put(acc, f.name, f.paramToMallMap) else acc
  }

  /** No name occurs twice in `crude_config`. */
  lemma {:induction false} CrudeConfigDistinct(funcs: seq<Func>)
    ensures DistinctKeys(CrudeConfig(funcs))
    decreases |funcs|
  {
    if funcs != [] {
      var init := funcs[..|funcs| - 1];
      var f := funcs[|funcs| - 1];
      CrudeConfigDistinct(init);
      if f.paramToMallMap != [] {
        PutDistinct(CrudeConfig(init), f.name, f.paramToMallMap);
      }
    }
  }

  /** A function that `build_crude_config` yields. */
  predicate Crudified(funcs: seq<Func>, i: int, k: string)
  {
    0 <= i < |funcs| && funcs[i].name == k && funcs[i].paramToMallMap != []
  }

  /** The last function of name `k` that `build_crude_config` yields, or -1. */
  function LastCrudified(funcs: seq<Func>, k: string): (i: int)
    ensures -1 <= i < |funcs|
    ensures i >= 0 ==> Crudified(funcs, i, k)
    ensures forall j :: i < j < |funcs| ==> !Crudified(funcs, j, k)
    decreases |funcs|
  {
    if funcs == [] then -1
    else if Crudified(funcs, |funcs| - 1, k) then |funcs| - 1
    else
      var i := LastCrudified(funcs[..|funcs| - 1], k);
      assert forall j :: 0 <= j < |funcs| - 1 ==> Crudified(funcs, j, k) == Crudified(funcs[..|funcs| - 1], j, k);
      i
  }

  /** `crude_config` holds exactly the names of functions with a non-empty
      map, each bound to the map of the last such function of that name. */
  lemma {:induction false} CrudeConfigEntries(funcs: seq<Func>, k: string)
    ensures HasKey(CrudeConfig(funcs), k) <==> LastCrudified(funcs, k) >= 0
    ensures HasKey(CrudeConfig(funcs), k) ==>
              Get(CrudeConfig(funcs), k) == funcs[LastCrudified(funcs, k)].paramToMallMap
    decreases |funcs|
  {
    if funcs != [] {
      var n := |funcs| - 1;
      var init := funcs[..n];
      CrudeConfigEntries(init, k);
      var i := LastCrudified(init, k);
      if i >= 0 {
        assert init[i] == funcs[i];
      }
    }
  }

  /** `'.'.join([RENDERING_KEY, func_name, 'execution', 'inputs', param])`,
      as the segments glom splits it into. */
  function ParamPath(funcName: string, param: string): seq<string>
  {
    [RENDERING_KEY, funcName, "execution", "inputs", param]
  }

  /** Paths of two different (function, parameter) pairs diverge. */
  lemma ParamPathsDiverge(f1: string, p1: string, f2: string, p2: string)
    requires f1 != f2 || p1 != p2
    ensures Diverge(ParamPath(f1, p1), ParamPath(f2, p2))
  {
    var a, b := ParamPath(f1, p1), ParamPath(f2, p2);
    if f1 != f2 {
      assert Diverge(a[1..], b[1..]);
    } else {
      assert Diverge(a[4..], b[4..]);
      assert a[3..][1..] == a[4..] && b[3..][1..] == b[4..];
      assert Diverge(a[3..], b[3..]);
      assert a[2..][1..] == a[3..] && b[2..][1..] == b[3..];
      assert Diverge(a[2..], b[2..]);
      assert a[1..][1..] == a[2..] && b[1..][1..] == b[2..];
      assert Diverge(a[1..], b[1..]);
    }
  }

  /** `list(light_mall.get(store, {}))`: the key list of the store's entry,
      `[]` when the store is absent. */
  function StoreOptions(lightMall: Dict<Node>, store: string): Result<seq<string>, WebAppError>
  {
    if !HasKey(lightMall, store) then Ok([])
    else
      match Get(lightMall, store)
      case Map(es) => Ok(Keys(es))
      case Leaf(StrV(s)) => Ok(seq(|s|, i requires 0 <= i < |s| => [s[i]]))
      case Leaf(StrList(xs)) => Ok(xs)
      case Leaf(_) => Err(TypeError("object is not iterable"))
  }

  /** `ELEMENT_KEY in param_config` for a parameter configuration that is not
      a dict: a substring test on a string, membership in a list, and an
      error on anything else. */
  function LeafHasElement(v: Scalar): Result<bool, WebAppError>
  {
    match v
    case StrV(s) => Ok(Contains(s, ELEMENT_KEY))
    case StrList(xs) => Ok(ELEMENT_KEY in xs)
    case _ => Err(TypeError("argument is not iterable"))
  }

  /** A parameter configuration with the select box and its options set. */
  function WithSelectBox(es: Dict<Node>, options: seq<string>): Dict<Node>
  {
    Put(Put(es, ELEMENT_KEY, Leaf(SELECT_BOX)), "options", Leaf(StrList(options)))
  }

  /** The body of the inner loop of `handle_crudified_params`, for one
      parameter of one function. */
  function ConfigureParam(config: Node, funcName: string, param: string, store: string,
                          lightMall: Dict<Node>): Result<Node, WebAppError>
  {
    var path := ParamPath(funcName, param);
    var current := Lookup(config, path).GetOr(Map([]));
    match current
    case Leaf(v) =>
      (match LeafHasElement(v)
       case Ok(true) => Ok(config)
       case Ok(false) => Err(TypeError("object does not support item assignment"))
       case Err(e) => Err(e))
    case Map(es) =>
      if HasKey(es, ELEMENT_KEY) then Ok(config)
      else
        match StoreOptions(lightMall, store)
        case Err(e) => Err(e)
        case Ok(options) =>
          match Assign(config, path, Map(WithSelectBox(es, options)))
          case Ok(c) => Ok(c)
          case Err(p) => Err(PathAssignError(p))
  }

  /** The inner loop over one function's `param_to_mall_map`. */
  function ConfigureParams(config: Node, funcName: string, params: Dict<string>,
                           lightMall: Dict<Node>): Result<Node, WebAppError>
    decreases |params|
  {
    if params == [] then Ok(config)
    else
      match ConfigureParams(config, funcName, params[..|params| - 1], lightMall)
      case Err(e) => Err(e)
      case Ok(c) => ConfigureParam(c, funcName, params[|params| - 1].0, params[|params| - 1].1, lightMall)
  }

  /** Both loops over `crude_config`. */
  function ConfigureAll(config: Node, crude: Dict<Dict<string>>, lightMall: Dict<Node>): Result<Node, WebAppError>
    decreases |crude|
  {
    if crude == [] then Ok(config)
    else
      match ConfigureAll(config, crude[..|crude| - 1], lightMall)
      case Err(e) => Err(e)
      case Ok(c) => ConfigureParams(c, crude[|crude| - 1].0, crude[|crude| - 1].1, lightMall)
  }

  const NO_LIGHT_MALL :=
    "Some parameters have been crudified but there is no way to get the list of valid keys " +
    "for them. Make sure to expose the \"get_light_mall\" endpoint through the API"

  /** The keyword arguments of the front-end after `handle_crudified_params`. */
  function CrudifiedKwargs(funcs: seq<Func>, api: Api, kwargs: Dict<Node>): Result<Dict<Node>, WebAppError>
  {
    var crude := CrudeConfig(funcs);
    if crude == [] then Ok(kwargs)
    else if !HasKey(api.methods, "get_light_mall") then Err(RuntimeError(NO_LIGHT_MALL))
    else
      match ConfigureAll(GetOr(kwargs, "config", Map([])), crude, api.lightMall)
      case Err(e) => Err(e)
      case Ok(c) => Ok(Put(kwargs, "config", c))
  }

  // ---------------------------------------------------------------------
  // What the configuration loops do to the configuration

  /** What a parameter's configuration becomes: left as it is when it
      already names an element, otherwise a select box whose options are the
      store's keys, the parameter's other settings kept. */
  function Configured(before: Option<Node>, lightMall: Dict<Node>, store: string): Option<Node>
  {
    match before
    case Some(Leaf(_)) => before
    case Some(Map(es)) =>
      if HasKey(es, ELEMENT_KEY) then before
      else Some(Map(WithSelectBox(es, OptionsOr(StoreOptions(lightMall, store)))))
    case None => Some(Map(WithSelectBox([], OptionsOr(StoreOptions(lightMall, store)))))
  }

  /** The options value, when the store's keys could be listed. */
  function OptionsOr(r: Result<seq<string>, WebAppError>): seq<string>
  {
    if r.Ok? then r.value else []
  }

  lemma {:induction false} ConfigureParamEffect(config: Node, funcName: string, param: string, store: string,
                                                lightMall: Dict<Node>)
    requires ConfigureParam(config, funcName, param, store, lightMall).Ok?
    ensures var after := ConfigureParam(config, funcName, param, store, lightMall).value;
      && Lookup(after, ParamPath(funcName, param)) == Configured(Lookup(config, ParamPath(funcName, param)), lightMall, store)
      && forall q :: Diverge(ParamPath(funcName, param), q) ==> Lookup(after, q) == Lookup(config, q)
  {
    var path := ParamPath(funcName, param);
    var current := Lookup(config, path).GetOr(Map([]));
    if current.Map? && !HasKey(current.entries, ELEMENT_KEY) {
      var options := StoreOptions(lightMall, store).value;
      var v := Map(WithSelectBox(current.entries, options));
      AssignLookupSame(config, path, v);
      forall q | Diverge(path, q) ensures Lookup(Assign(config, path, v).value, q) == Lookup(config, q) {
        AssignLookupDiverge(config, path, v, q);
      }
    }
  }

  /** No path of one function's parameters is a prefix of `q`, nor the
      other way round. */
  ghost predicate Untouched(q: seq<string>, funcName: string, params: Dict<string>)
  {
    forall i :: 0 <= i < |params| ==> Diverge(ParamPath(funcName, params[i].0), q)
  }

  /** No parameter's path in the whole crude configuration meets `q`. */
  ghost predicate UntouchedAll(q: seq<string>, crude: Dict<Dict<string>>)
  {
    forall i :: 0 <= i < |crude| ==> Untouched(q, crude[i].0, crude[i].1)
  }

  /** Each of one function's parameters went from `before` to `after` as
      `Configured` says. */
  ghost predicate ParamsConfigured(before: Node, after: Node, funcName: string, params: Dict<string>,
                                   lightMall: Dict<Node>)
  {
    forall i :: 0 <= i < |params| ==>
      Lookup(after, ParamPath(funcName, params[i].0))
        == Configured(Lookup(before, ParamPath(funcName, params[i].0)), lightMall, params[i].1)
  }

  /** Every path away from one function's parameters is the same in both. */
  ghost predicate SameOutside(before: Node, after: Node, funcName: string, params: Dict<string>)
  {
    forall q :: Untouched(q, funcName, params) ==> Lookup(after, q) == Lookup(before, q)
  }

  /** One step of the inner loop, on the facts alone. */
  lemma ParamsStep(config: Node, mid: Node, after: Node, funcName: string, params: Dict<string>,
                   lightMall: Dict<Node>)
    requires params != [] && DistinctKeys(params)
    requires ParamsConfigured(config, mid, funcName, params[..|params| - 1], lightMall)
    requires SameOutside(config, mid, funcName, params[..|params| - 1])
    requires var last := params[|params| - 1];
      Lookup(after, ParamPath(funcName, last.0)) == Configured(Lookup(mid, ParamPath(funcName, last.0)), lightMall, last.1)
    requires forall q :: Diverge(ParamPath(funcName, params[|params| - 1].0), q) ==> Lookup(after, q) == Lookup(mid, q)
    ensures ParamsConfigured(config, after, funcName, params, lightMall)
    ensures SameOutside(config, after, funcName, params)
  {
    StepEarlier(config, mid, after, funcName, params, lightMall);
    LastUntouched(mid, config, funcName, params);
    StepOutside(config, mid, after, funcName, params);
  }

  lemma StepEarlier(config: Node, mid: Node, after: Node, funcName: string, params: Dict<string>,
                    lightMall: Dict<Node>)
    requires params != [] && DistinctKeys(params)
    requires ParamsConfigured(config, mid, funcName, params[..|params| - 1], lightMall)
    requires forall q :: Diverge(ParamPath(funcName, params[|params| - 1].0), q) ==> Lookup(after, q) == Lookup(mid, q)
    ensures forall i :: 0 <= i < |params| - 1 ==>
      Lookup(after, ParamPath(funcName, params[i].0))
        == Configured(Lookup(config, ParamPath(funcName, params[i].0)), lightMall, params[i].1)
  {
    var n := |params| - 1;
    var init, last := params[..n], params[n];
    forall i | 0 <= i < n
      ensures Lookup(after, ParamPath(funcName, params[i].0))
              == Configured(Lookup(config, ParamPath(funcName, params[i].0)), lightMall, params[i].1)
    {
      assert init[i] == params[i];
      ParamPathsDiverge(funcName, last.0, funcName, params[i].0);
      KeptConfigured(config, mid, after, ParamPath(funcName, params[i].0), ParamPath(funcName, last.0), lightMall, params[i].1);
    }
  }

  lemma StepOutside(config: Node, mid: Node, after: Node, funcName: string, params: Dict<string>)
    requires params != []
    requires SameOutside(config, mid, funcName, params[..|params| - 1])
    requires forall q :: Diverge(ParamPath(funcName, params[|params| - 1].0), q) ==> Lookup(after, q) == Lookup(mid, q)
    ensures SameOutside(config, after, funcName, params)
  {
    forall q | Untouched(q, funcName, params) ensures Lookup(after, q) == Lookup(config, q) {
      UntouchedInit(q, funcName, params);
    }
  }

  /** A configured path that a later step does not meet stays configured. */
  lemma KeptConfigured(config: Node, mid: Node, after: Node, path: seq<string>, stepPath: seq<string>,
                       lightMall: Dict<Node>, store: string)
    requires Lookup(mid, path) == Configured(Lookup(config, path), lightMall, store)
    requires Diverge(stepPath, path)
    requires forall q :: Diverge(stepPath, q) ==> Lookup(after, q) == Lookup(mid, q)
    ensures Lookup(after, path) == Configured(Lookup(config, path), lightMall, store)
  {
  }

  /** The last parameter has not been touched by the earlier ones. */
  lemma LastUntouched(mid: Node, config: Node, funcName: string, params: Dict<string>)
    requires params != [] && DistinctKeys(params)
    requires SameOutside(config, mid, funcName, params[..|params| - 1])
    ensures Lookup(mid, ParamPath(funcName, params[|params| - 1].0)) == Lookup(config, ParamPath(funcName, params[|params| - 1].0))
  {
    var n := |params| - 1;
    var init, last := params[..n], params[n];
    forall m | 0 <= m < |init| ensures Diverge(ParamPath(funcName, init[m].0), ParamPath(funcName, last.0)) {
      assert init[m] == params[m];
      ParamPathsDiverge(funcName, init[m].0, funcName, last.0);
    }
    assert Untouched(ParamPath(funcName, last.0), funcName, init);
  }

  lemma UntouchedInit(q: seq<string>, funcName: string, params: Dict<string>)
    requires params != [] && Untouched(q, funcName, params)
    ensures Untouched(q, funcName, params[..|params| - 1])
    ensures Diverge(ParamPath(funcName, params[|params| - 1].0), q)
  {
    forall m | 0 <= m < |params| - 1 ensures params[..|params| - 1][m] == params[m] {
    }
  }

  /** The inner loop configures each parameter of the function and touches
      nothing else. */
  lemma {:induction false} ConfigureParamsEffect(config: Node, funcName: string, params: Dict<string>,
                                                 lightMall: Dict<Node>)
    requires DistinctKeys(params)
    requires ConfigureParams(config, funcName, params, lightMall).Ok?
    ensures ParamsConfigured(config, ConfigureParams(config, funcName, params, lightMall).value, funcName, params, lightMall)
    ensures SameOutside(config, ConfigureParams(config, funcName, params, lightMall).value, funcName, params)
    decreases |params|
  {
    if params != [] {
      var n := |params| - 1;
      var init, last := params[..n], params[n];
      assert DistinctKeys(init) by {
        forall i, j | 0 <= i < j < |init| ensures init[i].0 != init[j].0 {
          assert init[i] == params[i] && init[j] == params[j];
        }
      }
      ConfigureParamsEffect(config, funcName, init, lightMall);
      var mid := ConfigureParams(config, funcName, init, lightMall).value;
      ConfigureParamEffect(mid, funcName, last.0, last.1, lightMall);
      ParamsStep(config, mid, ConfigureParams(config, funcName, params, lightMall).value, funcName, params, lightMall);
    }
  }

  /** Each crudified parameter went from `before` to `after` as `Configured`
      says. */
  ghost predicate AllConfigured(before: Node, after: Node, crude: Dict<Dict<string>>, lightMall: Dict<Node>)
  {
    forall i :: 0 <= i < |crude| ==> ParamsConfigured(before, after, crude[i].0, crude[i].1, lightMall)
  }

  /** Every path away from all crudified parameters is the same in both. */
  ghost predicate SameOutsideAll(before: Node, after: Node, crude: Dict<Dict<string>>)
  {
    forall q :: UntouchedAll(q, crude) ==> Lookup(after, q) == Lookup(before, q)
  }

  /** A parameter path of another function does not meet this function's. */
  lemma OtherFunctionUntouched(f: string, p: string, g: string, params: Dict<string>)
    requires f != g
    ensures Untouched(ParamPath(f, p), g, params)
  {
    forall m | 0 <= m < |params| ensures Diverge(ParamPath(g, params[m].0), ParamPath(f, p)) {
      ParamPathsDiverge(g, params[m].0, f, p);
    }
  }

  /** Paths that a step's parameters do not meet keep what they had. */
  lemma KeptParamsConfigured(config: Node, mid: Node, after: Node, f: string, params: Dict<string>,
                             g: string, stepParams: Dict<string>, lightMall: Dict<Node>)
    requires f != g
    requires ParamsConfigured(config, mid, f, params, lightMall)
    requires SameOutside(mid, after, g, stepParams)
    ensures ParamsConfigured(config, after, f, params, lightMall)
  {
    forall j | 0 <= j < |params|
      ensures Lookup(after, ParamPath(f, params[j].0))
              == Configured(Lookup(config, ParamPath(f, params[j].0)), lightMall, params[j].1)
    {
      OtherFunctionUntouched(f, params[j].0, g, stepParams);
    }
  }

  /** The last function's parameters were not touched by the earlier ones. */
  lemma LastFunctionConfigured(config: Node, mid: Node, after: Node, crude: Dict<Dict<string>>, lightMall: Dict<Node>)
    requires crude != [] && DistinctKeys(crude)
    requires SameOutsideAll(config, mid, crude[..|crude| - 1])
    requires ParamsConfigured(mid, after, crude[|crude| - 1].0, crude[|crude| - 1].1, lightMall)
    ensures ParamsConfigured(config, after, crude[|crude| - 1].0, crude[|crude| - 1].1, lightMall)
  {
    var n := |crude| - 1;
    var init, last := crude[..n], crude[n];
    forall j | 0 <= j < |last.1|
      ensures Lookup(after, ParamPath(last.0, last.1[j].0))
              == Configured(Lookup(config, ParamPath(last.0, last.1[j].0)), lightMall, last.1[j].1)
    {
      var path := ParamPath(last.0, last.1[j].0);
      LastParamUntouched(crude, last.1[j].0);
      assert Lookup(mid, path) == Lookup(config, path);
    }
  }

  /** The earlier functions of a crude configuration leave every parameter
      path of the last function alone. */
  lemma LastParamUntouched(crude: Dict<Dict<string>>, param: string)
    requires crude != [] && DistinctKeys(crude)
    ensures UntouchedAll(ParamPath(crude[|crude| - 1].0, param), crude[..|crude| - 1])
  {
    var n := |crude| - 1;
    var init := crude[..n];
    var path := ParamPath(crude[n].0, param);
    forall i | 0 <= i < |init| ensures Untouched(path, init[i].0, init[i].1) {
      assert init[i] == crude[i];
      OtherFunctionUntouched(crude[n].0, param, init[i].0, init[i].1);
    }
  }

  lemma AllOutside(config: Node, mid: Node, after: Node, crude: Dict<Dict<string>>)
    requires crude != []
    requires SameOutsideAll(config, mid, crude[..|crude| - 1])
    requires SameOutside(mid, after, crude[|crude| - 1].0, crude[|crude| - 1].1)
    ensures SameOutsideAll(config, after, crude)
  {
    forall q | UntouchedAll(q, crude) ensures Lookup(after, q) == Lookup(config, q) {
      var n := |crude| - 1;
      assert Untouched(q, crude[n].0, crude[n].1);
      forall i | 0 <= i < n ensures Untouched(q, crude[..n][i].0, crude[..n][i].1) {
        assert crude[..n][i] == crude[i];
      }
      assert UntouchedAll(q, crude[..n]);
    }
  }

  /** One step of the outer loop, on the facts alone. */
  lemma AllStep(config: Node, mid: Node, after: Node, crude: Dict<Dict<string>>, lightMall: Dict<Node>)
    requires crude != [] && DistinctKeys(crude)
    requires AllConfigured(config, mid, crude[..|crude| - 1], lightMall)
    requires SameOutsideAll(config, mid, crude[..|crude| - 1])
    requires ParamsConfigured(mid, after, crude[|crude| - 1].0, crude[|crude| - 1].1, lightMall)
    requires SameOutside(mid, after, crude[|crude| - 1].0, crude[|crude| - 1].1)
    ensures AllConfigured(config, after, crude, lightMall)
    ensures SameOutsideAll(config, after, crude)
  {
    EarlierFunctionsConfigured(config, mid, after, crude, lightMall);
    LastFunctionConfigured(config, mid, after, crude, lightMall);
    AllOutside(config, mid, after, crude);
  }

  lemma EarlierFunctionsConfigured(config: Node, mid: Node, after: Node, crude: Dict<Dict<string>>,
                                   lightMall: Dict<Node>)
    requires crude != [] && DistinctKeys(crude)
    requires AllConfigured(config, mid, crude[..|crude| - 1], lightMall)
    requires SameOutside(mid, after, crude[|crude| - 1].0, crude[|crude| - 1].1)
    ensures forall i :: 0 <= i < |crude| - 1 ==> ParamsConfigured(config, after, crude[i].0, crude[i].1, lightMall)
  {
    var n := |crude| - 1;
    forall i | 0 <= i < n ensures ParamsConfigured(config, after, crude[i].0, crude[i].1, lightMall) {
      assert crude[..n][i] == crude[i];
      KeptParamsConfigured(config, mid, after, crude[i].0, crude[i].1, crude[n].0, crude[n].1, lightMall);
    }
  }

  /** Both loops together configure each crudified parameter of each
      function and touch nothing else. */
  lemma {:induction false} ConfigureAllEffect(config: Node, crude: Dict<Dict<string>>, lightMall: Dict<Node>)
    requires DistinctKeys(crude)
    requires forall i :: 0 <= i < |crude| ==> DistinctKeys(crude[i].1)
    requires ConfigureAll(config, crude, lightMall).Ok?
    ensures AllConfigured(config, ConfigureAll(config, crude, lightMall).value, crude, lightMall)
    ensures SameOutsideAll(config, ConfigureAll(config, crude, lightMall).value, crude)
    decreases |crude|
  {
    if crude != [] {
      var n := |crude| - 1;
      var init, last := crude[..n], crude[n];
      assert DistinctKeys(init) by {
        forall i, j | 0 <= i < j < |init| ensures init[i].0 != init[j].0 {
          assert init[i] == crude[i] && init[j] == crude[j];
        }
      }
      assert forall i :: 0 <= i < |init| ==> init[i] == crude[i];
      ConfigureAllEffect(config, init, lightMall);
      var mid := ConfigureAll(config, init, lightMall).value;
      ConfigureParamsEffect(mid, last.0, last.1, lightMall);
      AllStep(config, mid, ConfigureAll(config, crude, lightMall).value, crude, lightMall);
    }
  }

  // ---------------------------------------------------------------------
  // handle_crudified_params

  /** An error ends the inner loop: later parameters change nothing. */
  lemma {:induction false} ConfigureParamsErrSticky(config: Node, funcName: string, params: Dict<string>, k: int,
                                                    lightMall: Dict<Node>)
    requires 0 <= k <= |params|
    requires ConfigureParams(config, funcName, params[..k], lightMall).Err?
    ensures ConfigureParams(config, funcName, params, lightMall) == ConfigureParams(config, funcName, params[..k], lightMall)
    decreases |params|
  {
    if k < |params| {
      var init := params[..|params| - 1];
      assert init[..k] == params[..k];
      ConfigureParamsErrSticky(config, funcName, init, k, lightMall);
    } else {
      assert params[..k] == params;
    }
  }

  /** An error ends the outer loop: later functions change nothing. */
  lemma {:induction false} ConfigureAllErrSticky(config: Node, crude: Dict<Dict<string>>, k: int, lightMall: Dict<Node>)
    requires 0 <= k <= |crude|
    requires ConfigureAll(config, crude[..k], lightMall).Err?
    ensures ConfigureAll(config, crude, lightMall) == ConfigureAll(config, crude[..k], lightMall)
    decreases |crude|
  {
    if k < |crude| {
      var init := crude[..|crude| - 1];
      assert init[..k] == crude[..k];
      ConfigureAllErrSticky(config, init, k, lightMall);
    } else {
      assert crude[..k] == crude;
    }
  }

  /** The body of the inner loop: read the parameter's configuration and,
      unless it already names an element, make it a select box over the
      store's keys. */
  method ConfigureParamStep(config: Node, funcName: string, param: string, store: string, lightMall: Dict<Node>)
    returns (step: Result<Node, WebAppError>)
    ensures step == ConfigureParam(config, funcName, param, store, lightMall)
  {
    var path := ParamPath(funcName, param);
    var paramConfig := Lookup(config, path).GetOr(Map([]));
    step := Ok(config);
    match paramConfig {
      case Leaf(v) =>
        var hasElement := LeafHasElement(v);
        if hasElement.Err? {
          step := Err(hasElement.error);
        } else if !hasElement.value {
          step := Err(TypeError("object does not support item assignment"));
        }
      case Map(es) =>
        if !HasKey(es, ELEMENT_KEY) {
          var options := StoreOptions(lightMall, store);
          if options.Err? {
            step := Err(options.error);
          } else {
            var assignment := Assign(config, path, Map(WithSelectBox(es, options.value)));
            step := if assignment.Ok? then Ok(assignment.value) else Err(PathAssignError(assignment.error));
          }
        }
    }
  }

  /** `handle_crudified_params()`, returning the new keyword arguments of the
      front-end or the error it raises. */
  method HandleCrudifiedParams(funcs: seq<Func>, api: Api, kwargs: Dict<Node>) returns (r: Result<Dict<Node>, WebAppError>)
    ensures r == CrudifiedKwargs(funcs, api, kwargs)
  {
    var crude := BuildCrudeConfig(funcs);
    if crude == [] {
      return Ok(kwargs);
    }
    if !HasKey(api.methods, "get_light_mall") {
      return Err(RuntimeError(NO_LIGHT_MALL));
    }
    var config := ConfigureCrude(GetOr(kwargs, "config", Map([])), crude, api.lightMall);
    if config.Err? {
      return Err(config.error);
    }
    return Ok(Put(kwargs, "config", config.value));
  }

  /** The outer loop, over the crudified functions. */
  method ConfigureCrude(config: Node, crude: Dict<Dict<string>>, lightMall: Dict<Node>)
    returns (r: Result<Node, WebAppError>)
    ensures r == ConfigureAll(config, crude, lightMall)
  {
    var current := config;
    var i := 0;
    while i < |crude|
      invariant 0 <= i <= |crude|
      invariant ConfigureAll(config, crude[..i], lightMall) == Ok(current)
    {
      var step := ConfigureFunction(current, crude[i].0, crude[i].1, lightMall);
      assert crude[..i + 1][..i] == crude[..i];
      if step.Err? {
        ConfigureAllErrSticky(config, crude, i + 1, lightMall);
        return Err(step.error);
      }
      current := step.value;
      i := i + 1;
    }
    assert crude[..i] == crude;
    return Ok(current);
  }

  /** `{k: v for k, v in build_crude_config()}`: the crudified functions by
      name, each with its parameter-to-store mapping. */
  method BuildCrudeConfig(funcs: seq<Func>) returns (crude: Dict<Dict<string>>)
    ensures crude == CrudeConfig(funcs)
  {
    crude := [];
    var n := 0;
    while n < |funcs|
      invariant 0 <= n <= |funcs|
      invariant crude == CrudeConfig(funcs[..n])
    {
      var f := funcs[n];
      if f.paramToMallMap != [] {
        crude := Put(crude, f.name, f.paramToMallMap);
      }
      n := n + 1;
      assert funcs[..n][..n - 1] == funcs[..n - 1];
    }
    assert funcs[..|funcs|] == funcs;
  }

  /** The inner loop, over the crudified parameters of one function. */
  method ConfigureFunction(config: Node, funcName: string, paramToMallMap: Dict<string>, lightMall: Dict<Node>)
    returns (r: Result<Node, WebAppError>)
    ensures r == ConfigureParams(config, funcName, paramToMallMap, lightMall)
  {
    var current := config;
    var j := 0;
    while j < |paramToMallMap|
      invariant 0 <= j <= |paramToMallMap|
      invariant ConfigureParams(config, funcName, paramToMallMap[..j], lightMall) == Ok(current)
    {
      var param, store := paramToMallMap[j].0, paramToMallMap[j].1;
      var step := ConfigureParamStep(current, funcName, param, store, lightMall);
      assert paramToMallMap[..j + 1][..j] == paramToMallMap[..j];
      if step.Err? {
        ConfigureParamsErrSticky(config, funcName, paramToMallMap, j + 1, lightMall);
        return Err(step.error);
      }
      current := step.value;
      j := j + 1;
    }
    assert paramToMallMap[..j] == paramToMallMap;
    return Ok(current);
  }

  /** What `handle_crudified_params` does to the front-end's keyword
      arguments: nothing when no function is crudified; an error when the API
      cannot list a store's keys; otherwise `config` is set to the given
      configuration (or `{}`) with every crudified parameter configured and
      every other path left as it was. */
  lemma CrudifiedKwargsEffect(funcs: seq<Func>, api: Api, kwargs: Dict<Node>)
    requires forall i :: 0 <= i < |funcs| ==> DistinctKeys(funcs[i].paramToMallMap)
    ensures CrudeConfig(funcs) == [] ==> CrudifiedKwargs(funcs, api, kwargs) == Ok(kwargs)
    ensures CrudeConfig(funcs) != [] && !HasKey(api.methods, "get_light_mall") ==>
              CrudifiedKwargs(funcs, api, kwargs) == Err(RuntimeError(NO_LIGHT_MALL))
    ensures CrudeConfig(funcs) != [] && CrudifiedKwargs(funcs, api, kwargs).Ok? ==>
              var after := CrudifiedKwargs(funcs, api, kwargs).value;
              var before := GetOr(kwargs, "config", Map([]));
              && HasKey(after, "config")
              && (forall k :: k != "config" ==> HasKey(after, k) == HasKey(kwargs, k))
              && (forall k :: k != "config" && HasKey(kwargs, k) ==> Get(after, k) == Get(kwargs, k))
              && AllConfigured(before, Get(after, "config"), CrudeConfig(funcs), api.lightMall)
              && SameOutsideAll(before, Get(after, "config"), CrudeConfig(funcs))
  {
    var crude := CrudeConfig(funcs);
    if crude != [] && CrudifiedKwargs(funcs, api, kwargs).Ok? {
      CrudeConfigDistinct(funcs);
      forall i | 0 <= i < |crude| ensures DistinctKeys(crude[i].1) {
        GetAtIndex(crude, i);
        CrudeConfigEntries(funcs, crude[i].0);
      }
      ConfigureAllEffect(GetOr(kwargs, "config", Map([])), crude, api.lightMall);
    }
  }

  // ---------------------------------------------------------------------
  // mk_web_app

  /** `[name_of_obj(func) for func in funcs]` */
  function FuncNames(funcs: seq<Func>): (names: seq<string>)
    ensures |names| == |funcs| && forall i :: 0 <= i < |funcs| ==> names[i] == funcs[i].name
  {
    seq(|funcs|, i requires 0 <= i < |funcs| => funcs[i].name)
  }

  /** `Sig(meth) - 'self'`: the signature without its `self` parameter. */
  function RemoveSelf(sig: seq<Param>): (flat: seq<Param>)
    ensures forall p :: p in flat <==> p in sig && p.name != "self"
    ensures IsSubsequence(Names(flat), Names(sig))
  {
    if sig == [] then []
    else
      var rest := RemoveSelf(sig[1..]);
      assert Names(sig)[1..] == Names(sig[1..]);
      if sig[0].name == "self" then
        SubsequencePrepend(Names(rest), Names(sig[1..]), sig[0].name);
        rest
      else
        assert Names([sig[0]] + rest) == [sig[0].name] + Names(rest);
        [sig[0]] + rest
  }

  /** `[flatten_api_meth(getattr(api, name)) for name in func_names]`: each
      API method by name, with its signature stripped of `self`; the first
      name the API lacks raises `AttributeError`. */
  function WsFuncs(names: seq<string>, api: Api): Result<seq<(string, seq<Param>)>, WebAppError>
  {
    if names == [] then Ok([])
    else if !HasKey(api.methods, names[0]) then Err(AttributeError(names[0]))
    else
      match WsFuncs(names[1..], api)
      case Err(e) => Err(e)
      case Ok(rest) => Ok([(names[0], RemoveSelf(Get(api.methods, names[0])))] + rest)
  }

  /** The flattened functions exist exactly when the API has every name. */
  lemma {:induction false} WsFuncsDefined(names: seq<string>, api: Api)
    ensures WsFuncs(names, api).Ok? <==> forall i :: 0 <= i < |names| ==> HasKey(api.methods, names[i])
  {
    if names != [] {
      WsFuncsDefined(names[1..], api);
      assert forall i :: 0 < i < |names| ==> names[1..][i - 1] == names[i];
    }
  }

  /** The flattened functions correspond one to one to the names, in order. */
  lemma {:induction false} WsFuncsElements(names: seq<string>, api: Api)
    ensures WsFuncs(names, api).Ok? ==>
              var ws := WsFuncs(names, api).value;
              |ws| == |names| &&
              forall i :: 0 <= i < |names| ==>
                HasKey(api.methods, names[i]) && ws[i] == (names[i], RemoveSelf(Get(api.methods, names[i])))
  {
    if names != [] && WsFuncs(names, api).Ok? {
      WsFuncsElements(names[1..], api);
      var ws := WsFuncs(names, api).value;
      var rest := WsFuncs(names[1..], api).value;
      assert ws == [(names[0], RemoveSelf(Get(api.methods, names[0])))] + rest;
      forall i | 0 < i < |names|
        ensures HasKey(api.methods, names[i]) && ws[i] == (names[i], RemoveSelf(Get(api.methods, names[i])))
      {
        assert names[1..][i - 1] == names[i];
        assert ws[i] == rest[i - 1];
      }
    }
  }

  /** A failure names the first name the API lacks. */
  lemma {:induction false} WsFuncsFirstMissing(names: seq<string>, api: Api)
    ensures WsFuncs(names, api).Err? ==>
              exists i :: 0 <= i < |names| && !HasKey(api.methods, names[i])
                && WsFuncs(names, api).error == AttributeError(names[i])
                && forall j :: 0 <= j < i ==> HasKey(api.methods, names[j])
  {
    if names != [] && HasKey(api.methods, names[0]) && WsFuncs(names[1..], api).Err? {
      WsFuncsFirstMissing(names[1..], api);
      var i :| 0 <= i < |names[1..]| && !HasKey(api.methods, names[1..][i])
               && WsFuncs(names[1..], api).error == AttributeError(names[1..][i])
               && forall j :: 0 <= j < i ==> HasKey(api.methods, names[1..][j]);
      assert names[1..][i] == names[i + 1];
      forall j | 0 <= j < i + 1 ensures HasKey(api.methods, names[j]) {
        if j > 0 {
          assert names[1..][j - 1] == names[j];
        }
      }
    } else if names != [] && !HasKey(api.methods, names[0]) {
      assert !HasKey(api.methods, names[0]);
    }
  }

  /** The arguments `mk_front_app` is called with. */
  datatype FrontApp = FrontApp(funcs: seq<(string, seq<Param>)>, kwargs: Dict<Node>)

  /** `mk_web_app(funcs, api=api, **kwargs)`: the API's methods for the given
      functions, then the crudified parameters configured, handed to the
      front-end builder. */
  method MkWebApp(funcs: seq<Func>, api: Api, kwargs: Dict<Node>) returns (r: Result<FrontApp, WebAppError>)
    ensures r.Ok? <==>
              (forall i :: 0 <= i < |funcs| ==> HasKey(api.methods, funcs[i].name))
              && CrudifiedKwargs(funcs, api, kwargs).Ok?
    ensures r.Ok? ==>
              && |r.value.funcs| == |funcs|
              && (forall i :: 0 <= i < |funcs| ==>
                    r.value.funcs[i] == (funcs[i].name, RemoveSelf(Get(api.methods, funcs[i].name))))
              && r.value.kwargs == CrudifiedKwargs(funcs, api, kwargs).value
    ensures (exists i :: 0 <= i < |funcs| && !HasKey(api.methods, funcs[i].name)) ==>
              r.Err? && r.error.AttributeError?
    ensures (forall i :: 0 <= i < |funcs| ==> HasKey(api.methods, funcs[i].name))
              && CrudifiedKwargs(funcs, api, kwargs).Err? ==>
              r == Err(CrudifiedKwargs(funcs, api, kwargs).error)
  {
    var names := FuncNames(funcs);
    var wsFuncs := WsFuncs(names, api);
    WsFuncsDefined(names, api);
    WsFuncsElements(names, api);
    WsFuncsFirstMissing(names, api);
    if wsFuncs.Err? {
      return Err(wsFuncs.error);
    }
    var frontKwargs := HandleCrudifiedParams(funcs, api, kwargs);
    if frontKwargs.Err? {
      return Err(frontKwargs.error);
    }
    return Ok(FrontApp(wsFuncs.value, frontKwargs.value));
  }
}
