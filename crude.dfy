/** CRUDE wrapping (extrude/crude.py): a function's "crude" parameters take
    a string key instead of an object, the key is looked up in a store at
    call time, and the function's output may be written back into the
    store mapping. */
module Crude {
  import opened Results
  import opened Strings
  import opened Dicts
  import opened Signatures

  /** The Python values that flow through a wrapped call. */
  datatype Value =
    | NoneV
    | IntV(i: int)
    | StrV(s: string)
    | ListV(items: seq<Value>)
    | DictV(m: map<string, Value>)

  datatype Error = KeyError(key: Value) | TypeError(reason: string) | IndexError

  // ---------------------------------------------------------------------
  // auto_key

  /** The `k=v` pieces of the keyword arguments, in insertion order. */
  function KwargPieces(kwargs: Dict<string>): seq<string>
  {
    seq(|kwargs|, i requires 0 <= i < |kwargs| => kwargs[i].0 + "=" + kwargs[i].1)
  }

  /** `filter(None, xs)` on strings: the non-empty ones. */
  function NonEmpty(xs: seq<string>): seq<string>
  {
    if xs == [] then [] else (if xs[0] == "" then [] else [xs[0]]) + NonEmpty(xs[1..])
  }

  function ArgsStr(args: seq<string>): string
  {
    Join(",", args)
  }

  function KwargsStr(kwargs: Dict<string>): string
  {
    Join(",", KwargPieces(kwargs))
  }

  /** `auto_key(*args, **kwargs)`, each positional argument and each keyword
      value given by its `str`. An empty half is dropped; two non-empty halves
      are separated by a comma. */
  function AutoKey(args: seq<string>, kwargs: Dict<string>): (key: string)
    ensures ArgsStr(args) == "" ==> key == KwargsStr(kwargs)
    ensures KwargsStr(kwargs) == "" ==> key == ArgsStr(args)
    ensures ArgsStr(args) != "" && KwargsStr(kwargs) != "" ==>
              key == ArgsStr(args) + "," + KwargsStr(kwargs)
  {
    var a, k := ArgsStr(args), KwargsStr(kwargs);
    assert [a, k][1..] == [k];
    assert NonEmpty([k]) == (if k == "" then [] else [k]);
    assert Join(",", [a, k]) == a + "," + k by { assert [a, k][1..] == [k]; }
    Join(",", NonEmpty([a, k]))
  }

  /** The doctests of `auto_key`. */
  lemma AutoKeyExamples()
    ensures AutoKey(["1", "2"], [("c", "3"), ("d", "4")]) == "1,2,c=3,d=4"
    ensures AutoKey(["1", "2"], []) == "1,2"
    ensures AutoKey([], [("c", "3"), ("d", "4")]) == "c=3,d=4"
    ensures AutoKey([], []) == ""
  {
    var ps := KwargPieces([("c", "3"), ("d", "4")]);
    assert ps[0] == "c=3" && ps[1] == "d=4";
    assert ps == ["c=3", "d=4"];
  }

  /** The key is empty exactly when there are no keyword arguments and the
      positional ones print as nothing (none at all, or one empty string). */
  lemma AutoKeyEmpty(args: seq<string>, kwargs: Dict<string>)
    ensures AutoKey(args, kwargs) == "" <==> (args == [] || args == [""]) && kwargs == []
  {
    JoinEmpty(",", args);
    JoinEmpty(",", KwargPieces(kwargs));
    if kwargs != [] {
      assert KwargPieces(kwargs)[0] != "" by {
        assert KwargPieces(kwargs)[0] == kwargs[0].0 + "=" + kwargs[0].1;
      }
      assert KwargPieces(kwargs) != [""];
    }
  }

  /** Order is kept and nothing is sorted: when no argument prints empty or
      with a comma, splitting the key at its commas gives back the positional
      arguments, then the `k=v` pieces, exactly in the order given. */
  lemma AutoKeyPieces(args: seq<string>, kwargs: Dict<string>)
    requires |args| + |kwargs| > 0
    requires forall i :: 0 <= i < |args| ==> args[i] != "" && ',' !in args[i]
    requires forall i :: 0 <= i < |kwargs| ==> ',' !in kwargs[i].0 && ',' !in kwargs[i].1
    ensures Split(AutoKey(args, kwargs), ',') == args + KwargPieces(kwargs)
  {
    var ps := KwargPieces(kwargs);
    forall i | 0 <= i < |ps| ensures ',' !in ps[i] {
      assert ps[i] == kwargs[i].0 + "=" + kwargs[i].1;
    }
    JoinEmpty(",", args);
    JoinEmpty(",", ps);
    if args == [] {
      SplitJoin(ps, ',');
    } else if kwargs == [] {
      SplitJoin(args, ',');
    } else {
      assert ps[0] == kwargs[0].0 + "=" + kwargs[0].1;
      SplitJoin(args + ps, ',');
      JoinConcat(args, ps);
    }
  }

  /** `",".join(a + b)` is the two joins separated by a comma. */
  lemma {:induction false} JoinConcat(a: seq<string>, b: seq<string>)
    requires a != [] && b != []
    ensures Join(",", a + b) == Join(",", a) + "," + Join(",", b)
  {
    if |a| > 1 {
      assert (a + b)[1..] == a[1..] + b;
      JoinConcat(a[1..], b);
    } else {
      assert (a + b)[1..] == b;
    }
  }

  // ---------------------------------------------------------------------
  // Wrap time: crude parameters and the outer signature

  /** `[x for x in sig.names if x in store_for_param]` */
  function CrudeParams(sig: seq<Param>, storeKeys: set<string>): (crude: seq<string>)
    ensures forall x :: x in crude <==> x in Names(sig) && x in storeKeys
    ensures IsSubsequence(crude, Names(sig))
  {
    if sig == [] then []
    else
      var rest := CrudeParams(sig[1..], storeKeys);
      assert Names(sig) == [sig[0].name] + Names(sig[1..]);
      SubsequencePrepend(rest, Names(sig[1..]), sig[0].name);
      if sig[0].name in storeKeys then [sig[0].name] + rest else rest
  }

  const StrAnnotation := TypeName("str")

  /** The keyword-only `save_name` parameter (default `""`, type `str`). */
  function SaveNameParam(name: string): Param
  {
    Param(name, KeywordOnly, Some("''"), StrAnnotation)
  }

  /** `sig.ch_annotations(**{name: str for name in crude}) + [save_name_param]` */
  function OuterSig(sig: seq<Param>, crude: seq<string>, saveName: string): (outer: seq<Param>)
    ensures Names(outer) == Names(sig) + [saveName]
    ensures forall i :: 0 <= i < |sig| ==>
              outer[i].kind == sig[i].kind && outer[i].default == sig[i].default
              && outer[i].annotation == (if sig[i].name in crude then StrAnnotation else sig[i].annotation)
    ensures outer[|sig|] == SaveNameParam(saveName)
  {
    var changed := seq(|sig|, i requires 0 <= i < |sig| =>
      if sig[i].name in crude then sig[i].(annotation := StrAnnotation) else sig[i]);
    assert Names(changed + [SaveNameParam(saveName)]) == Names(sig) + [saveName];
    changed + [SaveNameParam(saveName)]
  }

  datatype Ingress = Ingress(crudeParams: seq<string>, outerSig: seq<Param>)

  /** What `prepare_for_crude_dispatch` hands to `wrap`: the inner signature,
      the ingress (absent when there is no store) and the egress target
      (absent when the output store name is falsy). */
  datatype Wrapped = Wrapped(innerSig: seq<Param>, ingress: Option<Ingress>, egress: Option<string>)

  /** Python truthiness of an optional string. */
  predicate Truthy(s: Option<string>)
  {
    s.Some? && s.value != ""
  }

  /** `prepare_for_crude_dispatch(func, store_for_param, output_store_name,
      save_name_param)`, for a function with signature `sig` and a store
      whose keys at wrap time are `storeKeys` (`None` for no store). */
  function PrepareForCrudeDispatch(sig: seq<Param>, storeKeys: Option<set<string>>,
                                   outputStoreName: Option<string>, saveNameParam: string): (w: Wrapped)
    ensures w.innerSig == sig
    ensures w.ingress.Some? <==> storeKeys.Some?
    ensures w.egress.Some? <==> Truthy(outputStoreName)
    ensures w.egress.Some? ==> w.egress.value == outputStoreName.value
  {
    var ingress :=
      match storeKeys
      case None => None
      case Some(keys) =>
        var crude := CrudeParams(sig, keys);
        Some(Ingress(crude, OuterSig(sig, crude, saveNameParam)));
    var egress := if Truthy(outputStoreName) then Some(outputStoreName.value) else None;
    Wrapped(sig, ingress, egress)
  }

  /** The signature callers of the wrapped function see. */
  function VisibleSig(w: Wrapped): seq<Param>
  {
    match w.ingress
    case Some(ing) => ing.outerSig
    case None => w.innerSig
  }

  /** The outer signature has the inner one's parameters, crude ones typed
      `str`, and `save_name` appended; without a store it is the inner one. */
  lemma VisibleSigShape(sig: seq<Param>, storeKeys: Option<set<string>>,
                        outputStoreName: Option<string>, saveName: string)
    ensures var v := VisibleSig(PrepareForCrudeDispatch(sig, storeKeys, outputStoreName, saveName));
      if storeKeys.None? then v == sig
      else
        && Names(v) == Names(sig) + [saveName]
        && v[|sig|] == SaveNameParam(saveName)
        && forall i :: 0 <= i < |sig| ==>
             v[i].annotation == (if sig[i].name in storeKeys.value then StrAnnotation else sig[i].annotation)
  {
  }

  // ---------------------------------------------------------------------
  // Call time: ingress

  /** Python's `container[key]` on the values of the model. */
  function Subscript(container: Value, key: Value): Result<Value, Error>
  {
    match container
    case DictV(m) =>
      if key.ListV? || key.DictV? then Err(TypeError("unhashable type"))
      else if key.StrV? && key.s in m then Ok(m[key.s])
      else Err(KeyError(key))
    case ListV(xs) =>
      if !key.IntV? then Err(TypeError("list indices must be integers"))
      else if -|xs| <= key.i < |xs| then Ok(xs[if key.i < 0 then key.i + |xs| else key.i])
      else Err(IndexError)
    case StrV(s) =>
      if !key.IntV? then Err(TypeError("string indices must be integers"))
      else if -|s| <= key.i < |s| then Ok(StrV([s[if key.i < 0 then key.i + |s| else key.i]]))
      else Err(IndexError)
    case _ => Err(TypeError("object is not subscriptable"))
  }

  /** One step of `kwargs_trans`: `store_for_param[p][outer_kw[p]]`. */
  function Resolve(p: string, stores: map<string, Value>, outerKw: map<string, Value>): Result<Value, Error>
  {
    if p !in outerKw then Err(KeyError(StrV(p)))
    else if p !in stores then Err(KeyError(StrV(p)))
    else Subscript(stores[p], outerKw[p])
  }

  /** `kwargs_trans(outer_kw)`: a dict binding each crude parameter to the
      object its key names; the first lookup that fails raises. */
  function KwargsTrans(crude: seq<string>, stores: map<string, Value>, outerKw: map<string, Value>)
    : (r: Result<map<string, Value>, Error>)
    ensures r.Ok? <==> forall i :: 0 <= i < |crude| ==> Resolve(crude[i], stores, outerKw).Ok?
    ensures r.Ok? ==> r.value.Keys == set p | p in crude
    ensures r.Ok? ==> forall p :: p in crude ==> r.value[p] == Resolve(p, stores, outerKw).value
    ensures r.Err? ==> exists i :: 0 <= i < |crude| && Resolve(crude[i], stores, outerKw) == Err(r.error)
                                   && forall j :: 0 <= j < i ==> Resolve(crude[j], stores, outerKw).Ok?
  {
    if crude == [] then Ok(map[])
    else
      match Resolve(crude[0], stores, outerKw)
      case Err(e) => Err(e)
      case Ok(v) =>
        match KwargsTrans(crude[1..], stores, outerKw)
        case Err(e) =>
          assert forall j :: 1 <= j < |crude| ==> crude[j] == crude[1..][j - 1];
          Err(e)
        case Ok(m) =>
          assert forall i :: 1 <= i < |crude| ==> crude[i] == crude[1..][i - 1];
          Ok(m[crude[0] := v])
  }

  /** What the inner function is called with: the outer arguments with each
      crude parameter's key replaced by the object it names, restricted to
      the inner signature's names. Without a store nothing is translated. */
  function InnerKwargs(w: Wrapped, stores: Option<map<string, Value>>, outerKw: map<string, Value>)
    : Result<map<string, Value>, Error>
  {
    match w.ingress
    case None => Ok(outerKw)
    case Some(ing) =>
      if stores.None? then Err(TypeError("'NoneType' object is not subscriptable"))
      else
        match KwargsTrans(ing.crudeParams, stores.value, outerKw)
        case Err(e) => Err(e)
        case Ok(t) =>
          var merged := outerKw + t;
          Ok(map k | k in merged && k in Names(w.innerSig) :: merged[k])
  }

  /** The ingress `prepare_for_crude_dispatch` builds when there is a store. */
  lemma PreparedIngress(sig: seq<Param>, keys: set<string>, o: Option<string>, saveName: string)
    ensures PrepareForCrudeDispatch(sig, Some(keys), o, saveName).ingress
            == Some(Ingress(CrudeParams(sig, keys), OuterSig(sig, CrudeParams(sig, keys), saveName)))
  {
  }

  /** A present key hands the inner function the stored object for each
      crude parameter, and every other parameter of the inner signature
      exactly as given. */
  lemma IngressSubstitutes(w: Wrapped, stores: map<string, Value>, outerKw: map<string, Value>)
    requires w.ingress.Some?
    requires InnerKwargs(w, Some(stores), outerKw).Ok?
    ensures var kw := InnerKwargs(w, Some(stores), outerKw).value;
      && (forall k :: k in kw ==> k in Names(w.innerSig))
      && (forall p :: p in Names(w.innerSig) && p in w.ingress.value.crudeParams ==>
            p in kw && p in outerKw && p in stores && Subscript(stores[p], outerKw[p]) == Ok(kw[p]))
      && (forall q :: q in Names(w.innerSig) && q !in w.ingress.value.crudeParams ==>
            (q in kw <==> q in outerKw) && (q in kw ==> kw[q] == outerKw[q]))
  {
    var crude := w.ingress.value.crudeParams;
    var t := KwargsTrans(crude, stores, outerKw);
    assert t.Ok?;
    var merged := outerKw + t.value;
    var kw := map k | k in merged && k in Names(w.innerSig) :: merged[k];
    assert InnerKwargs(w, Some(stores), outerKw).value == kw;
    forall p | p in Names(w.innerSig) && p in crude
      ensures p in kw && p in outerKw && p in stores && Subscript(stores[p], outerKw[p]) == Ok(kw[p])
    {
      var i :| 0 <= i < |crude| && crude[i] == p;
      assert Resolve(crude[i], stores, outerKw).Ok?;
      assert t.value[p] == Resolve(p, stores, outerKw).value;
    }
    forall q | q in Names(w.innerSig) && q !in crude
      ensures (q in kw <==> q in outerKw) && (q in kw ==> kw[q] == outerKw[q])
    {
      assert q !in t.value.Keys;
    }
  }

  /** A key that is not in its store makes the call fail; when the
      parameter is the first crude one that fails to resolve, the error is
      `KeyError(key)`. */
  lemma MissingKeyRaises(w: Wrapped, stores: map<string, Value>, outerKw: map<string, Value>, i: int, k: string)
    requires w.ingress.Some? && 0 <= i < |w.ingress.value.crudeParams|
    requires var p := w.ingress.value.crudeParams[i];
      p in stores && stores[p].DictV? && k !in stores[p].m && p in outerKw && outerKw[p] == StrV(k)
    ensures InnerKwargs(w, Some(stores), outerKw).Err?
    ensures (forall j :: 0 <= j < i ==> Resolve(w.ingress.value.crudeParams[j], stores, outerKw).Ok?) ==>
              InnerKwargs(w, Some(stores), outerKw) == Err(KeyError(StrV(k)))
  {
    var crude := w.ingress.value.crudeParams;
    assert Resolve(crude[i], stores, outerKw) == Err(KeyError(StrV(k)));
  }

  // ---------------------------------------------------------------------
  // Call time: egress

  /** `list(x)` succeeds on these values. */
  predicate Iterable(v: Value)
  {
    v.StrV? || v.ListV? || v.DictV?
  }

  datatype CallOutcome = CallOutcome(stores: Option<map<string, Value>>, result: Result<Value, Error>)

  /** The store after `egress(func_output)` and what it returns. The two
      debug prints evaluate `list(store_for_param[o])` before the write and
      `list(func_output)` after it, and either may raise. */
  function EgressEffect(stores: Option<map<string, Value>>, o: string, out: Value): (r: CallOutcome)
    ensures r.result.Ok? ==> r.result.value == out
    ensures r.stores.Some? <==> stores.Some?
    ensures r.stores != stores ==> stores.Some? && r.stores == Some(stores.value[o := out])
    ensures r.result.Ok? ==> stores.Some? && r.stores == Some(stores.value[o := out])
    ensures r.stores.Some? && stores.Some? ==> forall k :: k != o ==>
              (k in r.stores.value <==> k in stores.value)
              && (k in stores.value ==> r.stores.value[k] == stores.value[k])
    ensures r.result.Err? && r.stores != stores ==> !Iterable(out)
    ensures stores.None? ==> r == CallOutcome(None, Err(TypeError("'NoneType' object is not subscriptable")))
    ensures stores.Some? && o !in stores.value ==> r == CallOutcome(stores, Err(KeyError(StrV(o))))
    ensures stores.Some? && o in stores.value && !Iterable(stores.value[o]) ==>
              r.stores == stores && r.result.Err? && r.result.error.TypeError?
    ensures stores.Some? && o in stores.value && Iterable(stores.value[o]) && !Iterable(out) ==>
              r.stores == Some(stores.value[o := out]) && r.result.Err? && r.result.error.TypeError?
    ensures stores.Some? && o in stores.value && Iterable(stores.value[o]) && Iterable(out) ==>
              r == CallOutcome(Some(stores.value[o := out]), Ok(out))
  {
    match stores
    case None => CallOutcome(None, Err(TypeError("'NoneType' object is not subscriptable")))
    case Some(m) =>
      if o !in m then CallOutcome(stores, Err(KeyError(StrV(o))))
      else if !Iterable(m[o]) then CallOutcome(stores, Err(TypeError("object is not iterable")))
      else if !Iterable(out) then CallOutcome(Some(m[o := out]), Err(TypeError("object is not iterable")))
      else CallOutcome(Some(m[o := out]), Ok(out))
  }

  /** A whole call of the wrapped function `func`. */
  function CallEffect(w: Wrapped, stores: Option<map<string, Value>>,
                      func: map<string, Value> -> Value, outerKw: map<string, Value>): CallOutcome
  {
    match InnerKwargs(w, stores, outerKw)
    case Err(e) => CallOutcome(stores, Err(e))
    case Ok(kw) =>
      match w.egress
      case None => CallOutcome(stores, Ok(func(kw)))
      case Some(o) => EgressEffect(stores, o, func(kw))
  }

  /** When the egress can write; see `EgressEffect`. */
  predicate EgressSucceeds(stores: Option<map<string, Value>>, o: string, out: Value)
  {
    stores.Some? && o in stores.value && Iterable(stores.value[o]) && Iterable(out)
  }

  /** A failing translation fails the call before anything is written.
      Without an egress the call returns the inner function's output and the
      store is never changed; with one, the call succeeds exactly when the
      egress can write, and a successful call returns the inner function's
      output and has replaced the whole entry of the output store name by
      it. */
  lemma CallStoreEffect(w: Wrapped, stores: Option<map<string, Value>>,
                        func: map<string, Value> -> Value, outerKw: map<string, Value>)
    ensures w.egress.None? ==> CallEffect(w, stores, func, outerKw).stores == stores
    ensures var kw := InnerKwargs(w, stores, outerKw);
      kw.Err? ==> CallEffect(w, stores, func, outerKw) == CallOutcome(stores, Err(kw.error))
    ensures var kw := InnerKwargs(w, stores, outerKw);
      kw.Ok? && w.egress.None? ==> CallEffect(w, stores, func, outerKw) == CallOutcome(stores, Ok(func(kw.value)))
    ensures var kw := InnerKwargs(w, stores, outerKw);
      CallEffect(w, stores, func, outerKw).result.Ok? <==>
        kw.Ok? && (w.egress.None? || EgressSucceeds(stores, w.egress.value, func(kw.value)))
    ensures var r := CallEffect(w, stores, func, outerKw);
      r.result.Ok? && w.egress.Some? ==>
        && InnerKwargs(w, stores, outerKw).Ok?
        && r.result.value == func(InnerKwargs(w, stores, outerKw).value)
        && r.stores == Some(stores.value[w.egress.value := r.result.value])
  {
  }

  /** The appended `save_name` parameter is never read: two calls whose
      arguments differ only in it behave identically. */
  lemma SaveNameNeverRead(sig: seq<Param>, keys: set<string>, o: Option<string>, saveName: string,
                          stores: Option<map<string, Value>>, func: map<string, Value> -> Value,
                          kw1: map<string, Value>, kw2: map<string, Value>)
    requires saveName !in Names(sig)
    requires forall k :: k != saveName ==> (k in kw1 <==> k in kw2) && (k in kw1 ==> kw1[k] == kw2[k])
    ensures var w := PrepareForCrudeDispatch(sig, Some(keys), o, saveName);
      CallEffect(w, stores, func, kw1) == CallEffect(w, stores, func, kw2)
  {
    var w := PrepareForCrudeDispatch(sig, Some(keys), o, saveName);
    PreparedIngress(sig, keys, o, saveName);
    UnreadArgument(w, saveName, stores, func, kw1, kw2);
  }

  /** An argument that is neither a crude parameter nor in the inner
      signature does not influence a call. */
  lemma UnreadArgument(w: Wrapped, name: string, stores: Option<map<string, Value>>,
                       func: map<string, Value> -> Value, kw1: map<string, Value>, kw2: map<string, Value>)
    requires w.ingress.Some? && name !in Names(w.innerSig) && name !in w.ingress.value.crudeParams
    requires forall k :: k != name ==> (k in kw1 <==> k in kw2) && (k in kw1 ==> kw1[k] == kw2[k])
    ensures CallEffect(w, stores, func, kw1) == CallEffect(w, stores, func, kw2)
  {
    UnreadArgumentIngress(w, name, stores, kw1, kw2);
  }

  lemma UnreadArgumentIngress(w: Wrapped, name: string, stores: Option<map<string, Value>>,
                              kw1: map<string, Value>, kw2: map<string, Value>)
    requires w.ingress.Some? && name !in Names(w.innerSig) && name !in w.ingress.value.crudeParams
    requires forall k :: k != name ==> (k in kw1 <==> k in kw2) && (k in kw1 ==> kw1[k] == kw2[k])
    ensures InnerKwargs(w, stores, kw1) == InnerKwargs(w, stores, kw2)
  {
    if stores.Some? {
      var crude := w.ingress.value.crudeParams;
      forall i | 0 <= i < |crude|
        ensures Resolve(crude[i], stores.value, kw1) == Resolve(crude[i], stores.value, kw2)
      {
        assert crude[i] != name;
      }
      KwargsTransDependsOnCrudeOnly(crude, stores.value, kw1, kw2);
      var t1 := KwargsTrans(crude, stores.value, kw1);
      if t1.Ok? {
        RestrictedOverlay(kw1, kw2, t1.value, Names(w.innerSig), name);
      }
    }
  }

  /** Overlaying the same translations on two argument maps that differ
      only in `name`, and keeping only names other than `name`, gives the
      same map. */
  lemma RestrictedOverlay(kw1: map<string, Value>, kw2: map<string, Value>, t: map<string, Value>,
                          names: seq<string>, name: string)
    requires name !in names
    requires forall k :: k != name ==> (k in kw1 <==> k in kw2) && (k in kw1 ==> kw1[k] == kw2[k])
    ensures (map k | k in kw1 + t && k in names :: (kw1 + t)[k]) == (map k | k in kw2 + t && k in names :: (kw2 + t)[k])
  {
    var m1, m2 := kw1 + t, kw2 + t;
    var r1 := map k | k in m1 && k in names :: m1[k];
    var r2 := map k | k in m2 && k in names :: m2[k];
    assert forall k :: k in r1 <==> k in r2;
    assert forall k :: k in r1 ==> r1[k] == r2[k];
  }

  /** `kwargs_trans` reads only the crude parameters' keys. */
  lemma {:induction false} KwargsTransDependsOnCrudeOnly(crude: seq<string>, stores: map<string, Value>,
                                                          kw1: map<string, Value>, kw2: map<string, Value>)
    requires forall i :: 0 <= i < |crude| ==> Resolve(crude[i], stores, kw1) == Resolve(crude[i], stores, kw2)
    ensures KwargsTrans(crude, stores, kw1) == KwargsTrans(crude, stores, kw2)
  {
    if crude != [] {
      assert forall i :: 1 <= i < |crude| ==> crude[1..][i - 1] == crude[i];
      KwargsTransDependsOnCrudeOnly(crude[1..], stores, kw1, kw2);
    }
  }

  /** As written, a call with a non-empty `save_name` does not file the
      output under that name: the output store's whole entry becomes the
      output itself. */
  lemma SaveNameIgnoredAsWritten()
    ensures var sig := [Param("x", PositionalOrKeyword, None, NoAnnotation)];
      var w := PrepareForCrudeDispatch(sig, Some({"x", "results"}), Some("results"), "save_name");
      var stores := map["x" := DictV(map["k" := IntV(1)]), "results" := DictV(map[])];
      var r := CallEffect(w, Some(stores), (kw: map<string, Value>) => ListV([]),
                          map["x" := StrV("k"), "save_name" := StrV("s")]);
      r.result == Ok(ListV([]))
      && r.stores == Some(stores["results" := ListV([])])
      && !r.stores.value["results"].DictV?
  {
    var sig := [Param("x", PositionalOrKeyword, None, NoAnnotation)];
    assert Names(sig) == ["x"];
    assert CrudeParams(sig, {"x", "results"}) == ["x"];
  }

  /** The output saving the design describes: with a non-empty save name the
      output is filed under it in the output store, and a crude lookup of
      that name then yields it; with an empty save name nothing changes. */
  function SaveOutput(stores: map<string, Value>, o: string, saveName: string, out: Value): (r: CallOutcome)
    ensures saveName == "" ==> r == CallOutcome(Some(stores), Ok(out))
    ensures saveName != "" && o in stores && stores[o].DictV? ==>
              && r.result == Ok(out)
              && r.stores == Some(stores[o := DictV(stores[o].m[saveName := out])])
              && Subscript(r.stores.value[o], StrV(saveName)) == Ok(out)
    ensures saveName != "" && (o !in stores || !stores[o].DictV?) ==> r.result.Err? && r.stores == Some(stores)
  {
    if saveName == "" then CallOutcome(Some(stores), Ok(out))
    else if o !in stores then CallOutcome(Some(stores), Err(KeyError(StrV(o))))
    else match stores[o]
      case DictV(m) => CallOutcome(Some(stores[o := DictV(m[saveName := out])]), Ok(out))
      case _ => CallOutcome(Some(stores), Err(TypeError("object does not support item assignment")))
  }

  /** A whole call of the wrapped function with the corrected egress, where
      `saveName` is the value of the call's `save_name` argument. */
  function CallSaving(w: Wrapped, stores: Option<map<string, Value>>, func: map<string, Value> -> Value,
                      outerKw: map<string, Value>, saveName: string): CallOutcome
  {
    match InnerKwargs(w, stores, outerKw)
    case Err(e) => CallOutcome(stores, Err(e))
    case Ok(kw) =>
      match w.egress
      case None => CallOutcome(stores, Ok(func(kw)))
      case Some(o) =>
        match stores
        case None => CallOutcome(None, Err(TypeError("'NoneType' object is not subscriptable")))
        case Some(m) => SaveOutput(m, o, saveName, func(kw))
  }

  /** The design's round trip: a successful call with a non-empty save name
      files the output in the output store under that name, leaves every
      other store alone, and a later crude parameter named after the output
      store, given the save name as its key, receives that output. */
  lemma CallSavingRoundTrip(w: Wrapped, stores: map<string, Value>, func: map<string, Value> -> Value,
                            outerKw: map<string, Value>, saveName: string)
    requires w.egress.Some? && saveName != ""
    requires InnerKwargs(w, Some(stores), outerKw).Ok?
    requires w.egress.value in stores && stores[w.egress.value].DictV?
    ensures var o, r := w.egress.value, CallSaving(w, Some(stores), func, outerKw, saveName);
      && r.result == Ok(func(InnerKwargs(w, Some(stores), outerKw).value))
      && r.stores.Some? && r.stores.value.Keys == stores.Keys
      && (forall p :: p in stores && p != o ==> r.stores.value[p] == stores[p])
      && Resolve(o, r.stores.value, map[o := StrV(saveName)]) == r.result
  {
  }

  /** Without a save name the corrected call changes no store. */
  lemma CallSavingNoSaveName(w: Wrapped, stores: Option<map<string, Value>>, func: map<string, Value> -> Value,
                             outerKw: map<string, Value>)
    ensures CallSaving(w, stores, func, outerKw, "").stores == stores
    ensures CallSaving(w, stores, func, outerKw, "").result.Ok? <==>
              InnerKwargs(w, stores, outerKw).Ok? && (w.egress.None? || stores.Some?)
  {
  }

  // ---------------------------------------------------------------------
  // The store mapping, updated in place

  /** `store_for_param`: the mapping from each crude parameter to its store. */
  class StoreForParam {
    var stores: map<string, Value>

    constructor (initial: map<string, Value>)
      ensures stores == initial
    {
      stores := initial;
    }
  }

  function StoresOf(mall: StoreForParam?): Option<map<string, Value>>
    reads mall
  {
    if mall == null then None else Some(mall.stores)
  }

  /** The `egress` closure over `store_for_param` (`null` for `None`). */
  method Egress(mall: StoreForParam?, outputStoreName: string, funcOutput: Value) returns (r: Result<Value, Error>)
    modifies mall
    ensures CallOutcome(StoresOf(mall), r) == EgressEffect(old(StoresOf(mall)), outputStoreName, funcOutput)
  {
    if mall == null {
      return Err(TypeError("'NoneType' object is not subscriptable"));
    }
    if outputStoreName !in mall.stores {
      return Err(KeyError(StrV(outputStoreName)));
    }
    if !Iterable(mall.stores[outputStoreName]) {
      return Err(TypeError("object is not iterable"));
    }
    mall.stores := mall.stores[outputStoreName := funcOutput];
    if !Iterable(funcOutput) {
      return Err(TypeError("object is not iterable"));
    }
    return Ok(funcOutput);
  }

  /** A call of the wrapped function: ingress, the inner function, egress. */
  method CallWrapped(w: Wrapped, mall: StoreForParam?, func: map<string, Value> -> Value,
                     outerKw: map<string, Value>) returns (r: Result<Value, Error>)
    modifies mall
    ensures CallOutcome(StoresOf(mall), r) == CallEffect(w, old(StoresOf(mall)), func, outerKw)
  {
    var inner := InnerKwargs(w, StoresOf(mall), outerKw);
    if inner.Err? {
      return Err(inner.error);
    }
    var out := func(inner.value);
    if w.egress.None? {
      return Ok(out);
    }
    r := Egress(mall, w.egress.value, out);
  }
}
