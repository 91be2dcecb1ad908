/**
 * `pytest_data/functions.py`: the newer `get_data`. The layers are
 * `request.module` (required), then `request.cls` and `request.function`
 * when the request has them, then the request's own `param`; the default
 * sits below all of them. The layers are merged last-wins, so `param`,
 * merged last, overrides the function, class and module data.
 */
module Functions {
  import opened Values
  import opened Helpers
  import opened Cycling
  import opened Layering

  /** The `targets` list: the module, then the class and the function when
      reading them does not raise `AttributeError`. */
  function Targets(request: Request, attribute: string): (targets: seq<Source>)
    requires request.moduleObj.Some?
    ensures 1 <= |targets| <= 3 && targets[0] == Source(Module, request.moduleObj.value, attribute)
  {
    [Source(Module, request.moduleObj.value, attribute)]
    + (if request.classObj.Some? then [Source(Cls, request.classObj.value, attribute)] else [])
    + (if request.functionObj.Some? then [Source(Function, request.functionObj.value, attribute)] else [])
  }

  /** The parametrized value of the fixture, read as `request.param`. */
  function ParamSource(request: Request): Source {
    Source(Param, request.attrs, "param")
  }

  /** Every layer above the default, lowest priority first. */
  function Sources(request: Request, attribute: string): (sources: seq<Source>)
    requires request.moduleObj.Some?
    ensures |sources| == |Targets(request, attribute)| + 1
    ensures sources[|sources| - 1] == ParamSource(request)
  {
    Targets(request, attribute) + [ParamSource(request)]
  }

  /** What `get_data(request, attribute_name, default_data)` returns or
      raises: reading `request.module` raises first, and otherwise the
      layers resolve over the default. */
  function Outcome(request: Request, attribute: string, default: Value): (r: Result<Value>)
    ensures r == Err(MissingTarget(Module)) <==> request.moduleObj.None?
    ensures r.Err? ==> r.error != MissingTarget(Cls) && r.error != MissingTarget(Function)
    ensures r.Ok? ==> r.value.Dict? == default.Dict? && r.value.List? == default.List?
  {
    if request.moduleObj.None? then Err(MissingTarget(Module))
    else Resolve(default, Sources(request, attribute))
  }

  /** `get_data`, step by step: collect the targets, read every layer with
      the getter of the default's shape, then merge (dict default) or align
      and merge row by row (list default). */
  method GetData(request: Request, attribute: string, default: Value) returns (r: Result<Value>)
    ensures r == Outcome(request, attribute, default)
  {
    if request.moduleObj.None? {
      return Err(MissingTarget(Module));
    }
    var targets := [Source(Module, request.moduleObj.value, attribute)];
    if request.classObj.Some? {
      targets := targets + [Source(Cls, request.classObj.value, attribute)];
    }
    if request.functionObj.Some? {
      targets := targets + [Source(Function, request.functionObj.value, attribute)];
    }
    assert targets == Targets(request, attribute);
    var sources := targets + [ParamSource(request)];
    if !default.Dict? && !default.List? {
      return Err(Unsupported);
    }
    var shape := ShapeOf(default);
    GetAllAppend(targets, ParamSource(request), shape);
    var layerValues :- GetAll(targets, shape);
    var param :- Get(ParamSource(request), shape);
    var values := layerValues + [param];
    assert GetAll(sources, shape) == Ok(values);
    if default.Dict? {
      var data := MergeLayers(default.entries, sources, values);
      r := Ok(Dict(data));
    } else {
      var data := AlignLayers(default.items, sources, values);
      r := Ok(List(data));
    }
  }

  /** The dict branch: `_merge(*([default_data] + values))` over the values the
      getters returned. */
  method MergeLayers(d: Mapping, sources: seq<Source>, values: seq<Value>) returns (data: Mapping)
    requires GetAll(sources, DictShape) == Ok(values)
    ensures Resolve(Dict(d), sources) == Ok(Dict(data))
  {
    forall i | 0 <= i < |values| ensures values[i] == Dict(LayerDict(sources[i])) {
      GetValue(sources[i], DictShape);
    }
    var layerDicts := seq(|values|, i requires 0 <= i < |values| => Some(values[i].entries));
    assert layerDicts == Somes(DictLayers(sources));
    var dicts := [Some(d)] + layerDicts;
    data := Merge(dicts);
    ResolveDictMerged(d, sources);
  }

  /** The list branch over the lists the getters returned, the default's first. */
  method AlignLayers(l: Layer, sources: seq<Source>, values: seq<Value>) returns (data: seq<Mapping>)
    requires GetAll(sources, ListShape) == Ok(values)
    ensures Resolve(List(l), sources) == Ok(List(data))
  {
    forall i | 0 <= i < |values| ensures values[i] == List(LayerList(sources[i])) {
      GetValue(sources[i], ListShape);
    }
    var layerLists := seq(|values|, i requires 0 <= i < |values| => values[i].items);
    assert layerLists == ListLayers(sources);
    var lists := [l] + layerLists;
    data := AlignRows(lists);
    ResolveListAligned(l, sources);
  }

  /** `[_merge(*datas) for datas in islice(zip_longest(*map(cycle, lists)), max_len)]`:
      the cycles are advanced one tuple at a time and each tuple is merged. */
  method AlignRows(lists: seq<Layer>) returns (data: seq<Mapping>)
    requires |lists| > 0
    ensures data == Aligned(lists)
  {
    var maxLen := MaxLen(lists);
    var cursors := Zeros(|lists|);
    data := [];
    var k := 0;
    ghost var aligned := Aligned(lists);
    AlignedSpec(lists);
    while k < maxLen
      invariant 0 <= k <= maxLen == |aligned|
      invariant cursors == After(lists, Zeros(|lists|), k)
      invariant data == aligned[..k]
    {
      var datas := Tuple(lists, cursors);
      AlignedAt(lists, k);
      var merged := Merge(datas);
      assert aligned[..k + 1] == aligned[..k] + [merged];
      data := data + [merged];
      assert After(lists, Zeros(|lists|), k + 1) == Advance(lists, cursors);
      cursors := Advance(lists, cursors);
      k := k + 1;
    }
    assert aligned[..k] == aligned;
  }

  /** When `get_data` raises: no module, a default that is neither a dict
      nor a list, or a layer (module, class, function or `param`) of the
      other shape; otherwise the result has the default's shape. */
  lemma OutcomeFails(request: Request, attribute: string, default: Value)
    ensures Outcome(request, attribute, default).Err? <==>
      || request.moduleObj.None?
      || (!default.Dict? && !default.List?)
      || !AllWellTyped(Sources(request, attribute), ShapeOf(default))
    ensures Outcome(request, attribute, default).Ok? ==>
      Outcome(request, attribute, default).value.Dict? == default.Dict?
  {
  }

  /** A missing module raises before the default is examined, and an
      unsupported default raises before any layer is read. */
  lemma OutcomeErrorOrder(request: Request, attribute: string, default: Value)
    ensures request.moduleObj.None? ==> Outcome(request, attribute, default) == Err(MissingTarget(Module))
    ensures request.moduleObj.Some? && !default.Dict? && !default.List? ==>
              Outcome(request, attribute, default) == Err(Unsupported)
  {
  }

  /** An ill-typed `param` raises only when every target is well-typed. */
  lemma ParamErrorLast(request: Request, attribute: string, default: Value)
    requires request.moduleObj.Some? && (default.Dict? || default.List?)
    requires AllWellTyped(Targets(request, attribute), ShapeOf(default))
    requires !WellTyped(ParamSource(request), ShapeOf(default))
    ensures Outcome(request, attribute, default) == Err(WrongType(Param, "param", ShapeOf(default)))
  {
    var sources := Sources(request, attribute);
    var targets := Targets(request, attribute);
    forall i | 0 <= i < |targets| ensures sources[i] == targets[i] { }
    ResolveFirstError(default, sources, |sources| - 1);
  }

  /** A key of the `param` dict always takes the `param` value: `param` is
      merged after the function, class and module data. */
  lemma ParamWins(request: Request, attribute: string, d: Mapping, k: string)
    requires request.moduleObj.Some?
    requires AllWellTyped(Sources(request, attribute), DictShape)
    requires k in LayerDict(ParamSource(request))
    ensures Outcome(request, attribute, Dict(d)).Ok? && Outcome(request, attribute, Dict(d)).value.Dict?
    ensures k in Outcome(request, attribute, Dict(d)).value.entries
    ensures Outcome(request, attribute, Dict(d)).value.entries[k] == LayerDict(ParamSource(request))[k]
  {
    var sources := Sources(request, attribute);
    ResolveDictLast(d, sources, |sources| - 1, k);
  }

  /** A request without a class behaves as a request whose class lacks the
      attribute: skipping the target is the same as reading `{}` or `[]` from it. */
  lemma NoClassIsEmptyClass(request: Request, attribute: string, default: Value, obj: Attrs)
    requires request.moduleObj.Some? && request.classObj.None? && attribute !in obj
    ensures Outcome(request, attribute, default) == Outcome(request.(classObj := Some(obj)), attribute, default)
  {
    var withCls := request.(classObj := Some(obj));
    var a := [Source(Module, request.moduleObj.value, attribute)];
    var s := Source(Cls, obj, attribute);
    var b := (if request.functionObj.Some? then [Source(Function, request.functionObj.value, attribute)] else [])
             + [ParamSource(request)];
    assert Sources(withCls, attribute) == a + [s] + b;
    assert Sources(request, attribute) == a + b;
    ResolveSkipsAbsent(default, a, s, b);
  }

  /** A request without a function behaves as a request whose function
      lacks the attribute. */
  lemma NoFunctionIsEmptyFunction(request: Request, attribute: string, default: Value, obj: Attrs)
    requires request.moduleObj.Some? && request.functionObj.None? && attribute !in obj
    ensures Outcome(request, attribute, default) == Outcome(request.(functionObj := Some(obj)), attribute, default)
  {
    var withFn := request.(functionObj := Some(obj));
    var a := [Source(Module, request.moduleObj.value, attribute)]
             + (if request.classObj.Some? then [Source(Cls, request.classObj.value, attribute)] else []);
    var s := Source(Function, obj, attribute);
    var b := [ParamSource(request)];
    assert Sources(withFn, attribute) == a + [s] + b;
    assert Sources(request, attribute) == a + b;
    ResolveSkipsAbsent(default, a, s, b);
  }

  /** A fixture that is not parametrized has no `param`, and its result is
      the same as that of `__init__.py`'s resolution over the targets alone. */
  lemma NoParamIsTargetsOnly(request: Request, attribute: string, default: Value)
    requires request.moduleObj.Some? && "param" !in request.attrs
    ensures Outcome(request, attribute, default) == Resolve(default, Targets(request, attribute))
  {
    var targets := Targets(request, attribute);
    var empty: seq<Source> := [];
    assert Sources(request, attribute) == targets + [ParamSource(request)] + empty;
    assert targets + empty == targets;
    ResolveSkipsAbsent(default, targets, ParamSource(request), empty);
  }

  /** The list branch: as many dicts as the longest of the default, the
      targets' lists and `param`; dict `i` merges each non-empty list's
      element at `i mod len`, in layer order. */
  lemma OutcomeList(request: Request, attribute: string, l: Layer)
    requires request.moduleObj.Some? && AllWellTyped(Sources(request, attribute), ListShape)
    ensures var lists := [l] + ListLayers(Sources(request, attribute));
      var r := Outcome(request, attribute, List(l));
      && r.Ok? && r.value.List?
      && |r.value.items| == MaxLen(lists)
      && forall i :: 0 <= i < |r.value.items| ==> r.value.items[i] == Merged(Column(lists, i))
  {
    ResolveList(l, Sources(request, attribute));
  }

  /** The dict branch with all targets present: the default updated with the
      module's, the class's, the function's and then the `param` dict. */
  lemma OutcomeDict(request: Request, attribute: string, d: Mapping)
    requires request.moduleObj.Some? && request.classObj.Some? && request.functionObj.Some?
    requires AllWellTyped(Sources(request, attribute), DictShape)
    ensures var sources := Sources(request, attribute);
      Outcome(request, attribute, Dict(d))
      == Ok(Dict(d + LayerDict(sources[0]) + LayerDict(sources[1]) + LayerDict(sources[2]) + LayerDict(sources[3])))
  {
    var sources := Sources(request, attribute);
    assert |sources| == 4;
    DictOfFour(d, sources);
  }

  /** The dict branch over four layers is four successive updates. */
  lemma DictOfFour(d: Mapping, sources: seq<Source>)
    requires |sources| == 4 && AllWellTyped(sources, DictShape)
    ensures Resolve(Dict(d), sources)
            == Ok(Dict(d + LayerDict(sources[0]) + LayerDict(sources[1]) + LayerDict(sources[2]) + LayerDict(sources[3])))
  {
    ResolveDictMerged(d, sources);
    var ds := DictLayers(sources);
    assert ds == [LayerDict(sources[0]), LayerDict(sources[1]), LayerDict(sources[2]), LayerDict(sources[3])];
    assert Somes(ds) == [Some(ds[0]), Some(ds[1]), Some(ds[2]), Some(ds[3])];
    assert DictItems(d, sources) == [Some(d)] + [Some(ds[0]), Some(ds[1]), Some(ds[2]), Some(ds[3])];
    assert [Some(d)] + [Some(ds[0]), Some(ds[1]), Some(ds[2]), Some(ds[3])]
           == [Some(d), Some(ds[0]), Some(ds[1]), Some(ds[2]), Some(ds[3])];
    MergedUpdate5(d, LayerDict(sources[0]), LayerDict(sources[1]), LayerDict(sources[2]), LayerDict(sources[3]));
  }

  /** Every list empty, the default's and `param`'s included: the result is `[]`. */
  lemma OutcomeAllEmpty(request: Request, attribute: string)
    requires request.moduleObj.Some? && AllWellTyped(Sources(request, attribute), ListShape)
    requires forall i :: 0 <= i < |Sources(request, attribute)| ==> LayerList(Sources(request, attribute)[i]) == []
    ensures Outcome(request, attribute, List([])) == Ok(List([]))
  {
    var lists := [[]] + ListLayers(Sources(request, attribute));
    OutcomeList(request, attribute, []);
    var j :| 0 <= j < |lists| && |lists[j]| == MaxLen(lists);
    if j > 0 {
      assert lists[j] == LayerList(Sources(request, attribute)[j - 1]);
    }
  }
}
