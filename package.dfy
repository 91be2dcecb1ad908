/**
 * `pytest_data/__init__.py`, the copy of the package the tests import: the
 * layers are always `request.module`, `request.cls` and `request.function`,
 * above `default_data`, and there is no `param` layer.
 */
module Package {
  import opened Values
  import opened Helpers
  import opened Cycling
  import opened Layering

  /** `get_data(request, attribute_name, default_data)`. Building `TARGETS`
      reads all three properties of the request first, so a missing one
      raises before the default is looked at, and nothing else raises
      `AttributeError`. */
  function GetData(request: Request, attribute: string, default: Value): (r: Result<Value>)
    ensures request.moduleObj.None? ==> r == Err(MissingTarget(Module))
    ensures request.moduleObj.Some? && request.classObj.None? ==> r == Err(MissingTarget(Cls))
    ensures request.moduleObj.Some? && request.classObj.Some? && request.functionObj.None? ==>
              r == Err(MissingTarget(Function))
    ensures r.Err? && r.error.MissingTarget? <==> !HasTargets(request)
    ensures r.Ok? ==> r.value.Dict? == default.Dict? && r.value.List? == default.List?
  {
    if request.moduleObj.None? then Err(MissingTarget(Module))
    else if request.classObj.None? then Err(MissingTarget(Cls))
    else if request.functionObj.None? then Err(MissingTarget(Function))
    else Resolve(default, Layers(request, attribute))
  }

  /** All three targets can be read. */
  predicate HasTargets(request: Request) {
    request.moduleObj.Some? && request.classObj.Some? && request.functionObj.Some?
  }

  /** `TARGETS` of a request whose targets can be read, each read with
      `attribute_name`: the layers `get_data` resolves. */
  function Layers(request: Request, attribute: string): seq<Source>
    requires HasTargets(request)
  {
    [Source(Module, request.moduleObj.value, attribute), Source(Cls, request.classObj.value, attribute),
     Source(Function, request.functionObj.value, attribute)]
  }

  /** The attribute of every target has the given shape or is absent. */
  predicate Conforms(request: Request, attribute: string, shape: Shape)
    requires HasTargets(request)
  {
    AllWellTyped(Layers(request, attribute), shape)
  }

  /** When `get_data` raises: a target that cannot be read, a default that
      is neither a dict nor a list, or a target whose attribute has the
      other shape; in every other case it returns a value of the default's
      shape. */
  lemma GetDataFails(request: Request, attribute: string, default: Value)
    ensures GetData(request, attribute, default).Err? <==>
      || !HasTargets(request)
      || (!default.Dict? && !default.List?)
      || !Conforms(request, attribute, ShapeOf(default))
    ensures GetData(request, attribute, default).Ok? ==>
      GetData(request, attribute, default).value.Dict? == default.Dict?
  {
  }

  /** The error names the first target, in the order module, class,
      function, whose attribute has the wrong shape. */
  lemma GetDataWrongType(request: Request, attribute: string, default: Value)
    requires HasTargets(request) && (default.Dict? || default.List?)
    ensures var shape, layers := ShapeOf(default), Layers(request, attribute);
      && (!WellTyped(layers[0], shape) ==>
           GetData(request, attribute, default) == Err(WrongType(Module, attribute, shape)))
      && (WellTyped(layers[0], shape) && !WellTyped(layers[1], shape) ==>
           GetData(request, attribute, default) == Err(WrongType(Cls, attribute, shape)))
      && (WellTyped(layers[0], shape) && WellTyped(layers[1], shape) && !WellTyped(layers[2], shape) ==>
           GetData(request, attribute, default) == Err(WrongType(Function, attribute, shape)))
  {
    var shape, layers := ShapeOf(default), Layers(request, attribute);
    if !WellTyped(layers[0], shape) {
      ResolveFirstError(default, layers, 0);
    } else if !WellTyped(layers[1], shape) {
      ResolveFirstError(default, layers, 1);
    } else if !WellTyped(layers[2], shape) {
      ResolveFirstError(default, layers, 2);
    }
  }

  /** A key the function's dict holds takes the function's value, whatever
      the module, the class and the default hold. */
  lemma FunctionWins(request: Request, attribute: string, d: Mapping, k: string)
    requires HasTargets(request) && Conforms(request, attribute, DictShape)
    requires k in LayerDict(Layers(request, attribute)[2])
    ensures GetData(request, attribute, Dict(d)).Ok? && GetData(request, attribute, Dict(d)).value.Dict?
    ensures k in GetData(request, attribute, Dict(d)).value.entries
    ensures GetData(request, attribute, Dict(d)).value.entries[k] == LayerDict(Layers(request, attribute)[2])[k]
  {
    ResolveDictLast(d, Layers(request, attribute), 2, k);
  }

  /** The dict branch is `dict.update` in the order default, module, class,
      function: written with Dafny's right-biased map union, the function
      layer wins every collision. */
  lemma GetDataDict(request: Request, attribute: string, d: Mapping)
    requires HasTargets(request) && Conforms(request, attribute, DictShape)
    ensures var layers := Layers(request, attribute);
      GetData(request, attribute, Dict(d))
      == Ok(Dict(d + LayerDict(layers[0]) + LayerDict(layers[1]) + LayerDict(layers[2])))
  {
    var layers := Layers(request, attribute);
    var m, c, f := LayerDict(layers[0]), LayerDict(layers[1]), LayerDict(layers[2]);
    ResolveDictMerged(d, layers);
    assert DictLayers(layers) == [m, c, f];
    var items := DictItems(d, layers);
    assert items == [Some(d), Some(m), Some(c), Some(f)];
    MergedUpdate4(d, m, c, f);
  }

  /** The list branch: as many dicts as the longest of the four lists, and
      dict `i` merges `default[i mod len]`, then `module[i mod len]`, then
      `cls[i mod len]`, then `function[i mod len]`, skipping empty lists. */
  lemma GetDataList(request: Request, attribute: string, l: Layer)
    requires HasTargets(request) && Conforms(request, attribute, ListShape)
    ensures var layers := Layers(request, attribute);
      var lists := [l, LayerList(layers[0]), LayerList(layers[1]), LayerList(layers[2])];
      var r := GetData(request, attribute, List(l));
      && r.Ok? && r.value.List?
      && |r.value.items| == MaxLen(lists)
      && forall i :: 0 <= i < |r.value.items| ==> r.value.items[i] == Merged(Column(lists, i))
  {
    var layers := Layers(request, attribute);
    ResolveListAligned(l, layers);
    ListLists(l, layers);
    AlignedSpec([l] + ListLayers(layers));
  }

  lemma ListLists(l: Layer, layers: seq<Source>)
    requires |layers| == 3
    ensures [l] + ListLayers(layers) == [l, LayerList(layers[0]), LayerList(layers[1]), LayerList(layers[2])]
  {
  }

  /** Two of three layers lack the attribute: the three resolve as the third. */
  lemma KeepOnly(default: Value, s0: Source, s1: Source, s2: Source, keep: nat)
    requires keep < 3
    requires keep != 0 ==> s0.attribute !in s0.target
    requires keep != 1 ==> s1.attribute !in s1.target
    requires keep != 2 ==> s2.attribute !in s2.target
    ensures Resolve(default, [s0, s1, s2]) == Resolve(default, [[s0, s1, s2][keep]])
  {
    if keep == 2 {
      assert [s0] + [s1, s2] == [s0, s1, s2];
      DropFirst(default, s0, [s1, s2]);
      assert [s1] + [s2] == [s1, s2];
      DropFirst(default, s1, [s2]);
    } else {
      assert [s0, s1] + [s2] == [s0, s1, s2];
      DropLast(default, [s0, s1], s2);
      if keep == 0 {
        assert [s0] + [s1] == [s0, s1];
        DropLast(default, [s0], s1);
      } else {
        assert [s0] + [s1] == [s0, s1];
        DropFirst(default, s0, [s1]);
      }
    }
  }

  lemma DropFirst(default: Value, s: Source, b: seq<Source>)
    requires s.attribute !in s.target
    ensures Resolve(default, [s] + b) == Resolve(default, b)
  {
    var empty: seq<Source> := [];
    assert [s] + b == empty + [s] + b;
    assert b == empty + b;
    ResolveSkipsAbsent(default, empty, s, b);
  }

  lemma DropLast(default: Value, a: seq<Source>, s: Source)
    requires s.attribute !in s.target
    ensures Resolve(default, a + [s]) == Resolve(default, a)
  {
    var empty: seq<Source> := [];
    assert a + [s] == a + [s] + empty;
    assert a == a + empty;
    ResolveSkipsAbsent(default, a, s, empty);
  }

  /** No target has the attribute: the result is the default itself, for
      both shapes. */
  lemma OnlyDefault(request: Request, attribute: string, default: Value)
    requires HasTargets(request) && (default.Dict? || default.List?)
    requires attribute !in request.moduleObj.value
    requires attribute !in request.classObj.value
    requires attribute !in request.functionObj.value
    ensures GetData(request, attribute, default) == Ok(default)
  {
    var layers := Layers(request, attribute);
    KeepOnly(default, layers[0], layers[1], layers[2], 0);
    var empty: seq<Source> := [];
    DropLast(default, empty, layers[0]);
    assert empty + [layers[0]] == [layers[0]];
    if default.List? {
      ResolveListAligned(default.items, empty);
      assert [default.items] + ListLayers(empty) == [default.items];
      AlignedSingle(default.items);
    } else {
      ResolveDictMerged(default.entries, empty);
      assert DictItems(default.entries, empty) == [Some(default.entries)];
      MergedSingle(default.entries);
    }
  }

  lemma MergedSingle(m: Mapping)
    ensures Merged([Some(m)]) == m
  {
    var none: seq<Option<Mapping>> := [];
    MergedUpdate(none, m);
    assert none + [Some(m)] == [Some(m)];
    assert Merged(none) + m == m;
  }

  /** The list branch over the default alone returns the default. */
  lemma AlignedSingle(l: Layer)
    ensures Aligned([l]) == l
  {
    AlignedSpec([l]);
    forall i | 0 <= i < |l| ensures Aligned([l])[i] == l[i] {
      ModSmall(i, |l|);
      assert Column([l], i) == [Some(l[i])];
      MergedSingle(l[i]);
    }
  }

  /** A request whose only override sits on the given role. */
  function OverrideOn(role: Role, attribute: string, v: Value): Request {
    var on: Attrs := map[attribute := v];
    Request(
      Some(if role == Module then on else map[]),
      Some(if role == Cls then on else map[]),
      Some(if role == Function then on else map[]),
      map[])
  }

  /** The layers of a request whose only override sits on `role` resolve as
      that one layer. */
  lemma OverrideOnResolvesAsOne(role: Role, attribute: string, v: Value, default: Value, keep: nat)
    requires keep == (match role case Module => 0 case Cls => 1 case Function => 2 case Param => 3)
    requires keep < 3
    ensures Resolve(default, Layers(OverrideOn(role, attribute, v), attribute))
            == Resolve(default, [Source(role, map[attribute := v], attribute)])
  {
    var layers := Layers(OverrideOn(role, attribute, v), attribute);
    KeepOnly(default, layers[0], layers[1], layers[2], keep);
    assert layers == [layers[0], layers[1], layers[2]];
  }

  /** Overriding only one layer gives the same result whichever of module,
      class or function carries the override. */
  lemma SingleOverrideAnyLayer(attribute: string, v: Value, default: Value)
    requires default.Dict? || default.List? ==> IsInstance(v, ShapeOf(default))
    ensures GetData(OverrideOn(Module, attribute, v), attribute, default)
            == GetData(OverrideOn(Cls, attribute, v), attribute, default)
            == GetData(OverrideOn(Function, attribute, v), attribute, default)
  {
    var on: Attrs := map[attribute := v];
    OverrideOnResolvesAsOne(Module, attribute, v, default, 0);
    OverrideOnResolvesAsOne(Cls, attribute, v, default, 1);
    OverrideOnResolvesAsOne(Function, attribute, v, default, 2);
    RoleOnlyInErrors(default, [Source(Module, on, attribute)], [Source(Cls, on, attribute)]);
    RoleOnlyInErrors(default, [Source(Cls, on, attribute)], [Source(Function, on, attribute)]);
  }

  /** The body of one nested class of the test helper: `foo` is set only
      when the override is truthy. */
  function ClassBody(foo: Option<Value>): (attrs: Attrs)
    ensures "foo" in attrs <==> foo.Some? && IsTruthy(foo.value)
    ensures "foo" in attrs ==> attrs["foo"] == foo.value
    ensures attrs.Keys <= {"foo"}
  {
    if foo.Some? && IsTruthy(foo.value) then map["foo" := foo.value] else map[]
  }

  /** The request the test helper builds from its module, class and
      function overrides: all three targets exist, and there is no `param`. */
  function TestRequest(moduleFoo: Option<Value>, clsFoo: Option<Value>, functionFoo: Option<Value>): (request: Request)
    ensures HasTargets(request) && request.attrs == map[]
    ensures "foo" in request.moduleObj.value <==> moduleFoo.Some? && IsTruthy(moduleFoo.value)
    ensures "foo" in request.classObj.value <==> clsFoo.Some? && IsTruthy(clsFoo.value)
    ensures "foo" in request.functionObj.value <==> functionFoo.Some? && IsTruthy(functionFoo.value)
  {
    Request(Some(ClassBody(moduleFoo)), Some(ClassBody(clsFoo)), Some(ClassBody(functionFoo)), map[])
  }

  /** The layers of the test request, each holding its override as `foo`
      when the override is truthy. */
  lemma ExampleLayers(mv: Option<Value>, cv: Option<Value>, fv: Option<Value>)
    ensures var request := TestRequest(mv, cv, fv);
      && HasTargets(request)
      && Layers(request, "foo") == [Source(Module, ClassBody(mv), "foo"), Source(Cls, ClassBody(cv), "foo"),
                                    Source(Function, ClassBody(fv), "foo")]
  {
  }

  /** A dict override reads back as its own dict, the empty one included:
      `{}` is falsy and left unset, and the getter supplies `{}`. */
  lemma OverrideDict(role: Role, m: Mapping)
    ensures WellTyped(Source(role, ClassBody(Some(Dict(m))), "foo"), DictShape)
    ensures LayerDict(Source(role, ClassBody(Some(Dict(m))), "foo")) == m
  {
  }

  /** A list override reads back as its own list, the empty one included. */
  lemma OverrideList(role: Role, l: Layer)
    ensures WellTyped(Source(role, ClassBody(Some(List(l))), "foo"), ListShape)
    ensures LayerList(Source(role, ClassBody(Some(List(l))), "foo")) == l
  {
  }

  /** Falsy overrides are never stored, so they leave a dict or list
      default as it is, even when their own type is the other shape (a
      `{}` module override of a list default). */
  lemma FalsyOverridesIgnored(default: Value, mv: Option<Value>, cv: Option<Value>, fv: Option<Value>)
    requires default.Dict? || default.List?
    requires mv.None? || !IsTruthy(mv.value)
    requires cv.None? || !IsTruthy(cv.value)
    requires fv.None? || !IsTruthy(fv.value)
    ensures GetData(TestRequest(mv, cv, fv), "foo", default) == Ok(default)
  {
    OnlyDefault(TestRequest(mv, cv, fv), "foo", default);
  }

  /** Every target overrides a dict default: the default updated with the
      module's, the class's and then the function's dict. */
  lemma OverrideAllDict(d: Mapping, m: Mapping, c: Mapping, f: Mapping)
    ensures GetData(TestRequest(Some(Dict(m)), Some(Dict(c)), Some(Dict(f))), "foo", Dict(d)) == Ok(Dict(d + m + c + f))
  {
    ExampleLayers(Some(Dict(m)), Some(Dict(c)), Some(Dict(f)));
    var request := TestRequest(Some(Dict(m)), Some(Dict(c)), Some(Dict(f)));
    var layers := Layers(request, "foo");
    OverrideDict(Module, m);
    OverrideDict(Cls, c);
    OverrideDict(Function, f);
    assert Conforms(request, "foo", DictShape);
    GetDataDict(request, "foo", d);
  }

  /** Module, class and function overrides of a dict default, with the
      test's values. */
  lemma ExampleDictAllLayers(d: Mapping, m: Mapping, c: Mapping, f: Mapping)
    requires d == map["a" := Int(1), "b" := Int(2)]
    requires m == map["b" := Int(20), "c" := Int(30)]
    requires c == map["c" := Int(300), "d" := Int(400)]
    requires f == map["d" := Int(4000), "e" := Int(5000)]
    ensures GetData(TestRequest(Some(Dict(m)), Some(Dict(c)), Some(Dict(f))), "foo", Dict(d))
            == Ok(Dict(map["a" := Int(1), "b" := Int(20), "c" := Int(300), "d" := Int(4000), "e" := Int(5000)]))
  {
    OverrideAllDict(d, m, c, f);
    ExampleDictSum();
  }

  lemma ExampleDictSum()
    ensures map["a" := Int(1), "b" := Int(2)] + map["b" := Int(20), "c" := Int(30)]
            + map["c" := Int(300), "d" := Int(400)] + map["d" := Int(4000), "e" := Int(5000)]
            == map["a" := Int(1), "b" := Int(20), "c" := Int(300), "d" := Int(4000), "e" := Int(5000)]
  {
  }

  /** Every target overrides a list default, with lists of lengths 2
      (default), 3, 1 and 2: three dicts, each list cycling. */
  lemma OverrideAllList(l: Layer, m: Layer, c: Layer, f: Layer)
    requires |l| == 2 && |m| == 3 && |c| == 1 && |f| == 2
    ensures GetData(TestRequest(Some(List(m)), Some(List(c)), Some(List(f))), "foo", List(l))
            == Ok(List([l[0] + m[0] + c[0] + f[0], l[1] + m[1] + c[0] + f[1], l[0] + m[2] + c[0] + f[0]]))
  {
    ExampleLayers(Some(List(m)), Some(List(c)), Some(List(f)));
    var request := TestRequest(Some(List(m)), Some(List(c)), Some(List(f)));
    var layers := Layers(request, "foo");
    OverrideList(Module, m);
    OverrideList(Cls, c);
    OverrideList(Function, f);
    CyclingExample(l, m, c, f, layers);
  }

  lemma CyclingExample(l: Layer, m: Layer, c: Layer, f: Layer, layers: seq<Source>)
    requires |l| == 2 && |m| == 3 && |c| == 1 && |f| == 2
    requires |layers| == 3 && AllWellTyped(layers, ListShape)
    requires LayerList(layers[0]) == m && LayerList(layers[1]) == c && LayerList(layers[2]) == f
    ensures Resolve(List(l), layers)
            == Ok(List([l[0] + m[0] + c[0] + f[0], l[1] + m[1] + c[0] + f[1], l[0] + m[2] + c[0] + f[0]]))
  {
    ResolveListAligned(l, layers);
    ListLists(l, layers);
    AlignedExample(l, m, c, f);
  }

  /** The cyclic alignment of lists of lengths 2, 3, 1 and 2. */
  lemma AlignedExample(l: Layer, m: Layer, c: Layer, f: Layer)
    requires |l| == 2 && |m| == 3 && |c| == 1 && |f| == 2
    ensures Aligned([l, m, c, f]) == [l[0] + m[0] + c[0] + f[0], l[1] + m[1] + c[0] + f[1], l[0] + m[2] + c[0] + f[0]]
  {
    var lists := [l, m, c, f];
    AlignedSpec(lists);
    MaxLenOfExample(l, m, c, f);
    var r := Aligned(lists);
    var r0, r1, r2 := ExampleColumns(l, m, c, f);
    assert r[0] == r0 && r[1] == r1 && r[2] == r2;
    assert r == [r0, r1, r2];
  }

  lemma MaxLenOfExample(l: Layer, m: Layer, c: Layer, f: Layer)
    requires |l| == 2 && |m| == 3 && |c| == 1 && |f| == 2
    ensures MaxLen([l, m, c, f]) == 3
  {
    var lists := [l, m, c, f];
    assert |lists[1]| <= MaxLen(lists);
    var j :| 0 <= j < 4 && |lists[j]| == MaxLen(lists);
  }

  /** The three merged columns of the cycling example. */
  lemma ExampleColumns(l: Layer, m: Layer, c: Layer, f: Layer) returns (r0: Mapping, r1: Mapping, r2: Mapping)
    requires |l| == 2 && |m| == 3 && |c| == 1 && |f| == 2
    ensures Merged(Column([l, m, c, f], 0)) == r0 == l[0] + m[0] + c[0] + f[0]
    ensures Merged(Column([l, m, c, f], 1)) == r1 == l[1] + m[1] + c[0] + f[1]
    ensures Merged(Column([l, m, c, f], 2)) == r2 == l[0] + m[2] + c[0] + f[0]
  {
    assert Column([l, m, c, f], 0) == [Some(l[0]), Some(m[0]), Some(c[0]), Some(f[0])];
    assert Column([l, m, c, f], 1) == [Some(l[1]), Some(m[1]), Some(c[0]), Some(f[1])];
    assert Column([l, m, c, f], 2) == [Some(l[0]), Some(m[2]), Some(c[0]), Some(f[0])];
    MergedUpdate4(l[0], m[0], c[0], f[0]);
    MergedUpdate4(l[1], m[1], c[0], f[1]);
    MergedUpdate4(l[0], m[2], c[0], f[0]);
    r0, r1, r2 := l[0] + m[0] + c[0] + f[0], l[1] + m[1] + c[0] + f[1], l[0] + m[2] + c[0] + f[0];
  }
}
