/**
 * What both copies of `get_data` do once the layers are known: read the
 * attribute from every layer with a getter of the default's shape, then merge
 * the default and the layers' values in order (dict branch), or align them
 * cyclically and merge index by index (list branch).
 */
module Layering {
  import opened Values
  import opened Helpers
  import opened Cycling

  /** One layer above the default: the object read, the role it plays, and
      the attribute read from it. */
  datatype Source = Source(role: Role, target: Attrs, attribute: string)

  /** The getter applied to one layer. */
  function Get(s: Source, shape: Shape): Result<Value> {
    Getter(s.target, s.role, s.attribute, shape)
  }

  /** The layer's getter does not raise: its attribute is absent or has the shape. */
  predicate WellTyped(s: Source, shape: Shape) {
    s.attribute !in s.target || IsInstance(s.target[s.attribute], shape)
  }

  /** All layers' getters succeed. */
  predicate AllWellTyped(sources: seq<Source>, shape: Shape) {
    forall i :: 0 <= i < |sources| ==> WellTyped(sources[i], shape)
  }

  /** Layer `i` is the first whose getter raises. */
  predicate FirstIllTyped(sources: seq<Source>, shape: Shape, i: int) {
    && 0 <= i < |sources|
    && !WellTyped(sources[i], shape)
    && forall i' :: 0 <= i' < i ==> WellTyped(sources[i'], shape)
  }

  /** `list(map(getter, sources))`: the getters run in layer order and the
      first that raises ends the evaluation with its error. */
  function GetAll(sources: seq<Source>, shape: Shape): (r: Result<seq<Value>>)
    ensures r.Ok? <==> forall i :: 0 <= i < |sources| ==> WellTyped(sources[i], shape)
    ensures r.Ok? ==> |r.value| == |sources|
    ensures r.Ok? ==> forall i :: 0 <= i < |sources| ==> Get(sources[i], shape) == Ok(r.value[i])
    ensures r.Err? ==> exists i :: FirstIllTyped(sources, shape, i)
                                  && r.error == WrongType(sources[i].role, sources[i].attribute, shape)
    decreases |sources|
  {
    if sources == [] then Ok([])
    else
      var v :- Get(sources[0], shape);
      var rest :- GetAll(sources[1..], shape);
      assert forall i :: 1 <= i < |sources| ==> sources[i] == sources[1..][i - 1];
      Ok([v] + rest)
  }

  /** The shape a dict or list default selects. */
  function ShapeOf(default: Value): Shape
    requires default.Dict? || default.List?
  {
    if default.Dict? then DictShape else ListShape
  }

  /** The dict a well-typed layer contributes: its attribute, or `{}` when absent. */
  function LayerDict(s: Source): Mapping {
    if s.attribute in s.target && s.target[s.attribute].Dict? then s.target[s.attribute].entries else map[]
  }

  /** The list a well-typed layer contributes: its attribute, or `[]` when absent. */
  function LayerList(s: Source): Layer {
    if s.attribute in s.target && s.target[s.attribute].List? then s.target[s.attribute].items else []
  }

  function DictLayers(sources: seq<Source>): (ds: seq<Mapping>)
    ensures |ds| == |sources| && forall i :: 0 <= i < |sources| ==> ds[i] == LayerDict(sources[i])
  {
    seq(|sources|, i requires 0 <= i < |sources| => LayerDict(sources[i]))
  }

  function ListLayers(sources: seq<Source>): (ls: seq<Layer>)
    ensures |ls| == |sources| && forall i :: 0 <= i < |sources| ==> ls[i] == LayerList(sources[i])
  {
    seq(|sources|, i requires 0 <= i < |sources| => LayerList(sources[i]))
  }

  /** The body of `get_data` after the layers are collected. */
  function Resolve(default: Value, sources: seq<Source>): (r: Result<Value>)
    ensures !default.Dict? && !default.List? ==> r == Err(Unsupported)
    ensures default.Dict? || default.List? ==>
              (r.Ok? <==> forall i :: 0 <= i < |sources| ==> WellTyped(sources[i], ShapeOf(default)))
    ensures r.Ok? ==> r.value.Dict? == default.Dict? && r.value.List? == default.List?
    ensures r.Err? ==> r.error.WrongType? || r.error == Unsupported
  {
    // The values `vs` the getters return are the layers' dicts or lists
    // (`GetValue`), which is what `DictItems` and `ListLayers` read directly.
    match default
    case Dict(d) =>
      var vs :- GetAll(sources, DictShape);
      Ok(Dict(Merged(DictItems(d, sources))))
    case List(l) =>
      var vs :- GetAll(sources, ListShape);
      Ok(List(Aligned([l] + ListLayers(sources))))
    case _ => Err(Unsupported)
  }

  /** With every getter succeeding, the dict branch is one `_merge` call. */
  lemma ResolveDictMerged(d: Mapping, sources: seq<Source>)
    requires AllWellTyped(sources, DictShape)
    ensures Resolve(Dict(d), sources) == Ok(Dict(Merged(DictItems(d, sources))))
  {
  }

  /** With every getter succeeding, the list branch is the aligned merge. */
  lemma ResolveListAligned(l: Layer, sources: seq<Source>)
    requires AllWellTyped(sources, ListShape)
    ensures Resolve(List(l), sources) == Ok(List(Aligned([l] + ListLayers(sources))))
  {
  }

  /** The error names the first layer, in priority order, whose attribute has
      the wrong shape. */
  lemma ResolveFirstError(default: Value, sources: seq<Source>, i: int)
    requires default.Dict? || default.List?
    requires FirstIllTyped(sources, ShapeOf(default), i)
    ensures Resolve(default, sources)
            == Err(WrongType(sources[i].role, sources[i].attribute, ShapeOf(default)))
  {
    var shape := ShapeOf(default);
    var r := GetAll(sources, shape);
    var i' :| FirstIllTyped(sources, shape, i') && r.error == WrongType(sources[i'].role, sources[i'].attribute, shape);
    assert i' == i;
  }

  /** The arguments the dict branch passes to `_merge`: the default, then
      each layer's dict. */
  function DictItems(d: Mapping, sources: seq<Source>): seq<Option<Mapping>> {
    [Some(d)] + Somes(DictLayers(sources))
  }

  lemma DictItemsAt(d: Mapping, sources: seq<Source>)
    ensures var items := DictItems(d, sources);
      && |items| == |sources| + 1 && items[0] == Some(d)
      && forall i :: 0 <= i < |sources| ==> items[i + 1] == Some(LayerDict(sources[i]))
  {
    var items, rest := DictItems(d, sources), Somes(DictLayers(sources));
    forall i | 0 <= i < |sources| ensures items[i + 1] == Some(LayerDict(sources[i])) {
      assert items[i + 1] == rest[i];
    }
  }

  /** The dict branch: the keys are those of the default and of the layers. */
  lemma ResolveDictKeys(d: Mapping, sources: seq<Source>, k: string)
    requires AllWellTyped(sources, DictShape)
    ensures Resolve(Dict(d), sources).Ok? && Resolve(Dict(d), sources).value.Dict?
    ensures k in Resolve(Dict(d), sources).value.entries
            <==> k in d || exists i :: 0 <= i < |sources| && k in LayerDict(sources[i])
  {
    var items := DictItems(d, sources);
    DictItemsAt(d, sources);
    MergedKeys(items, k);
    if k in d {
      assert Has(items[0], k);
    }
    if exists j :: 0 <= j < |items| && Has(items[j], k) {
      var j :| 0 <= j < |items| && Has(items[j], k);
      if j > 0 {
        assert k in LayerDict(sources[j - 1]);
      }
    }
    if exists i :: 0 <= i < |sources| && k in LayerDict(sources[i]) {
      var i :| 0 <= i < |sources| && k in LayerDict(sources[i]);
      assert Has(items[i + 1], k);
    }
  }

  /** The dict branch: a key holds its value in the last layer that has it. */
  lemma ResolveDictLast(d: Mapping, sources: seq<Source>, i: int, k: string)
    requires AllWellTyped(sources, DictShape)
    requires 0 <= i < |sources| && k in LayerDict(sources[i])
    requires forall i' :: i < i' < |sources| ==> k !in LayerDict(sources[i'])
    ensures Resolve(Dict(d), sources).Ok? && Resolve(Dict(d), sources).value.Dict?
    ensures k in Resolve(Dict(d), sources).value.entries
    ensures Resolve(Dict(d), sources).value.entries[k] == LayerDict(sources[i])[k]
  {
    var items := DictItems(d, sources);
    DictItemsAt(d, sources);
    assert LastWith(items, i + 1, k) by {
      forall j' | i + 1 < j' < |items| ensures !Has(items[j'], k) {
        assert k !in LayerDict(sources[j' - 1]);
      }
    }
    MergedLastWriter(items, i + 1, k);
  }

  /** The dict branch: a key no layer has keeps the default's value. */
  lemma ResolveDictDefault(d: Mapping, sources: seq<Source>, k: string)
    requires AllWellTyped(sources, DictShape)
    requires k in d && forall i :: 0 <= i < |sources| ==> k !in LayerDict(sources[i])
    ensures Resolve(Dict(d), sources).Ok? && Resolve(Dict(d), sources).value.Dict?
    ensures k in Resolve(Dict(d), sources).value.entries
    ensures Resolve(Dict(d), sources).value.entries[k] == d[k]
  {
    var items := DictItems(d, sources);
    DictItemsAt(d, sources);
    assert LastWith(items, 0, k) by {
      forall j' | 0 < j' < |items| ensures !Has(items[j'], k) {
        assert k !in LayerDict(sources[j' - 1]);
      }
    }
    MergedLastWriter(items, 0, k);
  }

  /** The list branch: as many dicts as the longest of the default and the
      layers; dict `i` merges, in priority order, each non-empty list's
      element at `i mod len`, while an empty list contributes nothing. */
  lemma ResolveList(l: Layer, sources: seq<Source>)
    requires AllWellTyped(sources, ListShape)
    ensures var layers := [l] + ListLayers(sources);
      var r := Resolve(List(l), sources);
      && r.Ok? && r.value.List?
      && |r.value.items| == MaxLen(layers)
      && forall i :: 0 <= i < |r.value.items| ==> r.value.items[i] == Merged(Column(layers, i))
  {
    AlignedSpec([l] + ListLayers(sources));
  }

  /** The lengths of the layers decide the length of the result alone;
      an extra empty layer changes nothing. */
  lemma {:induction false} MaxLenWithEmpty(x: seq<Layer>, y: seq<Layer>)
    requires |x + y| > 0
    ensures MaxLen(x + [[]] + y) == MaxLen(x + y)
    decreases |x|
  {
    var u, v := x + [[]] + y, x + y;
    if x == [] {
      assert u[1..] == y && v == y;
    } else if |v| == 1 {
      assert y == [] && u[1..] == [[]];
    } else {
      assert u[0] == v[0];
      assert u[1..] == x[1..] + [[]] + y;
      assert v[1..] == x[1..] + y;
      MaxLenWithEmpty(x[1..], y);
    }
  }

  /** A layer that lacks the attribute changes neither the result nor the
      error: it is the same as leaving that layer out. */
  lemma ResolveSkipsAbsent(default: Value, a: seq<Source>, s: Source, b: seq<Source>)
    requires s.attribute !in s.target
    ensures Resolve(default, a + [s] + b) == Resolve(default, a + b)
  {
    if default.Dict? || default.List? {
      var shape := ShapeOf(default);
      if exists i :: FirstIllTyped(a + b, shape, i) {
        SkipsAbsentError(default, a, s, b);
      } else {
        assert AllWellTyped(a + b, shape) by {
          forall i | 0 <= i < |a + b| ensures WellTyped((a + b)[i], shape) {
            if !WellTyped((a + b)[i], shape) {
              FirstExists(a + b, shape, i);
            }
          }
        }
        WellTypedWithAbsent(a, s, b, shape);
        if default.Dict? {
          SkipsAbsentDict(default.entries, a, s, b);
        } else {
          SkipsAbsentList(default.items, a, s, b);
        }
      }
    }
  }

  lemma WellTypedWithAbsent(a: seq<Source>, s: Source, b: seq<Source>, shape: Shape)
    requires s.attribute !in s.target && AllWellTyped(a + b, shape)
    ensures AllWellTyped(a + [s] + b, shape)
  {
    var u, v := a + [s] + b, a + b;
    forall i | 0 <= i < |u| ensures WellTyped(u[i], shape) {
      if i > |a| { assert u[i] == v[i - 1]; }
      else if i < |a| { assert u[i] == v[i]; }
    }
  }

  lemma SkipsAbsentError(default: Value, a: seq<Source>, s: Source, b: seq<Source>)
    requires s.attribute !in s.target
    requires default.Dict? || default.List?
    requires exists i :: FirstIllTyped(a + b, ShapeOf(default), i)
    ensures Resolve(default, a + [s] + b) == Resolve(default, a + b)
  {
    var shape := ShapeOf(default);
    var u, v := a + [s] + b, a + b;
    var i :| FirstIllTyped(v, shape, i);
    var iu := if i < |a| then i else i + 1;
    assert u[iu] == v[i];
    assert FirstIllTyped(u, shape, iu) by {
      forall i' | 0 <= i' < iu ensures WellTyped(u[i'], shape) {
        if i' > |a| { assert u[i'] == v[i' - 1]; }
        else if i' < |a| { assert u[i'] == v[i']; }
      }
    }
    ResolveFirstError(default, u, iu);
    ResolveFirstError(default, v, i);
  }

  /** Some layer is ill-typed, so there is a first one. */
  lemma {:induction false} FirstExists(sources: seq<Source>, shape: Shape, i: int)
    requires 0 <= i < |sources| && !WellTyped(sources[i], shape)
    ensures exists i' :: FirstIllTyped(sources, shape, i')
    decreases i
  {
    if !FirstIllTyped(sources, shape, i) {
      var i' :| 0 <= i' < i && !WellTyped(sources[i'], shape);
      FirstExists(sources, shape, i');
    }
  }

  lemma SkipsAbsentDict(d: Mapping, a: seq<Source>, s: Source, b: seq<Source>)
    requires s.attribute !in s.target
    requires AllWellTyped(a + b, DictShape) && AllWellTyped(a + [s] + b, DictShape)
    ensures Resolve(Dict(d), a + [s] + b) == Resolve(Dict(d), a + b)
  {
    var pre, post := [Some(d)] + Somes(DictLayers(a)), Somes(DictLayers(b));
    DictItemsWithAbsent(d, a, s, b);
    MergedSkipsFalsy(pre, Some(map[]), post);
  }

  lemma DictItemsWithAbsent(d: Mapping, a: seq<Source>, s: Source, b: seq<Source>)
    requires s.attribute !in s.target
    ensures DictItems(d, a + [s] + b) == [Some(d)] + Somes(DictLayers(a)) + [Some(map[])] + Somes(DictLayers(b))
    ensures DictItems(d, a + b) == [Some(d)] + Somes(DictLayers(a)) + Somes(DictLayers(b))
  {
    DictLayersWithAbsent(a, s, b);
    SomesWithEmpty(DictLayers(a), DictLayers(b));
    DictLayersConcat(a, b);
    SomesConcat(DictLayers(a), DictLayers(b));
  }

  lemma DictLayersWithAbsent(a: seq<Source>, s: Source, b: seq<Source>)
    requires s.attribute !in s.target
    ensures DictLayers(a + [s] + b) == DictLayers(a) + [map[]] + DictLayers(b)
  {
    DictLayersConcat(a + [s], b);
    DictLayersConcat(a, [s]);
    assert DictLayers([s]) == [map[]];
  }

  lemma DictLayersConcat(x: seq<Source>, y: seq<Source>)
    ensures DictLayers(x + y) == DictLayers(x) + DictLayers(y)
  {
  }

  lemma ListLayersWithAbsent(l: Layer, a: seq<Source>, s: Source, b: seq<Source>)
    requires s.attribute !in s.target
    ensures [l] + ListLayers(a + [s] + b) == ([l] + ListLayers(a)) + [[]] + ListLayers(b)
    ensures [l] + ListLayers(a + b) == ([l] + ListLayers(a)) + ListLayers(b)
  {
    assert LayerList(s) == [];
  }

  /** The layers at index `i` with an empty list inserted: a `None` inserted. */
  lemma ColumnWithEmpty(x: seq<Layer>, y: seq<Layer>, i: nat)
    ensures Column(x + [[]] + y, i) == Column(x + y, i)[..|x|] + [None] + Column(x + y, i)[|x|..]
  {
  }

  lemma MergedColumnWithEmpty(x: seq<Layer>, y: seq<Layer>, i: nat)
    ensures Merged(Column(x + [[]] + y, i)) == Merged(Column(x + y, i))
  {
    var cv := Column(x + y, i);
    ColumnWithEmpty(x, y, i);
    assert cv == cv[..|x|] + cv[|x|..];
    MergedSkipsFalsy(cv[..|x|], None, cv[|x|..]);
  }

  lemma SkipsAbsentList(l: Layer, a: seq<Source>, s: Source, b: seq<Source>)
    requires s.attribute !in s.target
    requires AllWellTyped(a + b, ListShape) && AllWellTyped(a + [s] + b, ListShape)
    ensures Resolve(List(l), a + [s] + b) == Resolve(List(l), a + b)
  {
    var x, y := [l] + ListLayers(a), ListLayers(b);
    ListLayersWithAbsent(l, a, s, b);
    AlignedWithEmpty(x, y);
  }

  /** An extra empty list changes nothing in the aligned merge. */
  lemma AlignedWithEmpty(x: seq<Layer>, y: seq<Layer>)
    requires |x| > 0
    ensures Aligned(x + [[]] + y) == Aligned(x + y)
  {
    AlignedSpec(x + [[]] + y);
    AlignedSpec(x + y);
    MaxLenWithEmpty(x, y);
    var ru, rv := Aligned(x + [[]] + y), Aligned(x + y);
    forall i | 0 <= i < |ru| ensures ru[i] == rv[i] {
      MergedColumnWithEmpty(x, y, i);
    }
  }

  /** The role of a layer is named in errors only: two layer sequences that
      read the same attributes from the same objects resolve alike when no
      getter raises. */
  lemma RoleOnlyInErrors(default: Value, a: seq<Source>, b: seq<Source>)
    requires |a| == |b|
    requires forall i :: 0 <= i < |a| ==> a[i].target == b[i].target && a[i].attribute == b[i].attribute
    requires default.Dict? || default.List? ==> AllWellTyped(a, ShapeOf(default))
    ensures Resolve(default, a) == Resolve(default, b)
  {
    assert DictLayers(a) == DictLayers(b);
    assert ListLayers(a) == ListLayers(b);
  }

  /** The value a succeeding getter returns is the layer's dict or list. */
  lemma GetValue(s: Source, shape: Shape)
    requires WellTyped(s, shape)
    ensures shape == DictShape ==> Get(s, shape) == Ok(Dict(LayerDict(s)))
    ensures shape == ListShape ==> Get(s, shape) == Ok(List(LayerList(s)))
  {
  }

  /** Reading one more layer after the others: `list(map(getter, a)) + [getter(s)]`
      raises the first error of `a`, else that of `s`, else returns the values in order. */
  lemma GetAllAppend(a: seq<Source>, s: Source, shape: Shape)
    ensures GetAll(a + [s], shape) ==
      match GetAll(a, shape)
      case Err(e) => Err(e)
      case Ok(vs) => match Get(s, shape) case Err(e) => Err(e) case Ok(v) => Ok(vs + [v])
  {
    var u := a + [s];
    forall i | 0 <= i < |a| ensures u[i] == a[i] { }
    assert u[|a|] == s;
    var ra, ru := GetAll(a, shape), GetAll(u, shape);
    if ra.Err? {
      var i :| FirstIllTyped(a, shape, i) && ra.error == WrongType(a[i].role, a[i].attribute, shape);
      assert FirstIllTyped(u, shape, i);
      var i' :| FirstIllTyped(u, shape, i') && ru.error == WrongType(u[i'].role, u[i'].attribute, shape);
      assert i' == i;
    } else if !WellTyped(s, shape) {
      assert FirstIllTyped(u, shape, |a|);
      var i' :| FirstIllTyped(u, shape, i') && ru.error == WrongType(u[i'].role, u[i'].attribute, shape);
      assert i' == |a|;
    } else {
      assert ru.value == ra.value + [Get(s, shape).value];
    }
  }
}
