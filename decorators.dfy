/**
 * `use_data` and `use_data_parametrize`, the decorators that attach fixture
 * data to a test function. Both copies of the package define `use_data`
 * the same way; only `functions.py` defines `use_data_parametrize`.
 */
module Decorators {
  import opened Values
  import Layering
  import Package

  /** A Python function object, as far as the decorators see it: a table of
      attributes that `setattr` updates in place. */
  class FunctionObject {
    var attrs: Attrs

    constructor(attrs: Attrs)
      ensures this.attrs == attrs
    {
      this.attrs := attrs;
    }

    /** `getattr(func, name, default)`. */
    function Attr(name: string, default: Value): (v: Value)
      reads this
      ensures name in attrs ==> v == attrs[name]
      ensures name !in attrs ==> v == default
    {
      GetAttr(attrs, name, default)
    }
  }

  /** `use_data(**data)(func)`: `setattr(func, key, value)` for every keyword
      argument, then the same function object is returned. Keyword names
      are distinct, so the order of the loop does not matter. */
  method UseData(data: map<string, Value>, func: FunctionObject) returns (res: FunctionObject)
    modifies func
    ensures res == func
    ensures func.attrs == old(func.attrs) + data
  {
    var pending := data.Keys;
    while pending != {}
      invariant pending <= data.Keys
      invariant func.attrs == old(func.attrs) + map k | k in data.Keys - pending :: data[k]
      decreases |pending|
    {
      var key :| key in pending;
      func.attrs := func.attrs[key := data[key]];
      pending := pending - {key};
    }
    assert data.Keys - pending == data.Keys;
    assert (map k | k in data.Keys :: data[k]) == data;
    res := func;
  }

  /** `use_data_parametrize(**data)(func)`: the whole keyword map becomes the
      single attribute `data`, which the plugin hands to pytest's
      parametrization; the same function object is returned. */
  method UseDataParametrize(data: map<string, Value>, func: FunctionObject) returns (res: FunctionObject)
    modifies func
    ensures res == func
    ensures func.attrs == old(func.attrs)["data" := Dict(data)]
  {
    func.attrs := func.attrs["data" := Dict(data)];
    res := func;
  }

  /** After `use_data`, every decorated name reads back its keyword value and
      every other attribute reads back what it held before. */
  lemma UseDataReadBack(before: Attrs, data: map<string, Value>, name: string, default: Value)
    ensures name in data ==> GetAttr(before + data, name, default) == data[name]
    ensures name !in data ==> GetAttr(before + data, name, default) == GetAttr(before, name, default)
  {
  }

  /** A test function decorated with `use_data(<attribute>=v)` for a dict
      `v`: every key of `v` reaches the fixture's data with `v`'s value,
      whatever the module, the class and the default hold. */
  lemma UseDataOverrides(request: Request, before: Attrs, attribute: string, v: Mapping, d: Mapping, k: string)
    requires request.moduleObj.Some? && request.classObj.Some?
    requires request.functionObj == Some(before + map[attribute := Dict(v)])
    requires Package.Conforms(request, attribute, DictShape)
    requires k in v
    ensures Package.GetData(request, attribute, Dict(d)).Ok?
    ensures Package.GetData(request, attribute, Dict(d)).value.Dict?
    ensures k in Package.GetData(request, attribute, Dict(d)).value.entries
    ensures Package.GetData(request, attribute, Dict(d)).value.entries[k] == v[k]
  {
    assert Layering.LayerDict(Package.Layers(request, attribute)[2]) == v;
    Package.FunctionWins(request, attribute, d, k);
  }

  /** `use_data(foo=42)(func)` returns `func` itself, and `func.foo == 42`. */
  method UseDataExample() returns (same: bool, foo: Value)
    ensures same && foo == Int(42)
  {
    var func := new FunctionObject(map[]);
    var res := UseData(map["foo" := Int(42)], func);
    same := res == func;
    foo := res.Attr("foo", Str(""));
  }
}
