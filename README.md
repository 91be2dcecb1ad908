# pytest-data: layered fixture data, modelled in Dafny

pytest-data lets a pytest fixture build its data from several layers. The
lowest layer is the `default_data` written in the fixture. Above it come
attributes of the same name on the test module, the test class and the test
function. In the `functions.py` copy, the fixture's `request.param` comes
last. `get_data(request, attribute_name, default_data)` reads the attribute
from every layer. Each read is checked to have the default's shape, dict or
list. The layers are then merged:

- **dict default:** one `dict.update` per layer, lowest layer first, so the
  last writer wins;
- **list default (a list of dicts):** cyclic alignment. The result is as
  long as the longest list, and element `i` merges each non-empty list's
  element at `i mod len`.

`_getter` reads one layer with type checking; `_merge` is the update loop.
The decorators `use_data` and `use_data_parametrize` attach data to a test
function as attributes.

The package has two near-identical copies of `get_data`, and both are
modelled:

- `pytest_data/__init__.py`, the copy the tests import: the layers are
  always module, class and function. Reading any of the three raises
  `AttributeError` when absent.
- `pytest_data/functions.py`: the class and function layers are dropped
  when the request has none, and `request.param` is an extra, final layer.

`_getter` is identical in both copies (`__init__.py:89-98`), as are
`_merge` (`__init__.py:101-110`) and `use_data` (`__init__.py:133-136`), so
each is modelled once.

Modules:

- `Values` (`values.dfy`): the value domain, which is dicts, lists of
  dicts, integers and strings. It also holds the attribute tables, the
  fixture request, the errors, `getattr` and Python truthiness.
- `Helpers` (`helpers.dfy`):
  - `_getter` is the function `Getter`;
  - `_merge` is the method `Merge`, a loop proved equal to the
    specification function `Merged`, with lemmas about the keys, the last
    writer, associativity and falsy arguments.
- `Cycling` (`cycling.dfy`): `islice(zip_longest(*map(cycle, lists)),
  max_len)`. Each `cycle` is represented by the position of the element it
  yields next. The zip of those iterators is proved equal to the reference
  rule "element `i mod len` of each non-empty list".
- `Layering` (`layering.dfy`): what both copies do once the layers are
  known. `GetAll` reads every layer in order and stops at the first
  error; `Resolve` then takes the dict branch, the list branch or the
  unsupported-type error.
- `Package` (`package.dfy`): `__init__.py`'s `get_data`, with the
  properties the test suite checks.
- `Functions` (`functions.py` → `functions.dfy`): `functions.py`'s
  `get_data`.
  - The method `GetData` appends the targets step by step, runs the
    getters, then merges or aligns them.
  - The alignment is done row by row by the loop `AlignRows`.
  - `GetData` is proved equal to the specification function `Outcome`.
- `Decorators` (`decorators.dfy`): a `FunctionObject` class whose
  attribute table the decorators update in place.

Python's `dict.update` is Dafny's right-biased map union: in `a + b`, `b`
wins every collision.

In `functions.py`, the docstring (`functions.py:18-21`) says that `param`
ranks just above `default_data`, below module, class and function. The
code, `functions.py:95`, appends `param` after the function layer, so
`param` overrides every other layer. The model follows the code
(`Functions.ParamWins`).

Error precedence follows the code:

- a target that cannot be read (`request.module`, and in `__init__.py`
  also `request.cls` and `request.function`) raises first;
- then a default that is neither a dict nor a list;
- then the first layer, in layer order, whose attribute has the other shape.

## Model

| member | source | states |
|---|---|---|
| Values.GetAttr | pytest_data/functions.py:116 | the attribute when the target has it under that name, the fallback otherwise |
| Helpers.Getter | pytest_data/functions.py:110-119 | absent attribute gives an empty value of the default's shape; present with that shape gives the attribute; present with the other shape gives the type error naming target and attribute |
| Helpers.Merged | pytest_data/functions.py:122-131 | the specification of `_merge`: with no truthy argument the result is `{}`; keys, last writer and grouping are the lemmas below |
| Helpers.Merge | pytest_data/functions.py:122-131 | the update loop over the truthy arguments returns exactly the merge `Merged` of its arguments |
| Helpers.MergedKeys | pytest_data/functions.py:127-131 | a key is in the merge if and only if some argument supplies it (`None` supplies nothing) |
| Helpers.MergedLastWriter | pytest_data/functions.py:127-131 | each key maps to its value in the last argument that supplies it |
| Helpers.MergedConcat | pytest_data/functions.py:127-131 | merging `a + b` equals the merge of `a` updated with the merge of `b` |
| Helpers.MergedUpdate | pytest_data/functions.py:129-130 | one more present argument is one more `dict.update`, empty or not |
| Helpers.MergedRegroup | pytest_data/functions.py:127-131 | passing a merge of `a` as first argument before `b` gives the merge of `a + b` |
| Helpers.MergedSkipsFalsy | pytest_data/functions.py:129 | a falsy argument (`None` or `{}`) anywhere contributes nothing |
| Helpers.MergedUpdate4 | pytest_data/__init__.py:75 | four present dicts merge to `d + m + c + f` |
| Helpers.MergedUpdate5 | pytest_data/functions.py:95-96 | five present dicts merge to `d + m + c + f + p` |
| Cycling.MaxLen | pytest_data/functions.py:101 | `max(map(len, lists))`: at least every length and equal to one of them |
| Cycling.AfterZeros | pytest_data/functions.py:102 | after `k` tuples, the cycle over a list of length `len` is at position `k mod len` |
| Cycling.ZipIsColumn | pytest_data/functions.py:102 | tuple `i` of the zip over cycles is each non-empty list's element `i mod len`, `None` for an empty list |
| Cycling.Aligned | pytest_data/functions.py:100-102 | the list branch has exactly `max_len` dicts; their contents are `AlignedAt` and `AlignedSpec` |
| Cycling.AlignedAt | pytest_data/functions.py:102 | dict `k` of the list branch merges the tuple read after `k` tuples |
| Cycling.AlignedSpec | pytest_data/functions.py:101-102 | the list branch has `max_len` dicts; dict `i` merges the lists' elements at `i mod len` |
| Layering.GetAll | pytest_data/functions.py:95 | the getters succeed if and only if every layer is well-typed; then value `i` is layer `i`'s getter result; otherwise the error is that of the first ill-typed layer |
| Layering.GetValue | pytest_data/functions.py:116-119 | a well-typed layer's getter returns its dict or list, or the empty one when the attribute is absent |
| Layering.GetAllAppend | pytest_data/functions.py:95 | reading one more layer after the others raises their first error, else the new layer's, else appends its value |
| Layering.Resolve | pytest_data/functions.py:93-105 | unsupported default gives the unsupported-type error; for a dict or list default the result is a value if and only if every layer is well-typed, and it has the default's shape |
| Layering.ResolveDictMerged | pytest_data/functions.py:93-96 | with all getters succeeding, the dict branch is one `_merge` of the default and the layers' dicts |
| Layering.ResolveListAligned | pytest_data/functions.py:98-102 | with all getters succeeding, the list branch is the cyclic alignment of the default and the layers' lists |
| Layering.ResolveFirstError | pytest_data/functions.py:95 | the error names the first layer in layer order whose attribute has the wrong shape |
| Layering.ResolveDictKeys | pytest_data/functions.py:93-96 | the dict result's keys are exactly the default's and the layers' keys |
| Layering.ResolveDictLast | pytest_data/functions.py:93-96 | a key takes its value from the last layer holding it |
| Layering.ResolveDictDefault | pytest_data/functions.py:93-96 | a key no layer holds keeps the default's value |
| Layering.ResolveList | pytest_data/functions.py:98-102 | the list result has the longest list's length, and element `i` merges each non-empty list's element `i mod len` in layer order |
| Layering.MaxLenWithEmpty | pytest_data/functions.py:101 | an extra empty list leaves `max_len` unchanged |
| Layering.ResolveSkipsAbsent | pytest_data/functions.py:116 | a layer lacking the attribute changes neither the result nor the error, for both shapes |
| Layering.RoleOnlyInErrors | pytest_data/functions.py:118 | a layer's role appears only in error messages: same objects and attributes resolve alike |
| Package.GetData | pytest_data/__init__.py:71-86 | a missing module, class or function raises, in that order, and exactly then is the error a missing target; a result has the default's shape |
| Package.GetDataFails | pytest_data/__init__.py:71-84 | `get_data` raises if and only if a target cannot be read, the default is unsupported, or some target is ill-typed; otherwise the result has the default's shape |
| Package.GetDataWrongType | pytest_data/__init__.py:74-79 | a shape mismatch names module, else class, else function, whichever comes first |
| Package.FunctionWins | pytest_data/__init__.py:75 | a key the function's dict holds takes the function's value |
| Package.GetDataDict | pytest_data/__init__.py:73-75 | the dict result is `default + module + cls + function`, right-biased |
| Package.GetDataList | pytest_data/__init__.py:77-81 | the list result has the length of the longest of the four lists, and element `i` merges each list's element `i mod len` |
| Package.KeepOnly | pytest_data/__init__.py:95 | when two of the three targets lack the attribute, the three resolve as the third alone |
| Package.OnlyDefault | pytest_data_test.py:8-10 | no target has the attribute: the result is equal to the default, dict or list |
| Package.AlignedSingle | pytest_data_test.py:48-50 | the list branch over the default alone returns the default |
| Package.OverrideOnResolvesAsOne | pytest_data/__init__.py:95 | a request with a single override resolves as that one layer |
| Package.SingleOverrideAnyLayer | pytest_data_test.py:13-25 | a single override gives the same result on module, class or function |
| Package.ClassBody | pytest_data_test.py:157-165 | a nested class of the test helper has `foo` exactly when its override is truthy, holding that override, and no other attribute |
| Package.TestRequest | pytest_data_test.py:155-167 | the helper's request has all three targets and no `param`; each target has `foo` exactly when its override is truthy |
| Package.ExampleLayers | pytest_data_test.py:155-167 | the test helper's request reads its truthy overrides as attribute `foo` of each target |
| Package.OverrideDict | pytest_data_test.py:157-165 | a dict override, empty or not, is well-typed and reads back as that dict |
| Package.OverrideList | pytest_data_test.py:157-165 | a list override, empty or not, is well-typed and reads back as that list |
| Package.FalsyOverridesIgnored | pytest_data_test.py:155-167 | falsy or missing overrides leave a dict or list default as it is, whatever their own type |
| Package.OverrideAllDict | pytest_data_test.py:43-45 | all three targets override a dict default: `d + m + c + f` |
| Package.ExampleDictAllLayers | pytest_data_test.py:43-45 | the concrete test vector gives `{a:1, b:20, c:300, d:4000, e:5000}` |
| Package.CyclingExample | pytest_data/__init__.py:80-81 | lists of lengths 2, 3, 1, 2 give three dicts merging `l[i mod 2]`, `m[i mod 3]`, `c[0]`, `f[i mod 2]` |
| Package.OverrideAllList | pytest_data_test.py:141-152 | the request of the four-list test gives those three merged dicts, for any dicts |
| Package.ExampleColumns | pytest_data/__init__.py:81 | the three columns of the four-list example merge as the stated updates |
| Package.AlignedExample | pytest_data/__init__.py:81 | the cyclic alignment of lists of lengths 2, 3, 1, 2 is the three stated merges |
| Functions.Targets | pytest_data/functions.py:83-91 | `targets` starts with the module and has one to three elements |
| Functions.Sources | pytest_data/functions.py:95 | the layers are the targets followed by `param` |
| Functions.Outcome | pytest_data/functions.py:83-105 | a missing module, and only that, gives the missing-target error; a missing class or function never raises; a result has the default's shape |
| Functions.GetData | pytest_data/functions.py:83-105 | the imperative `get_data` returns exactly `Outcome` |
| Functions.MergeLayers | pytest_data/functions.py:93-96 | merging the default and the getters' dicts gives the dict branch's result |
| Functions.AlignLayers | pytest_data/functions.py:98-102 | aligning the default and the getters' lists gives the list branch's result |
| Functions.AlignRows | pytest_data/functions.py:101-102 | the row-by-row loop over the cycles returns the aligned merge |
| Functions.OutcomeFails | pytest_data/functions.py:83-105 | raises if and only if there is no module, the default is unsupported, or some layer including `param` is ill-typed; otherwise the result has the default's shape |
| Functions.OutcomeErrorOrder | pytest_data/functions.py:83 | a missing module raises first; an unsupported default raises before any layer is read |
| Functions.ParamErrorLast | pytest_data/functions.py:95 | an ill-typed `param` is reported only when every target is well-typed |
| Functions.ParamWins | pytest_data/functions.py:95-96 | a key of the `param` dict always takes the `param` value |
| Functions.NoClassIsEmptyClass | pytest_data/functions.py:84-87 | a request without a class resolves as one whose class lacks the attribute |
| Functions.NoFunctionIsEmptyFunction | pytest_data/functions.py:88-91 | a request without a function resolves as one whose function lacks the attribute |
| Functions.NoParamIsTargetsOnly | pytest_data/functions.py:95 | a fixture without `param` resolves over the targets alone |
| Functions.OutcomeList | pytest_data/functions.py:100-102 | the list result has the longest list's length, `default` and `param` included, and element `i` merges each list's element `i mod len` |
| Functions.OutcomeDict | pytest_data/functions.py:93-96 | with all targets present, the dict result is `default + module + cls + function + param` |
| Functions.OutcomeAllEmpty | pytest_data/functions.py:101-102 | every list empty gives `[]` |
| Decorators.FunctionObject.Attr | pytest_data_test.py:181 | reading an attribute of the function gives its value, or the fallback when absent |
| Decorators.UseData | pytest_data/functions.py:162-165 | returns the same function object; its attributes become the old ones updated with every keyword |
| Decorators.UseDataParametrize | pytest_data/functions.py:208-210 | returns the same function object; only the attribute `data` changes, to the whole keyword map |
| Decorators.UseDataReadBack | pytest_data/functions.py:163-164 | after `use_data` every keyword reads back its value and every other attribute is unchanged |
| Decorators.UseDataOverrides | pytest_data/__init__.py:133-136 | a dict attached by `use_data` to the test function wins every key in `get_data` |
| Decorators.UseDataExample | pytest_data_test.py:170-181 | `use_data(foo=42)(func)` is `func`, and `func.foo == 42` |

## Left out

- `pytest_data/plugin.py` is not part of this model. It only passes
  `func.data` to pytest's `metafunc.parametrize`, a call into the test runner.
- `setup.py` is packaging metadata only.
- Error messages are modelled as error tags. These record which target,
  attribute and shape are involved; the formatted text is not modelled.
- Python values other than dicts, lists of dicts, integers and strings are
  not modelled. Neither are subclasses of `dict` or `list`: the shape test
  is the datatype constructor.
- A list layer whose elements are not dicts is not modelled, and the code
  checks no elements. The value type allows dicts only inside lists.
- Dict insertion order is not modelled; only key-to-value contents are.
- The default argument `default_data={}` is not modelled: callers pass the
  default explicitly, as `Dict(map[])` for the omitted case.
- The decorator factories (`use_data(**data)` returning `wrapper`) are
  collapsed into one method taking both the keywords and the function.
- Reads of `request.module`, `request.cls` and `request.function` are not
  live Python attribute lookups. They are modelled as a snapshot of each
  object's attributes, or as absence when the lookup raises.
- Aliasing between the returned data and the layers is not modelled: values
  are immutable here, and `_merge` always fills a fresh dict.
- The Python 2 `izip_longest` import fallback is not modelled.
- The docstring example with a duplicate dict key (`functions.py:62`,
  `__init__.py:61`) is not modelled, because its stated results do not
  follow from the code.
- Package.OverrideAllList: the four-list test (`pytest_data_test.py:141-152`)
  is proved with arbitrary dicts of the test's list lengths, not with the
  test's literal dicts. The literal values follow from it by map union.
