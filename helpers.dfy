/**
 * `_getter` and `_merge`, which both copies of the package define identically.
 */
module Helpers {
  import opened Values

  /** `_getter(target, attribute_name, default)`: the attribute, or a fresh
      empty value of the default's shape when it is absent, provided it has
      that shape; `role` names the target in the error. */
  function Getter(target: Attrs, role: Role, name: string, shape: Shape): (r: Result<Value>)
    ensures name !in target ==> r == Ok(Empty(shape))
    ensures name in target && IsInstance(target[name], shape) ==> r == Ok(target[name])
    ensures name in target && !IsInstance(target[name], shape) ==> r == Err(WrongType(role, name, shape))
  {
    var value := GetAttr(target, name, Empty(shape));
    if !IsInstance(value, shape) then Err(WrongType(role, name, shape)) else Ok(value)
  }

  /** Python truthiness of one `_merge` argument: `None` and `{}` are falsy. */
  predicate Truthy(item: Option<Mapping>) {
    item.Some? && IsTruthy(Dict(item.value))
  }

  /** The argument supplies key `k`. */
  predicate Has(item: Option<Mapping>, k: string) {
    item.Some? && k in item.value
  }

  /** Argument `j` is the last argument that supplies key `k`. */
  ghost predicate LastWith(items: seq<Option<Mapping>>, j: int, k: string)
    requires 0 <= j < |items|
  {
    Has(items[j], k) && forall j' :: j < j' < |items| ==> !Has(items[j'], k)
  }

  /** The dict `_merge(*items)` returns: an empty dict updated with every
      truthy argument in turn. */
  function Merged(items: seq<Option<Mapping>>): (data: Mapping)
    ensures (forall j :: 0 <= j < |items| ==> !Truthy(items[j])) ==> data == map[]
    decreases |items|
  {
    if items == [] then map[]
    else
      var data := Merged(items[..|items| - 1]);
      var item := items[|items| - 1];
      if Truthy(item) then data + item.value else data
  }

  /** `_merge(*dicts)`: fills a fresh dict with `data.update(item)` for each
      truthy argument; no argument is changed (they are values here). */
  method Merge(items: seq<Option<Mapping>>) returns (data: Mapping)
    ensures data == Merged(items)
  {
    data := map[];
    var i := 0;
    while i < |items|
      invariant 0 <= i <= |items|
      invariant data == Merged(items[..i])
    {
      var item := items[i];
      if item.Some? && item.value != map[] {
        data := data + item.value;
      }
      assert items[..i + 1][..i] == items[..i];
      i := i + 1;
    }
    assert items[..|items|] == items;
  }

  /** The keys of the merge are exactly the keys of its arguments; `None`
      supplies none. */
  lemma {:induction false} MergedKeys(items: seq<Option<Mapping>>, k: string)
    ensures k in Merged(items) <==> exists j :: 0 <= j < |items| && Has(items[j], k)
    decreases |items|
  {
    if items != [] {
      var init := items[..|items| - 1];
      MergedKeys(init, k);
      if k in Merged(items) && !Has(items[|items| - 1], k) {
        var j :| 0 <= j < |init| && Has(init[j], k);
        assert items[j] == init[j];
      }
      if exists j :: 0 <= j < |items| && Has(items[j], k) {
        var j :| 0 <= j < |items| && Has(items[j], k);
        if j < |init| {
          assert init[j] == items[j];
        }
      }
    }
  }

  /** Each key maps to its value in the last argument that supplies it. */
  lemma {:induction false} MergedLastWriter(items: seq<Option<Mapping>>, j: int, k: string)
    requires 0 <= j < |items| && LastWith(items, j, k)
    ensures k in Merged(items) && Merged(items)[k] == items[j].value[k]
    decreases |items|
  {
    var n := |items|;
    var init := items[..n - 1];
    if j < n - 1 {
      assert !Has(items[n - 1], k);
      assert init[j] == items[j];
      assert LastWith(init, j, k) by {
        forall j' | j < j' < |init| ensures !Has(init[j'], k) {
          assert init[j'] == items[j'];
        }
      }
      MergedLastWriter(init, j, k);
    } else {
      assert items[n - 1].value != map[] by {
        assert k in items[n - 1].value;
      }
    }
  }

  /** Merging in sequence order is associative: merging `a + b` is updating
      the merge of `a` with the merge of `b`. */
  lemma {:induction false} MergedConcat(a: seq<Option<Mapping>>, b: seq<Option<Mapping>>)
    ensures Merged(a + b) == Merged(a) + Merged(b)
    decreases |b|
  {
    if b == [] {
      assert a + b == a;
      assert Merged(a) + map[] == Merged(a);
    } else {
      var init := b[..|b| - 1];
      MergedConcat(a, init);
      assert (a + b)[..|a + b| - 1] == a + init;
      assert (a + b)[|a + b| - 1] == b[|b| - 1];
    }
  }

  /** Skipping a falsy argument is the same as updating with it: a present
      argument always acts as `dict.update`. */
  lemma MergedUpdate(items: seq<Option<Mapping>>, m: Mapping)
    ensures Merged(items + [Some(m)]) == Merged(items) + m
  {
    assert (items + [Some(m)])[..|items|] == items;
    assert m == map[] ==> Merged(items) + m == Merged(items);
  }

  /** Four present arguments merge as three successive updates. */
  lemma MergedUpdate4(d: Mapping, m: Mapping, c: Mapping, f: Mapping)
    ensures Merged([Some(d), Some(m), Some(c), Some(f)]) == d + m + c + f
  {
    var none: seq<Option<Mapping>> := [];
    MergedUpdate(none, d);
    assert none + [Some(d)] == [Some(d)];
    assert Merged(none) + d == d;
    MergedUpdate([Some(d)], m);
    assert [Some(d)] + [Some(m)] == [Some(d), Some(m)];
    MergedUpdate([Some(d), Some(m)], c);
    assert [Some(d), Some(m)] + [Some(c)] == [Some(d), Some(m), Some(c)];
    MergedUpdate([Some(d), Some(m), Some(c)], f);
    assert [Some(d), Some(m), Some(c)] + [Some(f)] == [Some(d), Some(m), Some(c), Some(f)];
  }

  /** Re-merging a merge as the first argument changes nothing:
      `_merge(_merge(*a), *b) == _merge(*a, *b)`. */
  lemma MergedRegroup(a: seq<Option<Mapping>>, b: seq<Option<Mapping>>)
    ensures Merged([Some(Merged(a))] + b) == Merged(a + b)
  {
    MergedConcat(a, b);
    MergedConcat([Some(Merged(a))], b);
    assert [Some(Merged(a))][..0] == [];
    assert Merged([Some(Merged(a))]) == Merged(a) by {
      assert Merged(a) == map[] ==> map[] + Merged(a) == Merged(a);
      assert map[] + Merged(a) == Merged(a);
    }
  }

  /** A falsy argument (`None` or `{}`) anywhere in the sequence contributes nothing. */
  lemma MergedSkipsFalsy(a: seq<Option<Mapping>>, item: Option<Mapping>, b: seq<Option<Mapping>>)
    requires !Truthy(item)
    ensures Merged(a + [item] + b) == Merged(a + b)
  {
    MergedConcat(a + [item], b);
    MergedConcat(a, [item]);
    MergedConcat(a, b);
    assert [item][..0] == [];
    assert Merged(a) + map[] == Merged(a);
  }

  /** Every argument wrapped as present (`Some`). */
  function Somes(ms: seq<Mapping>): (items: seq<Option<Mapping>>)
    ensures |items| == |ms|
    ensures forall i :: 0 <= i < |ms| ==> items[i] == Some(ms[i])
  {
    seq(|ms|, i requires 0 <= i < |ms| => Some(ms[i]))
  }

  lemma SomesConcat(x: seq<Mapping>, y: seq<Mapping>)
    ensures Somes(x + y) == Somes(x) + Somes(y)
  {
  }

  lemma SomesWithEmpty(x: seq<Mapping>, y: seq<Mapping>)
    ensures Somes(x + [map[]] + y) == Somes(x) + [Some(map[])] + Somes(y)
  {
    var e: seq<Mapping> := [map[]];
    SomesConcat(x + e, y);
    SomesConcat(x, e);
    assert Somes(e) == [Some(map[])];
  }

  /** Five present arguments merge as four successive updates. */
  lemma MergedUpdate5(d: Mapping, m: Mapping, c: Mapping, f: Mapping, p: Mapping)
    ensures Merged([Some(d), Some(m), Some(c), Some(f), Some(p)]) == d + m + c + f + p
  {
    MergedUpdate4(d, m, c, f);
    MergedUpdate([Some(d), Some(m), Some(c), Some(f)], p);
    assert [Some(d), Some(m), Some(c), Some(f)] + [Some(p)] == [Some(d), Some(m), Some(c), Some(f), Some(p)];
  }
}
