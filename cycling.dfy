/**
 * The list branch of `get_data`: `islice(zip_longest(*map(cycle, layers)), max_len)`
 * followed by one `_merge` per tuple. The iterators are modelled by their
 * positions: a `cycle` over a non-empty list yields its elements in turn and
 * starts over after the last; a `cycle` over an empty list is exhausted at
 * once, and `zip_longest` fills its place with `None`.
 */
module Cycling {
  import opened Values
  import opened Helpers

  /** One list-shaped layer: a list of dicts. */
  type Layer = seq<Mapping>

  /** `max(map(len, layers))`. */
  function MaxLen(layers: seq<Layer>): (n: nat)
    requires |layers| > 0
    ensures forall j :: 0 <= j < |layers| ==> |layers[j]| <= n
    ensures exists j :: 0 <= j < |layers| && |layers[j]| == n
    decreases |layers|
  {
    if |layers| == 1 then |layers[0]|
    else
      var rest := MaxLen(layers[1..]);
      assert forall j :: 1 <= j < |layers| ==> layers[j] == layers[1..][j - 1];
      if |layers[0]| >= rest then |layers[0]| else rest
  }

  /** The positions of the `cycle` iterators, one per layer: the index of the
      element each yields next (0 for an empty layer). */
  predicate ValidCursors(layers: seq<Layer>, cursors: seq<nat>) {
    && |cursors| == |layers|
    && forall j :: 0 <= j < |layers| ==>
         if |layers[j]| == 0 then cursors[j] == 0 else cursors[j] < |layers[j]|
  }

  /** Every iterator at the start of its list. */
  function Zeros(n: nat): (c: seq<nat>)
    ensures |c| == n && forall j :: 0 <= j < n ==> c[j] == 0
  {
    seq(n, j => 0)
  }

  /** The next tuple of `zip_longest`: each cycle's next element, or `None`
      for an exhausted one. */
  function Tuple(layers: seq<Layer>, cursors: seq<nat>): (t: seq<Option<Mapping>>)
    requires ValidCursors(layers, cursors)
  {
    seq(|layers|, j requires 0 <= j < |layers| =>
      if |layers[j]| == 0 then None else Some(layers[j][cursors[j]]))
  }

  /** The positions after every cycle has yielded once. */
  function Advance(layers: seq<Layer>, cursors: seq<nat>): (c: seq<nat>)
    requires ValidCursors(layers, cursors)
    ensures ValidCursors(layers, c)
  {
    seq(|layers|, j requires 0 <= j < |layers| =>
      if |layers[j]| == 0 || cursors[j] + 1 == |layers[j]| then 0 else cursors[j] + 1)
  }

  /** `islice(zip_longest(...), n)` from the given positions. */
  function Zip(layers: seq<Layer>, cursors: seq<nat>, n: nat): (rows: seq<seq<Option<Mapping>>>)
    requires ValidCursors(layers, cursors)
    ensures |rows| == n
    decreases n
  {
    if n == 0 then []
    else [Tuple(layers, cursors)] + Zip(layers, Advance(layers, cursors), n - 1)
  }

  /** The positions after `k` tuples. */
  function After(layers: seq<Layer>, cursors: seq<nat>, k: nat): (c: seq<nat>)
    requires ValidCursors(layers, cursors)
    ensures ValidCursors(layers, c)
    decreases k
  {
    if k == 0 then cursors else Advance(layers, After(layers, cursors, k - 1))
  }

  /** What index `i` takes from the layers, by the cyclic-alignment rule:
      each non-empty layer its element at `i mod len`, an empty layer nothing. */
  function Column(layers: seq<Layer>, i: nat): seq<Option<Mapping>> {
    seq(|layers|, j requires 0 <= j < |layers| =>
      if |layers[j]| == 0 then None else Some(layers[j][i % |layers[j]|]))
  }

  /** `[_merge(*datas) for datas in islice(zip_longest(*map(cycle, layers)), max_len)]`. */
  function Aligned(layers: seq<Layer>): (rows: seq<Mapping>)
    requires |layers| > 0
    ensures |rows| == MaxLen(layers)
  {
    var rows := Zip(layers, Zeros(|layers|), MaxLen(layers));
    seq(|rows|, k requires 0 <= k < |rows| => Merged(rows[k]))
  }

  lemma {:induction false} AdvanceAfter(layers: seq<Layer>, cursors: seq<nat>, m: nat)
    requires ValidCursors(layers, cursors)
    ensures After(layers, Advance(layers, cursors), m) == Advance(layers, After(layers, cursors, m))
    decreases m
  {
    if m > 0 {
      AdvanceAfter(layers, cursors, m - 1);
    }
  }

  /** Tuple `k` of the zip is read at the positions reached after `k` tuples. */
  lemma {:induction false} ZipAt(layers: seq<Layer>, cursors: seq<nat>, n: nat, k: nat)
    requires ValidCursors(layers, cursors) && k < n
    ensures |Zip(layers, cursors, n)| == n
    ensures Zip(layers, cursors, n)[k] == Tuple(layers, After(layers, cursors, k))
    decreases n
  {
    if k > 0 {
      ZipAt(layers, Advance(layers, cursors), n - 1, k - 1);
      AdvanceAfter(layers, cursors, k - 1);
    }
  }

  /** One step of a cycle over a list of length `len`, in terms of `mod`. */
  lemma ModStep(k: nat, len: nat)
    requires len > 0
    ensures (k + 1) % len == if k % len + 1 == len then 0 else k % len + 1
  {
    var q, r := k / len, k % len;
    assert k == q * len + r;
    if r + 1 == len {
      assert k + 1 == (q + 1) * len;
      ModOfMultiple(q + 1, len);
    } else {
      ModUnique(k + 1, len, q, r + 1);
    }
  }

  lemma ModOfMultiple(q: nat, len: nat)
    requires len > 0
    ensures (q * len) % len == 0
  {
    ModUnique(q * len, len, q, 0);
  }

  lemma ModUnique(x: nat, len: nat, q: nat, r: nat)
    requires len > 0 && r < len && x == q * len + r
    ensures x % len == r
  {
    var q', r' := x / len, x % len;
    assert (q - q') * len == r' - r by {
      assert x == q' * len + r';
    }
    ZeroMultiple(q - q', len, r' - r);
  }

  lemma ModSmall(i: nat, len: nat)
    requires i < len
    ensures i % len == i
  {
    ModUnique(i, len, 0, i);
  }

  /** A multiple of `len` strictly between `-len` and `len` is zero. */
  lemma ZeroMultiple(d: int, len: int, m: int)
    requires len > 0 && m == d * len && -len < m < len
    ensures d == 0
  {
  }

  /** After `k` tuples from the start, a cycle over a list of length `len`
      is at position `k mod len`. */
  lemma {:induction false} AfterZeros(layers: seq<Layer>, k: nat, j: nat)
    requires j < |layers| && |layers[j]| > 0
    ensures After(layers, Zeros(|layers|), k)[j] == k % |layers[j]|
    decreases k
  {
    if k > 0 {
      AfterZeros(layers, k - 1, j);
      ModStep(k - 1, |layers[j]|);
    }
  }

  /** The zip over cycles from the start is the cyclic-alignment rule. */
  lemma ZipIsColumn(layers: seq<Layer>, n: nat, i: nat)
    requires i < n
    ensures |Zip(layers, Zeros(|layers|), n)| == n
    ensures Zip(layers, Zeros(|layers|), n)[i] == Column(layers, i)
  {
    var zeros := Zeros(|layers|);
    ZipAt(layers, zeros, n, i);
    var c := After(layers, zeros, i);
    forall j | 0 <= j < |layers| && |layers[j]| > 0
      ensures c[j] == i % |layers[j]|
    {
      AfterZeros(layers, i, j);
    }
    assert Tuple(layers, c) == Column(layers, i);
  }

  /** Dict `k` of the list branch merges the tuple read after `k` tuples. */
  lemma AlignedAt(layers: seq<Layer>, k: nat)
    requires |layers| > 0 && k < MaxLen(layers)
    ensures |Aligned(layers)| == MaxLen(layers)
    ensures Aligned(layers)[k] == Merged(Tuple(layers, After(layers, Zeros(|layers|), k)))
  {
    ZipAt(layers, Zeros(|layers|), MaxLen(layers), k);
  }

  /** The list branch: as many dicts as the longest layer, and dict `i`
      merges, in layer order, each non-empty layer's element at `i mod len`. */
  lemma AlignedSpec(layers: seq<Layer>)
    requires |layers| > 0
    ensures |Aligned(layers)| == MaxLen(layers)
    ensures forall i :: 0 <= i < |Aligned(layers)| ==> Aligned(layers)[i] == Merged(Column(layers, i))
  {
    var zeros := Zeros(|layers|);
    forall i | 0 <= i < MaxLen(layers)
      ensures Aligned(layers)[i] == Merged(Column(layers, i))
    {
      ZipIsColumn(layers, MaxLen(layers), i);
    }
  }
}
