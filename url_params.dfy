/** `URLSearchParams` as the core uses it: an ordered list of key/value pairs
    in which a key may occur several times. `delete(k)` removes every pair
    with key `k`; `set(k, v)` overwrites the first pair with key `k` and drops
    the later ones, or appends `(k, v)` when there is none. */
module UrlParams {

  datatype Pair = Pair(key: string, value: string)

  /** The values stored under `k`, in order (what `getAll(k)` returns). */
  function ValuesOf(ps: seq<Pair>, k: string): seq<string> {
    if ps == [] then []
    else (if ps[0].key == k then [ps[0].value] else []) + ValuesOf(ps[1..], k)
  }

  /** The pairs whose key is not in `ks`, in their original order. */
  function Without(ps: seq<Pair>, ks: set<string>): seq<Pair> {
    if ps == [] then []
    else (if ps[0].key in ks then [] else [ps[0]]) + Without(ps[1..], ks)
  }

  /** The list after `set(k, v)`. */
  function SetValue(ps: seq<Pair>, k: string, v: string): seq<Pair> {
    if ps == [] then [Pair(k, v)]
    else if ps[0].key == k then [Pair(k, v)] + Without(ps[1..], {k})
    else [ps[0]] + SetValue(ps[1..], k, v)
  }

  /** Removing a set of keys leaves no value under those keys and every other
      key's values exactly as they were. */
  lemma {:induction false} WithoutValues(ps: seq<Pair>, ks: set<string>, j: string)
    ensures ValuesOf(Without(ps, ks), j) == if j in ks then [] else ValuesOf(ps, j)
  {
    if ps != [] {
      WithoutValues(ps[1..], ks, j);
      var head := if ps[0].key in ks then [] else [ps[0]];
      assert Without(ps, ks) == head + Without(ps[1..], ks);
      ValuesOfAppend(head, Without(ps[1..], ks), j);
    }
  }

  lemma {:induction false} ValuesOfAppend(a: seq<Pair>, b: seq<Pair>, j: string)
    ensures ValuesOf(a + b, j) == ValuesOf(a, j) + ValuesOf(b, j)
  {
    if a == [] {
      assert a + b == b;
    } else {
      assert (a + b)[0] == a[0] && (a + b)[1..] == a[1..] + b;
      ValuesOfAppend(a[1..], b, j);
    }
  }

  lemma {:induction false} WithoutAppend(a: seq<Pair>, b: seq<Pair>, ks: set<string>)
    ensures Without(a + b, ks) == Without(a, ks) + Without(b, ks)
  {
    if a == [] {
      assert a + b == b;
    } else {
      assert (a + b)[0] == a[0] && (a + b)[1..] == a[1..] + b;
      WithoutAppend(a[1..], b, ks);
    }
  }

  /** Removing `a` and then `b` is removing both at once, in either order. */
  lemma {:induction false} WithoutWithout(ps: seq<Pair>, a: set<string>, b: set<string>)
    ensures Without(Without(ps, a), b) == Without(ps, a + b)
  {
    if ps != [] {
      WithoutWithout(ps[1..], a, b);
      var head := if ps[0].key in a then [] else [ps[0]];
      WithoutAppend(head, Without(ps[1..], a), b);
    }
  }

  /** Removing keys that do not occur changes nothing. */
  lemma {:induction false} WithoutAbsent(ps: seq<Pair>, ks: set<string>)
    requires forall i :: 0 <= i < |ps| ==> ps[i].key !in ks
    ensures Without(ps, ks) == ps
  {
    if ps != [] {
      WithoutAbsent(ps[1..], ks);
    }
  }

  /** After `set(k, v)` the key `k` holds exactly the one value `v`, and every
      other key holds exactly what it held before. */
  lemma {:induction false} SetValueValues(ps: seq<Pair>, k: string, v: string, j: string)
    ensures ValuesOf(SetValue(ps, k, v), j) == if j == k then [v] else ValuesOf(ps, j)
  {
    if ps == [] {
    } else if ps[0].key == k {
      WithoutValues(ps[1..], {k}, j);
      ValuesOfAppend([Pair(k, v)], Without(ps[1..], {k}), j);
    } else {
      SetValueValues(ps[1..], k, v, j);
      ValuesOfAppend([ps[0]], SetValue(ps[1..], k, v), j);
    }
  }

  /** `set(k, v)` does not disturb the other pairs: once the keys in `ks`
      (which include `k`) are removed, the list is as it was before, so every
      other pair keeps its value and its position relative to the rest. */
  lemma {:induction false} SetValueKeepsOthers(ps: seq<Pair>, k: string, v: string, ks: set<string>)
    requires k in ks
    ensures Without(SetValue(ps, k, v), ks) == Without(ps, ks)
  {
    if ps == [] {
    } else if ps[0].key == k {
      WithoutAppend([Pair(k, v)], Without(ps[1..], {k}), ks);
      WithoutWithout(ps[1..], {k}, ks);
      assert {k} + ks == ks;
    } else {
      SetValueKeepsOthers(ps[1..], k, v, ks);
      WithoutAppend([ps[0]], SetValue(ps[1..], k, v), ks);
    }
  }

  /** When `k` is absent, `set(k, v)` appends the pair at the end. */
  lemma {:induction false} SetValueAppends(ps: seq<Pair>, k: string, v: string)
    requires forall i :: 0 <= i < |ps| ==> ps[i].key != k
    ensures SetValue(ps, k, v) == ps + [Pair(k, v)]
  {
    if ps != [] {
      SetValueAppends(ps[1..], k, v);
      assert ps == [ps[0]] + ps[1..];
    }
  }

  /** When `f` is the first position holding `k`, `set(k, v)` overwrites the
      pair there and drops the later `k` pairs; the pairs before `f` stay. */
  lemma {:induction false} SetValueReplacesFirst(ps: seq<Pair>, k: string, v: string, f: nat)
    requires f < |ps| && ps[f].key == k
    requires forall i :: 0 <= i < f ==> ps[i].key != k
    ensures SetValue(ps, k, v) == ps[..f] + [Pair(k, v)] + Without(ps[f + 1..], {k})
  {
    if f > 0 {
      var tail := ps[1..];
      assert tail[f - 1] == ps[f];
      SetValueReplacesFirst(tail, k, v, f - 1);
      assert tail[..f - 1] == ps[1..f];
      assert tail[f..] == ps[f + 1..];
      assert ps[..f] == [ps[0]] + ps[1..f];
    }
  }

  /** A mutable `URLSearchParams` object. */
  class ParamList {
    var pairs: seq<Pair>

    /** `new URLSearchParams(init)`: a copy of the given pairs. */
    constructor (init: seq<Pair>)
      ensures pairs == init
    {
      pairs := init;
    }

    /** `delete(k)` */
    method Delete(k: string)
      modifies this
      ensures pairs == Without(old(pairs), {k})
      ensures forall j :: ValuesOf(pairs, j) == if j == k then [] else ValuesOf(old(pairs), j)
    {
      pairs := Without(pairs, {k});
      forall j ensures ValuesOf(pairs, j) == if j == k then [] else ValuesOf(old(pairs), j) {
        WithoutValues(old(pairs), {k}, j);
      }
    }

    /** `set(k, v)` */
    method Set(k: string, v: string)
      modifies this
      ensures pairs == SetValue(old(pairs), k, v)
      ensures forall j :: ValuesOf(pairs, j) == if j == k then [v] else ValuesOf(old(pairs), j)
    {
      pairs := SetValue(pairs, k, v);
      forall j ensures ValuesOf(pairs, j) == if j == k then [v] else ValuesOf(old(pairs), j) {
        SetValueValues(old(pairs), k, v, j);
      }
    }
  }
}
