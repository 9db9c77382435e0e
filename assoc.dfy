/**
 * An insertion-ordered association list with the semantics of a JavaScript
 * `Map` (and of the string-keyed properties of a plain object): `set` on a key
 * that is already present replaces its value in place, so the key keeps the
 * position of its first insertion; `set` on a new key appends it.
 */
module AssocList {
  import opened Wrappers

  function Keys<K, V>(m: seq<(K, V)>): (ks: seq<K>)
    ensures |ks| == |m|
    ensures forall i :: 0 <= i < |m| ==> ks[i] == m[i].0
  {
    seq(|m|, i requires 0 <= i < |m| => m[i].0)
  }

  predicate Distinct<K(==)>(ks: seq<K>) {
    forall i, j :: 0 <= i < j < |ks| ==> ks[i] != ks[j]
  }

  /** `m.get(k)`: the value of the first entry with key `k`, if any. */
  function Get<K(==), V>(m: seq<(K, V)>, k: K): (r: Option<V>)
    ensures r.None? <==> k !in Keys(m)
    ensures r.Some? ==> (k, r.value) in m
  {
    if m == [] then None
    else if m[0].0 == k then Some(m[0].1)
    else
      assert Keys(m) == [m[0].0] + Keys(m[1..]);
      Get(m[1..], k)
  }

  /** With distinct keys, `get` finds every entry. */
  lemma {:induction false} GetEntry<K, V>(m: seq<(K, V)>, i: nat)
    requires Distinct(Keys(m)) && i < |m|
    ensures Get(m, m[i].0) == Some(m[i].1)
  {
    if i > 0 {
      assert Keys(m[1..]) == Keys(m)[1..];
      assert m[0].0 != m[i].0 by { assert Keys(m)[0] != Keys(m)[i]; }
      GetEntry(m[1..], i - 1);
    }
  }

  /** The keys of a list with one more entry in front. */
  lemma KeysCons<K, V>(x: (K, V), m: seq<(K, V)>)
    ensures Keys([x] + m) == [x.0] + Keys(m)
  {
  }

  /** The keys of two lists one after the other. */
  lemma KeysAppend<K, V>(a: seq<(K, V)>, b: seq<(K, V)>)
    ensures Keys(a + b) == Keys(a) + Keys(b)
  {
  }

  /** `m.set(k, v)`. */
  function Set<K(==), V>(m: seq<(K, V)>, k: K, v: V): (r: seq<(K, V)>)
    ensures Keys(r) == if k in Keys(m) then Keys(m) else Keys(m) + [k]
  {
    if m == [] then [(k, v)]
    else
      assert m == [m[0]] + m[1..];
      KeysCons(m[0], m[1..]);
      if m[0].0 == k then
        KeysCons((k, v), m[1..]);
        [(k, v)] + m[1..]
      else
        var rest := Set(m[1..], k, v);
        KeysCons(m[0], rest);
        [m[0]] + rest
  }

  /** After `m.set(k, v)`, `get(k)` gives `v` and every other key keeps its value. */
  lemma {:induction false} SetGet<K, V>(m: seq<(K, V)>, k: K, v: V, k': K)
    ensures Get(Set(m, k, v), k') == if k' == k then Some(v) else Get(m, k')
  {
    if m != [] && m[0].0 != k {
      SetGet(m[1..], k, v, k');
    }
  }

  /** `set` on a key that is not present appends the entry. */
  lemma {:induction false} SetFresh<K, V>(m: seq<(K, V)>, k: K, v: V)
    requires k !in Keys(m)
    ensures Set(m, k, v) == m + [(k, v)]
  {
    if m != [] {
      assert Keys(m) == [m[0].0] + Keys(m[1..]);
      SetFresh(m[1..], k, v);
      assert m == [m[0]] + m[1..];
    }
  }

  /** Setting the same key to the same value twice is the same as setting it once. */
  lemma {:induction false} SetIdempotent<K, V>(m: seq<(K, V)>, k: K, v: V)
    ensures Set(Set(m, k, v), k, v) == Set(m, k, v)
  {
    if m != [] && m[0].0 != k {
      SetIdempotent(m[1..], k, v);
      assert Set(m, k, v)[1..] == Set(m[1..], k, v);
    }
  }

  /** Setting a key to the value it already has changes nothing. */
  lemma {:induction false} SetUnchanged<K, V>(m: seq<(K, V)>, k: K, v: V)
    requires Get(m, k) == Some(v)
    ensures Set(m, k, v) == m
  {
    assert m == [m[0]] + m[1..];
    if m[0].0 != k {
      assert Get(m[1..], k) == Some(v);
      SetUnchanged(m[1..], k, v);
      assert Set(m, k, v) == [m[0]] + Set(m[1..], k, v);
    } else {
      assert m[0] == (k, v);
    }
  }

  /** One more `set` extends a run of `set`s by the next entry. */
  lemma SetAllSnoc<K, V>(m: seq<(K, V)>, es: seq<(K, V)>, j: nat)
    requires j < |es|
    ensures SetAll(m, es[..j + 1]) == Set(SetAll(m, es[..j]), es[j].0, es[j].1)
  {
    assert es[..j + 1][..j] == es[..j];
  }

  lemma SetAllSnocAt<K, V>(m: seq<(K, V)>, es: seq<(K, V)>, j: nat, k: K, v: V)
    requires j < |es| && es[j] == (k, v)
    ensures SetAll(m, es[..j + 1]) == Set(SetAll(m, es[..j]), k, v)
  {
    SetAllSnoc(m, es, j);
  }

  /** The map after `m.set(k, v)` for every entry `(k, v)` of `es`, in order. */
  function SetAll<K(==), V>(m: seq<(K, V)>, es: seq<(K, V)>): seq<(K, V)>
  {
    if es == [] then m
    else Set(SetAll(m, es[..|es| - 1]), es[|es| - 1].0, es[|es| - 1].1)
  }

  /** The value of the last entry of `es` with key `k`. */
  function LastValue<K(==), V>(es: seq<(K, V)>, k: K): (r: Option<V>)
    ensures r.None? <==> k !in Keys(es)
    ensures r.Some? ==> exists i :: 0 <= i < |es| && es[i] == (k, r.value) && forall j :: i < j < |es| ==> es[j].0 != k
  {
    if es == [] then None
    else if es[|es| - 1].0 == k then Some(es[|es| - 1].1)
    else
      assert Keys(es) == Keys(es[..|es| - 1]) + [es[|es| - 1].0];
      LastValue(es[..|es| - 1], k)
  }

  /** The position of the first occurrence of `k` in `ks`. */
  function FirstIndex<K(==)>(ks: seq<K>, k: K): (i: nat)
    requires k in ks
    ensures i < |ks| && ks[i] == k && k !in ks[..i]
  {
    if ks[0] == k then 0 else FirstIndex(ks[1..], k) + 1
  }

  lemma {:induction false} SetAllAppend<K, V>(m: seq<(K, V)>, a: seq<(K, V)>, b: seq<(K, V)>)
    ensures SetAll(m, a + b) == SetAll(SetAll(m, a), b)
  {
    if b == [] {
      assert a + b == a;
    } else {
      assert (a + b)[..|a + b| - 1] == a + b[..|b| - 1];
      SetAllAppend(m, a, b[..|b| - 1]);
    }
  }

  /** Last writer wins: a key set by `es` holds the value of its last entry; other keys keep their value. */
  lemma {:induction false} SetAllGet<K, V>(m: seq<(K, V)>, es: seq<(K, V)>, k: K)
    ensures Get(SetAll(m, es), k) == if k in Keys(es) then LastValue(es, k) else Get(m, k)
  {
    if es != [] {
      var init := es[..|es| - 1];
      assert Keys(es) == Keys(init) + [es[|es| - 1].0];
      SetAllGet(m, init, k);
      SetGet(SetAll(m, init), es[|es| - 1].0, es[|es| - 1].1, k);
    }
  }

  /** The keys of the map are those of `m` followed by the new keys of `es`, each once. */
  lemma {:induction false} SetAllKeys<K, V>(m: seq<(K, V)>, es: seq<(K, V)>)
    requires Distinct(Keys(m))
    ensures Distinct(Keys(SetAll(m, es)))
    ensures forall k :: k in Keys(SetAll(m, es)) <==> k in Keys(m) || k in Keys(es)
  {
    if es != [] {
      var init := es[..|es| - 1];
      assert Keys(es) == Keys(init) + [es[|es| - 1].0];
      SetAllKeys(m, init);
    }
  }

  /** The keys of `ks` in the order of their first occurrence, each once. */
  function Firsts<K(==)>(ks: seq<K>): (r: seq<K>)
    ensures Distinct(r)
    ensures forall i :: 0 <= i < |r| ==> r[i] in ks
    ensures forall i :: 0 <= i < |ks| ==> ks[i] in r
  {
    if ks == [] then []
    else
      var f := Firsts(ks[..|ks| - 1]);
      assert ks == ks[..|ks| - 1] + [ks[|ks| - 1]];
      if ks[|ks| - 1] in f then f else f + [ks[|ks| - 1]]
  }

  lemma {:induction false} SetAllKeysFirsts<K, V>(es: seq<(K, V)>)
    ensures Keys(SetAll([], es)) == Firsts(Keys(es))
  {
    if es != [] {
      var init := es[..|es| - 1];
      assert Keys(es)[..|es| - 1] == Keys(init);
      SetAllKeysFirsts(init);
    }
  }

  /** In `Firsts(ks)` a key stands before another exactly when its first occurrence in `ks` comes first. */
  lemma {:induction false} FirstsOrder<K>(ks: seq<K>, i: nat, j: nat)
    requires i < j < |Firsts(ks)|
    ensures FirstIndex(ks, Firsts(ks)[i]) < FirstIndex(ks, Firsts(ks)[j])
  {
    var init := ks[..|ks| - 1];
    var x := ks[|ks| - 1];
    var f := Firsts(init);
    assert ks == init + [x];
    var a, b := Firsts(ks)[i], Firsts(ks)[j];
    assert a in f && a in init by { assert Firsts(ks)[i] == f[i]; }
    FirstIndexPrefix(init, [x], a);
    if j < |f| {
      assert b == f[j] && b in init;
      FirstIndexPrefix(init, [x], b);
      FirstsOrder(init, i, j);
    } else {
      assert b == x && x !in init;
      FirstIndexLast(init, x);
    }
  }

  /** A key first met at the end of a sequence has its first occurrence there. */
  lemma FirstIndexLast<K>(a: seq<K>, k: K)
    requires k !in a
    ensures FirstIndex(a + [k], k) == |a|
  {
  }

  /**
   * First insertion fixes the order: in a map built from the empty one, a key
   * stands before another exactly when its first entry in `es` comes first.
   */
  lemma SetAllOrder<K, V>(es: seq<(K, V)>, i: nat, j: nat)
    requires i < j < |SetAll([], es)|
    ensures SetAll([], es)[i].0 in Keys(es) && SetAll([], es)[j].0 in Keys(es)
    ensures FirstIndex(Keys(es), SetAll([], es)[i].0) < FirstIndex(Keys(es), SetAll([], es)[j].0)
  {
    var ix := SetAll([], es);
    SetAllKeysFirsts(es);
    assert Keys(ix)[i] == ix[i].0 && Keys(ix)[j] == ix[j].0;
    FirstsOrder(Keys(es), i, j);
  }

  /** A key met in the first part of a sequence has its first occurrence there. */
  lemma {:induction false} FirstIndexPrefix<K>(a: seq<K>, b: seq<K>, k: K)
    requires k in a
    ensures k in a + b && FirstIndex(a + b, k) == FirstIndex(a, k) < |a|
  {
    if a[0] != k {
      assert (a + b)[1..] == a[1..] + b;
      FirstIndexPrefix(a[1..], b, k);
    }
  }

  lemma {:induction false} LastValueAppend<K, V>(a: seq<(K, V)>, b: seq<(K, V)>, k: K)
    ensures LastValue(a + b, k) == if k in Keys(b) then LastValue(b, k) else LastValue(a, k)
  {
    if b != [] {
      assert (a + b)[..|a + b| - 1] == a + b[..|b| - 1];
      assert Keys(b) == Keys(b[..|b| - 1]) + [b[|b| - 1].0];
      LastValueAppend(a, b[..|b| - 1], k);
    } else {
      assert a + b == a;
    }
  }

  /** Every entry of `m.set(k, v)` is an entry of `m` or the new one. */
  lemma {:induction false} SetEntries<K, V>(m: seq<(K, V)>, k: K, v: V, e: (K, V))
    requires e in Set(m, k, v)
    ensures e in m || e == (k, v)
  {
    if m != [] && m[0].0 != k && e != m[0] {
      SetEntries(m[1..], k, v, e);
    }
  }

  /** Every entry of the map after the updates `es` comes from `m` or from `es`. */
  lemma {:induction false} SetAllEntries<K, V>(m: seq<(K, V)>, es: seq<(K, V)>, e: (K, V))
    requires e in SetAll(m, es)
    ensures e in m || e in es
  {
    if es != [] {
      var init := es[..|es| - 1];
      SetEntries(SetAll(m, init), es[|es| - 1].0, es[|es| - 1].1, e);
      if e in SetAll(m, init) {
        SetAllEntries(m, init, e);
      }
    }
  }
}
