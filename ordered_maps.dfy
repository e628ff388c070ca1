/** JavaScript's `Map<string, V>`: a finite map that remembers the order in which
    its keys were first inserted, so that iterating over `values()` is
    deterministic. It is represented by its entries in iteration order.
    `set` on a key already present replaces that entry in place; on a new key it
    appends an entry. */
module OrderedMaps {
  import opened Wrappers

  datatype Entry<V> = Entry(key: string, value: V)

  type OMap<V> = seq<Entry<V>>

  function Empty<V>(): OMap<V> {
    []
  }

  /** `m.get(k)`: `undefined` when the key is absent. */
  function Get<V>(m: OMap<V>, k: string): Option<V>
  {
    if m == [] then None
    else if m[0].key == k then Some(m[0].value)
    else Get(m[1..], k)
  }

  /** `m.get(k) ?? d`. */
  function GetOr<V>(m: OMap<V>, k: string, d: V): V
  {
    match Get(m, k)
    case Some(v) => v
    case None => d
  }

  /** `m.set(k, v)`. */
  function Set<V>(m: OMap<V>, k: string, v: V): OMap<V>
  {
    if m == [] then [Entry(k, v)]
    else if m[0].key == k then [Entry(k, v)] + m[1..]
    else [m[0]] + Set(m[1..], k, v)
  }

  /** `[...m.keys()]`. */
  function Keys<V>(m: OMap<V>): (r: seq<string>)
    ensures |r| == |m|
    ensures forall i :: 0 <= i < |m| ==> r[i] == m[i].key
  {
    seq(|m|, i requires 0 <= i < |m| => m[i].key)
  }

  /** `[...m.values()]`. */
  function Values<V>(m: OMap<V>): (r: seq<V>)
    ensures |r| == |m|
    ensures forall i :: 0 <= i < |m| ==> r[i] == m[i].value
  {
    seq(|m|, i requires 0 <= i < |m| => m[i].value)
  }

  /** After `set`, the key maps to the new value and every other key keeps its own. */
  lemma {:induction false} GetSet<V>(m: OMap<V>, k: string, v: V, k': string)
    ensures Get(Set(m, k, v), k') == if k' == k then Some(v) else Get(m, k')
  {
    if m != [] && m[0].key != k {
      GetSet(m[1..], k, v, k');
      assert Set(m, k, v)[1..] == Set(m[1..], k, v);
    }
  }

  /** `set` adds an entry exactly when the key was absent; otherwise the
      iteration order is untouched. */
  lemma {:induction false} SetKeys<V>(m: OMap<V>, k: string, v: V)
    ensures Get(m, k).Some? ==> Keys(Set(m, k, v)) == Keys(m)
    ensures Get(m, k).None? ==> Keys(Set(m, k, v)) == Keys(m) + [k]
  {
    if m != [] && m[0].key != k {
      SetKeys(m[1..], k, v);
      assert Keys(Set(m, k, v)) == [m[0].key] + Keys(Set(m[1..], k, v));
      assert Keys(m) == [m[0].key] + Keys(m[1..]);
    }
  }

  /** The total length of a sequence of lists. */
  function SumLengths<T>(vs: seq<seq<T>>): nat
  {
    if vs == [] then 0 else |vs[0]| + SumLengths(vs[1..])
  }

  lemma {:induction false} SumLengthsAppend<T>(vs: seq<seq<T>>, ws: seq<seq<T>>)
    ensures SumLengths(vs + ws) == SumLengths(vs) + SumLengths(ws)
  {
    if vs == [] {
      assert vs + ws == ws;
    } else {
      SumLengthsAppend(vs[1..], ws);
      assert (vs + ws)[1..] == vs[1..] + ws;
    }
  }

  /** Setting one key changes the total length of all lists by exactly the
      difference between the new list and the one it replaces. */
  lemma {:induction false} SumLengthsSet<T>(m: OMap<seq<T>>, k: string, v: seq<T>)
    ensures SumLengths(Values(Set(m, k, v))) == SumLengths(Values(m)) - |GetOr(m, k, [])| + |v|
  {
    if m == [] {
      assert Values(Set(m, k, v)) == [v];
    } else if m[0].key == k {
      assert Values(Set(m, k, v)) == [v] + Values(m[1..]);
      assert Values(m) == [m[0].value] + Values(m[1..]);
    } else {
      SumLengthsSet(m[1..], k, v);
      assert Values(Set(m, k, v)) == [m[0].value] + Values(Set(m[1..], k, v));
      assert Values(m) == [m[0].value] + Values(m[1..]);
    }
  }
}
