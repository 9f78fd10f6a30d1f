// The JavaScript `Map` built-in as a value: its entries in insertion order.
module JsMaps {
  import opened Wrappers

  /** A `Map` whose `entries()` are `entries`; a well-formed one lists each key once. */
  datatype JsMap<K, V> = JsMap(entries: seq<(K, V)>)

  predicate UniqueKeys<K(==), V>(m: JsMap<K, V>) {
    forall i, j :: 0 <= i < j < |m.entries| ==> m.entries[i].0 != m.entries[j].0
  }

  predicate HasKey<K(==), V>(m: JsMap<K, V>, k: K) {
    exists i :: 0 <= i < |m.entries| && m.entries[i].0 == k
  }

  /** Position of the first entry with key `k`. */
  function IndexOf<K(==), V>(es: seq<(K, V)>, k: K): (r: Option<nat>)
    ensures r.Some? ==> r.value < |es| && es[r.value].0 == k
    ensures r.Some? ==> forall i :: 0 <= i < r.value ==> es[i].0 != k
    ensures r.None? ==> forall i :: 0 <= i < |es| ==> es[i].0 != k
  {
    if |es| == 0 then None
    else if es[0].0 == k then Some(0)
    else match IndexOf(es[1..], k)
      case None => None
      case Some(i) => Some(i + 1)
  }

  lemma IndexOfIs<K, V>(es: seq<(K, V)>, k: K, p: nat)
    requires p < |es| && es[p].0 == k && forall i :: 0 <= i < p ==> es[i].0 != k
    ensures IndexOf(es, k) == Some(p)
  {
    var r := IndexOf(es, k);
    if r.Some? {
      assert !(r.value < p) && !(p < r.value);
    }
  }

  /** `m.get(k)`. */
  function Get<K(==), V>(m: JsMap<K, V>, k: K): Option<V> {
    match IndexOf(m.entries, k)
    case None => None
    case Some(i) => Some(m.entries[i].1)
  }

  /** `m.set(k, v)`: an existing key keeps its position, a new key goes last. */
  function Set<K(==), V>(m: JsMap<K, V>, k: K, v: V): JsMap<K, V> {
    match IndexOf(m.entries, k)
    case None => JsMap(m.entries + [(k, v)])
    case Some(i) => JsMap(m.entries[i := (k, v)])
  }

  /** `new Map(entries)`: the entries set one after another. */
  function FromEntries<K(==), V>(es: seq<(K, V)>): JsMap<K, V> {
    if |es| == 0 then JsMap([]) else Set(FromEntries(es[..|es| - 1]), es[|es| - 1].0, es[|es| - 1].1)
  }

  lemma SetGet<K, V>(m: JsMap<K, V>, k: K, v: V, j: K)
    ensures Get(Set(m, k, v), j) == if j == k then Some(v) else Get(m, j)
  {
    var es := m.entries;
    var es' := Set(m, k, v).entries;
    match IndexOf(es, k)
    case None =>
      assert es' == es + [(k, v)];
      if j == k {
        IndexOfIs(es', j, |es|);
      } else {
        match IndexOf(es, j)
        case None => assert IndexOf(es', j) == None;
        case Some(p) => IndexOfIs(es', j, p);
      }
    case Some(i) =>
      assert es' == es[i := (k, v)];
      if j == k {
        IndexOfIs(es', j, i);
      } else {
        match IndexOf(es, j)
        case None => assert IndexOf(es', j) == None;
        case Some(p) => IndexOfIs(es', j, p);
      }
  }

  lemma SetKeepsUnique<K, V>(m: JsMap<K, V>, k: K, v: V)
    requires UniqueKeys(m)
    ensures UniqueKeys(Set(m, k, v))
  {
  }

  lemma {:induction false} GetOfUnique<K, V>(m: JsMap<K, V>, i: nat)
    requires UniqueKeys(m) && i < |m.entries|
    ensures Get(m, m.entries[i].0) == Some(m.entries[i].1)
  {
    var r := IndexOf(m.entries, m.entries[i].0);
    assert r.Some?;
    assert r.value == i;
  }

  /** `new Map(m.entries())` rebuilds a well-formed map exactly. */
  lemma {:induction false} FromEntriesOfUnique<K, V>(m: JsMap<K, V>)
    requires UniqueKeys(m)
    ensures FromEntries(m.entries) == m
    decreases |m.entries|
  {
    var es := m.entries;
    if |es| > 0 {
      var init := es[..|es| - 1];
      FromEntriesOfUnique(JsMap(init));
      assert IndexOf(init, es[|es| - 1].0) == None;
      assert init + [es[|es| - 1]] == es;
    }
  }
}
