/**
 * A JavaScript `Map`: key/value entries in insertion order. `set` on a key
 * already present replaces its value where it stands; on a new key it
 * appends. Iteration (`for … of map`) visits the entries in this order.
 */
module OrderedMaps {
  import opened Common

  datatype Entry<K, V> = Entry(key: K, value: V)

  predicate DistinctKeys<K(==), V>(es: seq<Entry<K, V>>) {
    forall i, j :: 0 <= i < j < |es| ==> es[i].key != es[j].key
  }

  function KeySet<K, V>(es: seq<Entry<K, V>>): set<K> {
    set i | 0 <= i < |es| :: es[i].key
  }

  lemma KeySetCons<K, V>(e: Entry<K, V>, es: seq<Entry<K, V>>)
    ensures KeySet([e] + es) == {e.key} + KeySet(es)
  {
    var s := [e] + es;
    forall x | x in KeySet(s) ensures x in {e.key} + KeySet(es) {
      var i :| 0 <= i < |s| && s[i].key == x;
      if i > 0 { assert es[i - 1].key == x; }
    }
    forall x | x in KeySet(es) ensures x in KeySet(s) {
      var i :| 0 <= i < |es| && es[i].key == x;
      assert s[i + 1].key == x;
    }
    assert s[0].key == e.key;
  }

  lemma DistinctCons<K, V>(e: Entry<K, V>, es: seq<Entry<K, V>>)
    requires DistinctKeys(es) && e.key !in KeySet(es)
    ensures DistinctKeys([e] + es)
  {
    var s := [e] + es;
    forall i, j | 0 <= i < j < |s| ensures s[i].key != s[j].key {
      if i == 0 { assert s[j].key == es[j - 1].key; }
    }
  }

  /** `map.get(k)`. */
  function Get<K(==), V>(es: seq<Entry<K, V>>, k: K): (r: Option<V>)
    ensures r.None? <==> k !in KeySet(es)
    ensures r.Some? ==> exists i :: 0 <= i < |es| && es[i] == Entry(k, r.value)
  {
    if es == [] then None
    else if es[0].key == k then Some(es[0].value)
    else
      var r := Get(es[1..], k);
      KeySetCons(es[0], es[1..]);
      assert [es[0]] + es[1..] == es;
      assert r.Some? ==> exists i :: 1 <= i < |es| && es[i] == Entry(k, r.value);
      r
  }

  /** `map.set(k, v)`. */
  function Put<K(==), V>(es: seq<Entry<K, V>>, k: K, v: V): (r: seq<Entry<K, V>>)
    ensures k in KeySet(es) ==> |r| == |es| && forall i :: 0 <= i < |es| ==> r[i].key == es[i].key
    ensures k !in KeySet(es) ==> r == es + [Entry(k, v)]
  {
    if es == [] then [Entry(k, v)]
    else if es[0].key == k then [Entry(k, v)] + es[1..]
    else
      KeySetCons(es[0], es[1..]);
      assert [es[0]] + es[1..] == es;
      [es[0]] + Put(es[1..], k, v)
  }

  /** After `set`, the key maps to the new value and every other key is as before. */
  lemma {:induction false} PutGet<K, V>(es: seq<Entry<K, V>>, k: K, v: V, k': K)
    ensures Get(Put(es, k, v), k') == if k' == k then Some(v) else Get(es, k')
  {
    if es != [] && es[0].key != k {
      PutGet(es[1..], k, v, k');
    }
  }

  /** `set` adds the key and keeps the keys distinct. */
  lemma {:induction false} PutKeys<K, V>(es: seq<Entry<K, V>>, k: K, v: V)
    ensures KeySet(Put(es, k, v)) == KeySet(es) + {k}
    ensures DistinctKeys(es) ==> DistinctKeys(Put(es, k, v))
  {
    if es == [] {
      assert KeySet([Entry(k, v)]) == {k} by { KeySetCons(Entry(k, v), []); }
    } else if es[0].key == k {
      KeySetCons(es[0], es[1..]);
      KeySetCons(Entry(k, v), es[1..]);
      assert [es[0]] + es[1..] == es;
    } else {
      var rest := Put(es[1..], k, v);
      PutKeys(es[1..], k, v);
      KeySetCons(es[0], es[1..]);
      KeySetCons(es[0], rest);
      assert [es[0]] + es[1..] == es;
      if DistinctKeys(es) {
        forall j | 0 <= j < |rest| ensures rest[j].key != es[0].key {
          assert rest[j].key in KeySet(rest);
        }
      }
    }
  }

  /** Setting a key to the value it already has changes nothing. */
  lemma {:induction false} PutSame<K, V>(es: seq<Entry<K, V>>, k: K, v: V)
    requires Get(es, k) == Some(v)
    ensures Put(es, k, v) == es
  {
    if es[0].key != k {
      PutSame(es[1..], k, v);
      assert [es[0]] + es[1..] == es;
    }
  }

  /** A second `set` of the same key overwrites the first in the same place. */
  lemma {:induction false} PutTwice<K, V>(es: seq<Entry<K, V>>, k: K, v: V, w: V)
    ensures Put(Put(es, k, v), k, w) == Put(es, k, w)
  {
    if es != [] && es[0].key != k {
      PutTwice(es[1..], k, v, w);
    }
  }

  /** The values in iteration order (`Array.from(map.values())`). */
  function Values<K, V>(es: seq<Entry<K, V>>): (r: seq<V>)
    ensures |r| == |es| && forall i :: 0 <= i < |es| ==> r[i] == es[i].value
  {
    seq(|es|, i requires 0 <= i < |es| => es[i].value)
  }
}
