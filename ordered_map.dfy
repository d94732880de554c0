/**
 * A Python dict remembers the order in which its keys were first inserted.
 * An `Entries` sequence models one: assigning to an existing key keeps its
 * position, assigning to a new key appends it, `del` drops it.
 */
module OrderedMap {
  import opened Wrappers

  type Entries<V> = seq<(string, V)>

  function Keys<V>(m: Entries<V>): (ks: seq<string>)
    ensures |ks| == |m|
    ensures forall i :: 0 <= i < |m| ==> ks[i] == m[i].0
  {
    seq(|m|, i requires 0 <= i < |m| => m[i].0)
  }

  function Values<V>(m: Entries<V>): (vs: seq<V>)
    ensures |vs| == |m|
    ensures forall i :: 0 <= i < |m| ==> vs[i] == m[i].1
  {
    seq(|m|, i requires 0 <= i < |m| => m[i].1)
  }

  lemma KeysCons<V>(m: Entries<V>)
    requires m != []
    ensures Keys(m) == [m[0].0] + Keys(m[1..])
  {
  }

  /** A dict never holds a key twice. */
  predicate DistinctKeys<V>(m: Entries<V>)
  {
    forall i, j :: 0 <= i < j < |m| ==> m[i].0 != m[j].0
  }

  /** Position of `k` in `m`, if it is a key of `m`. */
  function IndexOf<V>(m: Entries<V>, k: string): (r: Option<nat>)
    ensures r.Some? ==> r.value < |m| && m[r.value].0 == k
    ensures r.Some? ==> forall j :: 0 <= j < r.value ==> m[j].0 != k
    ensures r.None? <==> k !in Keys(m)
  {
    if m == [] then None
    else if m[0].0 == k then Some(0)
    else match IndexOf(m[1..], k)
      case None => None
      case Some(j) => Some(j + 1)
  }

  /** `m[k]`: the value stored under `k`, or None where Python raises KeyError. */
  function Get<V>(m: Entries<V>, k: string): (r: Option<V>)
    ensures r.Some? <==> k in Keys(m)
  {
    match IndexOf(m, k)
    case None => None
    case Some(i) => Some(m[i].1)
  }

  /** The mapping a dict denotes, forgetting the order of its keys. */
  function ToMap<V>(m: Entries<V>): (r: map<string, V>)
    ensures r.Keys == set k | k in Keys(m)
  {
    if m == [] then map[] else ToMap(m[1..])[m[0].0 := m[0].1]
  }

  /** `m[k] = v`: overwrites in place when `k` is present, appends otherwise. */
  function Put<V>(m: Entries<V>, k: string, v: V): (r: Entries<V>)
    ensures Keys(r) == if k in Keys(m) then Keys(m) else Keys(m) + [k]
  {
    if m == [] then [(k, v)]
    else if m[0].0 == k then
      KeysCons(m);
      KeysCons([(k, v)] + m[1..]);
      assert ([(k, v)] + m[1..])[1..] == m[1..];
      [(k, v)] + m[1..]
    else
      var rest := Put(m[1..], k, v);
      KeysCons(m);
      KeysCons([m[0]] + rest);
      assert ([m[0]] + rest)[1..] == rest;
      [m[0]] + rest
  }

  /** The keys of `ks` other than `k`, in their order. */
  function Without(ks: seq<string>, k: string): (r: seq<string>)
    ensures forall x :: x in r <==> x in ks && x != k
    ensures |r| <= |ks|
  {
    if ks == [] then []
    else if ks[0] == k then Without(ks[1..], k)
    else [ks[0]] + Without(ks[1..], k)
  }

  /** `del m[k]` once `k` is known to be present; keeps the order of the others. */
  function Remove<V>(m: Entries<V>, k: string): (r: Entries<V>)
    ensures Keys(r) == Without(Keys(m), k)
  {
    if m == [] then []
    else if m[0].0 == k then
      KeysCons(m);
      Remove(m[1..], k)
    else
      var rest := Remove(m[1..], k);
      KeysCons(m);
      KeysCons([m[0]] + rest);
      assert ([m[0]] + rest)[1..] == rest;
      [m[0]] + rest
  }

  lemma {:induction false} PutToMap<V>(m: Entries<V>, k: string, v: V)
    ensures ToMap(Put(m, k, v)) == ToMap(m)[k := v]
  {
    if m == [] {
    } else if m[0].0 == k {
      assert Put(m, k, v) == [(k, v)] + m[1..];
      ToMapCons((k, v), m[1..]);
      UpdateTwice(ToMap(m[1..]), k, m[0].1, v);
    } else {
      PutCons(m, k, v);
      ToMapCons(m[0], Put(m[1..], k, v));
      PutToMap(m[1..], k, v);
      UpdateSwap(ToMap(m[1..]), m[0].0, m[0].1, k, v);
    }
  }

  lemma ToMapCons<V>(e: (string, V), rest: Entries<V>)
    ensures ToMap([e] + rest) == ToMap(rest)[e.0 := e.1]
  {
    assert ([e] + rest)[1..] == rest;
  }

  lemma UpdateTwice<V>(a: map<string, V>, k: string, u: V, v: V)
    ensures a[k := u][k := v] == a[k := v]
  {
  }

  lemma UpdateSwap<V>(a: map<string, V>, x: string, u: V, k: string, v: V)
    requires x != k
    ensures a[k := v][x := u] == a[x := u][k := v]
  {
  }

  lemma {:induction false} GetToMap<V>(m: Entries<V>, k: string)
    ensures Get(m, k) == if k in ToMap(m) then Some(ToMap(m)[k]) else None
  {
    if m != [] && m[0].0 != k {
      GetToMap(m[1..], k);
      KeysCons(m);
    }
  }

  lemma {:induction false} RemoveToMap<V>(m: Entries<V>, k: string)
    ensures ToMap(Remove(m, k)) == ToMap(m) - {k}
  {
    if m != [] {
      RemoveToMap(m[1..], k);
      if m[0].0 == k {
        assert Remove(m, k) == Remove(m[1..], k);
        UpdateThenDrop(ToMap(m[1..]), k, m[0].1);
      } else {
        RemoveCons(m, k);
        DropThenUpdate(ToMap(m[1..]), k, m[0].0, m[0].1);
      }
    }
  }

  lemma RemoveCons<V>(m: Entries<V>, k: string)
    requires m != [] && m[0].0 != k
    ensures Remove(m, k) == [m[0]] + Remove(m[1..], k)
    ensures ToMap(Remove(m, k)) == ToMap(Remove(m[1..], k))[m[0].0 := m[0].1]
  {
    var r := Remove(m, k);
    assert r[1..] == Remove(m[1..], k);
  }

  lemma UpdateThenDrop<V>(a: map<string, V>, k: string, v: V)
    ensures a[k := v] - {k} == a - {k}
  {
  }

  lemma DropThenUpdate<V>(a: map<string, V>, k: string, x: string, v: V)
    requires x != k
    ensures (a - {k})[x := v] == a[x := v] - {k}
  {
  }

  lemma {:induction false} PutDistinct<V>(m: Entries<V>, k: string, v: V)
    requires DistinctKeys(m)
    ensures DistinctKeys(Put(m, k, v))
  {
    var r := Put(m, k, v);
    forall i, j | 0 <= i < j < |r| ensures r[i].0 != r[j].0 {
      assert Keys(r)[i] == r[i].0 && Keys(r)[j] == r[j].0;
      if k !in Keys(m) && j == |m| {
        assert r[i].0 == Keys(m)[i] == m[i].0;
      }
    }
  }

  lemma {:induction false} RemoveDistinct<V>(m: Entries<V>, k: string)
    requires DistinctKeys(m)
    ensures DistinctKeys(Remove(m, k))
    ensures k in Keys(m) ==> |Remove(m, k)| == |m| - 1
    ensures k !in Keys(m) ==> Remove(m, k) == m
  {
    if m != [] {
      assert DistinctKeys(m[1..]);
      RemoveDistinct(m[1..], k);
      KeysCons(m);
      if m[0].0 != k {
        RemoveCons(m, k);
        RemoveEntries(m[1..], k);
        HeadFresh(m);
        ConsDistinct(m[0], Remove(m[1..], k));
      } else {
        assert k !in Keys(m[1..]);
      }
    }
  }

  lemma ConsDistinct<V>(e: (string, V), rest: Entries<V>)
    requires DistinctKeys(rest)
    requires forall x :: x in rest ==> x.0 != e.0
    ensures DistinctKeys([e] + rest)
  {
    var r := [e] + rest;
    forall i, j | 0 <= i < j < |r| ensures r[i].0 != r[j].0 {
      assert r[j] == rest[j - 1];
      if i > 0 {
        assert r[i] == rest[i - 1];
      }
    }
  }

  lemma HeadFresh<V>(m: Entries<V>)
    requires m != [] && DistinctKeys(m)
    ensures forall x :: x in m[1..] ==> x.0 != m[0].0
  {
    forall x | x in m[1..] ensures x.0 != m[0].0 {
      var i :| 0 <= i < |m[1..]| && m[1..][i] == x;
      assert m[i + 1] == x;
    }
  }

  /** Put never moves or drops a key: the old key list is a prefix of the new one. */
  lemma PutKeepsOrder<V>(m: Entries<V>, k: string, v: V)
    ensures Keys(m) <= Keys(Put(m, k, v))
  {
  }

  lemma GetPutSame<V>(m: Entries<V>, k: string, v: V)
    ensures Get(Put(m, k, v), k) == Some(v)
  {
    GetToMap(Put(m, k, v), k);
    PutToMap(m, k, v);
  }

  lemma GetPutOther<V>(m: Entries<V>, k: string, v: V, x: string)
    requires x != k
    ensures Get(Put(m, k, v), x) == Get(m, x)
  {
    GetToMap(Put(m, k, v), x);
    GetToMap(m, x);
    PutToMap(m, k, v);
  }

  /** Overwriting a present key replaces its first entry and moves nothing. */
  lemma PutInPlace<V>(m: Entries<V>, k: string, v: V)
    requires k in Keys(m)
    ensures |Put(m, k, v)| == |m|
    ensures Put(m, k, v)[IndexOf(m, k).value] == (k, v)
    ensures forall i :: 0 <= i < |m| && i != IndexOf(m, k).value ==> Put(m, k, v)[i] == m[i]
  {
    PutAt(m, k, v, IndexOf(m, k).value);
  }

  lemma {:induction false} PutAt<V>(m: Entries<V>, k: string, v: V, j: nat)
    requires j < |m| && m[j].0 == k
    requires forall i :: 0 <= i < j ==> m[i].0 != k
    ensures |Put(m, k, v)| == |m|
    ensures Put(m, k, v)[j] == (k, v)
    ensures forall i :: 0 <= i < |m| && i != j ==> Put(m, k, v)[i] == m[i]
  {
    if j == 0 {
      assert Put(m, k, v) == [(k, v)] + m[1..];
    } else {
      PutAt(m[1..], k, v, j - 1);
      PutCons(m, k, v);
    }
  }

  lemma PutCons<V>(m: Entries<V>, k: string, v: V)
    requires m != [] && m[0].0 != k
    ensures Put(m, k, v) == [m[0]] + Put(m[1..], k, v)
  {
  }

  /** One assignment keeps the key order, distinctness, and the value of every other key. */
  lemma PutKeeps<V>(m: Entries<V>, k: string, v: V)
    ensures Keys(m) <= Keys(Put(m, k, v))
    ensures DistinctKeys(m) ==> DistinctKeys(Put(m, k, v))
    ensures forall x :: x != k ==> Get(Put(m, k, v), x) == Get(m, x)
  {
    PutKeepsOrder(m, k, v);
    if DistinctKeys(m) {
      PutDistinct(m, k, v);
    }
    forall x | x != k ensures Get(Put(m, k, v), x) == Get(m, x) {
      GetPutOther(m, k, v, x);
    }
  }

  /** `del` only drops entries. */
  lemma {:induction false} RemoveEntries<V>(m: Entries<V>, k: string)
    ensures forall e :: e in Remove(m, k) ==> e in m && e.0 != k
  {
    if m != [] {
      RemoveEntries(m[1..], k);
    }
  }

  /** In a dict, the value stored with a key is what a lookup finds. */
  lemma GetEntry<V>(m: Entries<V>, e: (string, V))
    requires DistinctKeys(m) && e in m
    ensures Get(m, e.0) == Some(e.1)
  {
    var i :| 0 <= i < |m| && m[i] == e;
    assert Keys(m)[i] == e.0;
    var j := IndexOf(m, e.0).value;
    assert j == i;
  }
}
