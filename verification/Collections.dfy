module Options {
  datatype Option<+T> = None | Some(value: T)
}

module Bytes {
  type byte = x: int | 0 <= x < 256
}

/** Maps that remember the order in which their keys were first inserted. */
module OrderedMaps {
  datatype OMap<K(==), V> = OMap(order: seq<K>, values: map<K, V>)

  function Empty<K(==), V>(): OMap<K, V> {
    OMap([], map[])
  }

  predicate Distinct<K(==)>(s: seq<K>) {
    forall i, j :: 0 <= i < j < |s| ==> s[i] != s[j]
  }

  ghost predicate Wf<K, V>(m: OMap<K, V>) {
    Distinct(m.order) && (forall k :: k in m.order ==> k in m.values) && (forall k :: k in m.values ==> k in m.order)
  }

  function Without<K(==)>(s: seq<K>, k: K): seq<K> {
    if s == [] then [] else if s[0] == k then s[1..] else [s[0]] + Without(s[1..], k)
  }

  /** A key that is already present keeps its place. */
  function Put<K(==), V>(m: OMap<K, V>, k: K, v: V): OMap<K, V> {
    OMap(if k in m.values then m.order else m.order + [k], m.values[k := v])
  }

  function Delete<K(==), V>(m: OMap<K, V>, k: K): OMap<K, V> {
    OMap(Without(m.order, k), m.values - {k})
  }

  function Pop<K(==), V>(m: OMap<K, V>): OMap<K, V>
    requires m.order != []
  {
    OMap(m.order[1..], m.values - {m.order[0]})
  }

  lemma {:induction false} WithoutKeeps<K>(s: seq<K>, k: K)
    requires Distinct(s)
    ensures Distinct(Without(s, k)) && |Without(s, k)| == (if k in s then |s| - 1 else |s|)
    ensures forall x :: x in Without(s, k) <==> x in s && x != k
  {
    if s != [] {
      var rest := Without(s[1..], k);
      WithoutKeeps(s[1..], k);
      assert s == [s[0]] + s[1..] && s[0] !in s[1..];
      if s[0] != k {
        assert s[0] !in rest;
        assert Distinct([s[0]] + rest);
      }
    }
  }

  lemma InWithout<K>(s: seq<K>, k: K, x: K)
    requires Distinct(s)
    ensures x in Without(s, k) <==> x in s && x != k
  {
    WithoutKeeps(s, k);
  }

  lemma PutKeeps<K, V>(m: OMap<K, V>, k: K, v: V)
    requires Wf(m)
    ensures Wf(Put(m, k, v))
    ensures |Put(m, k, v).order| <= |m.order| + 1
  {
  }

  lemma DeleteKeeps<K, V>(m: OMap<K, V>, k: K)
    requires Wf(m)
    ensures Wf(Delete(m, k)) && |Delete(m, k).order| == (if k in m.values then |m.order| - 1 else |m.order|)
  {
    WithoutKeeps(m.order, k);
    var d := Delete(m, k);
    forall x | x in d.order
      ensures x in d.values
    {
      InWithout(m.order, k, x);
    }
    forall x | x in d.values
      ensures x in d.order
    {
      InWithout(m.order, k, x);
    }
  }

  lemma PopKeeps<K, V>(m: OMap<K, V>)
    requires Wf(m) && m.order != []
    ensures Wf(Pop(m))
  {
    assert m.order == [m.order[0]] + m.order[1..];
  }
}

/** Following parents upwards, where a chain may end, leave the map or run in a circle. */
module Ancestors {
  import opened Options

  /** The `n`th ancestor, while every step stays inside the map. */
  function Up<T>(parents: map<T, Option<T>>, id: T, n: nat): Option<T> {
    if n == 0 then Some(id) else
    var below := Up(parents, id, n - 1);
    if below.Some? && below.value in parents then parents[below.value] else None
  }

  lemma {:induction false} NothingAbove<T>(parents: map<T, Option<T>>, id: T, k: nat, n: nat)
    requires Up(parents, id, k).None? && k <= n
    ensures Up(parents, id, n).None?
    decreases n
  {
    if k < n {
      NothingAbove(parents, id, k, n - 1);
    }
  }

  /** Once an ancestor repeats, no new one follows. */
  lemma {:induction false} Cycles<T>(parents: map<T, Option<T>>, id: T, line: seq<T>, n: nat)
    requires forall i :: 0 <= i < |line| ==> Up(parents, id, i) == Some(line[i])
    requires Up(parents, id, |line|).Some? && Up(parents, id, |line|).value in line
    ensures Up(parents, id, n).Some? && Up(parents, id, n).value in line
    decreases n
  {
    if n > 0 {
      Cycles(parents, id, line, n - 1);
      var i :| 0 <= i < |line| && line[i] == Up(parents, id, n - 1).value;
      assert Up(parents, id, i + 1).Some?;
      if i + 1 < |line| {
        assert Up(parents, id, i + 1) == Some(line[i + 1]);
      }
    }
  }
}
