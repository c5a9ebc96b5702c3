/** Python dictionaries as the server uses them: a sequence of key/value pairs in insertion
    order. Assigning to a key that is present keeps its position; a new key goes last;
    deleting a key drops its entry and keeps the order of the rest. */
module OrderedDict {
  import opened Common

  function KeysOf<K, V>(e: seq<(K, V)>): (r: seq<K>)
    ensures |r| == |e|
    ensures forall i :: 0 <= i < |e| ==> r[i] == e[i].0
  {
    seq(|e|, i requires 0 <= i < |e| => e[i].0)
  }

  lemma KeysOfCons<K, V>(x: (K, V), e: seq<(K, V)>)
    ensures KeysOf([x] + e) == [x.0] + KeysOf(e)
  {
  }

  /** `d.get(k)`: the value of the first entry whose key is `k`. */
  function Lookup<K(==), V>(e: seq<(K, V)>, k: K): (r: Option<V>)
    ensures r.None? <==> k !in KeysOf(e)
  {
    if e == [] then None
    else
      KeysOfCons(e[0], e[1..]);
      assert [e[0]] + e[1..] == e;
      if e[0].0 == k then Some(e[0].1) else Lookup(e[1..], k)
  }

  /** The value found is that of the first entry under the key. */
  lemma {:induction false} LookupFirst<K, V>(e: seq<(K, V)>, k: K)
    ensures Lookup(e, k).Some? ==>
      exists i :: 0 <= i < |e| && e[i].0 == k && e[i].1 == Lookup(e, k).value && k !in KeysOf(e[..i])
  {
    if e != [] {
      if e[0].0 == k {
        assert KeysOf(e[..0]) == [];
      } else if Lookup(e, k).Some? {
        LookupFirst(e[1..], k);
        var i :| 0 <= i < |e[1..]| && e[1..][i].0 == k && e[1..][i].1 == Lookup(e, k).value
                 && k !in KeysOf(e[1..][..i]);
        KeysOfCons(e[0], e[1..][..i]);
        assert e[..i + 1] == [e[0]] + e[1..][..i];
      }
    }
  }

  /** `d[k] = v`: a key already present keeps its place, a new key goes last. */
  function Assign<K(==), V>(e: seq<(K, V)>, k: K, v: V): seq<(K, V)> {
    if e == [] then [(k, v)]
    else if e[0].0 == k then [(k, v)] + e[1..]
    else [e[0]] + Assign(e[1..], k, v)
  }

  lemma {:induction false} AssignKeys<K, V>(e: seq<(K, V)>, k: K, v: V)
    ensures k in KeysOf(e) ==> KeysOf(Assign(e, k, v)) == KeysOf(e)
    ensures k !in KeysOf(e) ==> KeysOf(Assign(e, k, v)) == KeysOf(e) + [k]
  {
    if e != [] {
      KeysOfCons(e[0], e[1..]);
      assert [e[0]] + e[1..] == e;
      if e[0].0 == k {
        KeysOfCons((k, v), e[1..]);
      } else {
        AssignKeys(e[1..], k, v);
        KeysOfCons(e[0], Assign(e[1..], k, v));
      }
    }
  }

  /** Reading after an assignment: the assigned key gives the new value, every other key
      what it gave before. */
  lemma {:induction false} AssignLookup<K(!new), V>(e: seq<(K, V)>, k: K, v: V)
    ensures Lookup(Assign(e, k, v), k) == Some(v)
    ensures forall j :: j != k ==> Lookup(Assign(e, k, v), j) == Lookup(e, j)
  {
    if e != [] && e[0].0 != k {
      AssignLookup(e[1..], k, v);
    }
  }

  lemma AppendKeepsDistinct<T>(s: seq<T>, v: T)
    requires NoDuplicates(s) && v !in s
    ensures NoDuplicates(s + [v])
  {
  }

  /** `del d[k]` (every entry under `k`, of which a dictionary has at most one). */
  function Remove<K(==), V>(e: seq<(K, V)>, k: K): seq<(K, V)> {
    if e == [] then []
    else if e[0].0 == k then Remove(e[1..], k)
    else [e[0]] + Remove(e[1..], k)
  }

  /** The keys left are the old keys without `k`, in their order. */
  lemma {:induction false} RemoveKeys<K, V>(e: seq<(K, V)>, k: K)
    ensures KeysOf(Remove(e, k)) == Without(KeysOf(e), k)
  {
    if e != [] {
      RemoveKeys(e[1..], k);
      KeysOfCons(e[0], e[1..]);
      assert [e[0]] + e[1..] == e;
      if e[0].0 != k {
        KeysOfCons(e[0], Remove(e[1..], k));
      }
    }
  }

  /** Reading after a deletion: the key is gone, every other key gives what it gave before. */
  lemma {:induction false} RemoveLookup<K(!new), V>(e: seq<(K, V)>, k: K)
    ensures Lookup(Remove(e, k), k) == None
    ensures forall j :: j != k ==> Lookup(Remove(e, k), j) == Lookup(e, j)
  {
    if e != [] {
      RemoveLookup(e[1..], k);
      if e[0].0 != k {
        assert Remove(e, k) == [e[0]] + Remove(e[1..], k);
      }
    }
  }

  datatype Dict<K(==, !new), V> = Dict(entries: seq<(K, V)>) {
    /** The keys in iteration order. */
    function Keys(): seq<K> { KeysOf(entries) }

    /** Keys are distinct, as in every Python dictionary. */
    predicate Valid() { NoDuplicates(Keys()) }

    function Get(k: K): Option<V> { Lookup(entries, k) }

    predicate Contains(k: K) { k in Keys() }

    function Set(k: K, v: V): Dict<K, V> { Dict(Assign(entries, k, v)) }

    function Delete(k: K): Dict<K, V> { Dict(Remove(entries, k)) }
  }

  function Empty<K(==, !new), V>(): Dict<K, V> { Dict([]) }

  /** Reading a key after assigning it gives the assigned value; every other key reads as
      before; a key already present keeps its place in iteration order. */
  lemma SetThenGet<K(!new), V>(d: Dict<K, V>, k: K, v: V)
    requires d.Valid()
    ensures d.Set(k, v).Get(k) == Some(v) && d.Set(k, v).Valid()
    ensures forall j :: j != k ==> d.Set(k, v).Get(j) == d.Get(j)
    ensures d.Contains(k) ==> d.Set(k, v).Keys() == d.Keys()
    ensures !d.Contains(k) ==> d.Set(k, v).Keys() == d.Keys() + [k]
  {
    AssignLookup(d.entries, k, v);
    AssignKeys(d.entries, k, v);
    if !d.Contains(k) { AppendKeepsDistinct(d.Keys(), k); }
  }

  /** After a deletion the key is gone, every other key reads as before, and the order of
      the remaining keys is kept; deleting an absent key changes nothing. */
  lemma DeleteThenGet<K(!new), V>(d: Dict<K, V>, k: K)
    requires d.Valid()
    ensures d.Delete(k).Get(k) == None && !d.Delete(k).Contains(k) && d.Delete(k).Valid()
    ensures forall j :: j != k ==> d.Delete(k).Get(j) == d.Get(j)
    ensures d.Delete(k).Keys() == Without(d.Keys(), k)
    ensures !d.Contains(k) ==> d.Delete(k) == d
  {
    WithoutKeepsDistinct(d.Keys(), k);
    RemoveLookup(d.entries, k);
    RemoveKeys(d.entries, k);
    if !d.Contains(k) { AbsentRemove(d.entries, k); }
  }

  lemma {:induction false} AbsentRemove<K(!new), V>(e: seq<(K, V)>, k: K)
    requires k !in KeysOf(e)
    ensures Remove(e, k) == e
  {
    if e != [] {
      KeysOfCons(e[0], e[1..]);
      assert [e[0]] + e[1..] == e;
      AbsentRemove(e[1..], k);
    }
  }
}
