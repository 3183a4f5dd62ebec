/**
 * PHP's ordered arrays with string or integer keys: a map together with the
 * order in which its keys were first inserted.
 */
module PhpArray {
  import opened Seqs

  datatype OrdMap<K(==, !new), V> = OrdMap(keys: seq<K>, vals: map<K, V>) {

    /** The key list holds each key of the map exactly once. */
    ghost predicate Valid() {
      && (forall k :: k in vals <==> k in keys)
      && (forall i, j :: 0 <= i < j < |keys| ==> keys[i] != keys[j])
    }

    /** `$a[$k] = $v`: an existing key keeps its place, a new one goes last. */
    function Put(k: K, v: V): (r: OrdMap<K, V>)
      ensures Valid() ==> r.Valid()
    {
      OrdMap(if k in vals then keys else keys + [k], vals[k := v])
    }
  }

  function Empty<K(==, !new), V>(): (r: OrdMap<K, V>)
    ensures r.Valid()
  {
    OrdMap([], map[])
  }

  /** Puts `k => src[k]` for every `k` of `ks`, from first to last. */
  function PutAll<K(==, !new), V>(m: OrdMap<K, V>, ks: seq<K>, src: map<K, V>): OrdMap<K, V>
    requires forall k :: k in ks ==> k in src
  {
    if |ks| == 0 then m
    else PutAll(m, ks[..|ks| - 1], src).Put(ks[|ks| - 1], src[ks[|ks| - 1]])
  }

  /**
   * After PutAll the array holds the old keys and `ks`; every key of `ks`
   * maps to its `src` value, every other key keeps its old value, and the
   * old key list is a prefix of the new one.
   */
  lemma {:induction false} PutAllContents<K(!new), V>(m: OrdMap<K, V>, ks: seq<K>, src: map<K, V>)
    requires forall k :: k in ks ==> k in src
    requires m.Valid()
    ensures PutAll(m, ks, src).Valid()
    ensures forall k :: k in PutAll(m, ks, src).vals <==> k in m.vals || k in ks
    ensures forall k :: k in ks ==> PutAll(m, ks, src).vals[k] == src[k]
    ensures forall k :: k in m.vals && k !in ks ==> PutAll(m, ks, src).vals[k] == m.vals[k]
    ensures m.keys <= PutAll(m, ks, src).keys
  {
    if |ks| > 0 {
      var ks', x := ks[..|ks| - 1], ks[|ks| - 1];
      assert ks == ks' + [x];
      PutAllContents(m, ks', src);
    }
  }

  /**
   * Keys new to the array follow the old ones, in the order of their first
   * occurrence in `ks`.
   */
  lemma {:induction false} PutAllOrder<K(!new), V>(m: OrdMap<K, V>, ks: seq<K>, src: map<K, V>)
    requires forall k :: k in ks ==> k in src
    requires m.Valid()
    ensures var r := PutAll(m, ks, src);
      forall i, j :: 0 <= i < j < |r.keys| && r.keys[i] !in m.vals ==>
        r.keys[j] !in m.vals && FirstIndex(ks, r.keys[i]) < FirstIndex(ks, r.keys[j])
  {
    if |ks| > 0 {
      var ks', x := ks[..|ks| - 1], ks[|ks| - 1];
      assert ks == ks' + [x];
      var r', r := PutAll(m, ks', src), PutAll(m, ks, src);
      PutAllContents(m, ks', src);
      PutAllOrder(m, ks', src);
      forall i, j | 0 <= i < j < |r.keys| && r.keys[i] !in m.vals
        ensures r.keys[j] !in m.vals && FirstIndex(ks, r.keys[i]) < FirstIndex(ks, r.keys[j])
      {
        FirstIndexAppend(ks', [x], r.keys[i]);
        FirstIndexAppend(ks', [x], r.keys[j]);
        if x !in r'.vals && j == |r'.keys| {
          assert r.keys[j] == x;
        } else {
          assert r.keys[i] == r'.keys[i] && r.keys[j] == r'.keys[j];
        }
      }
    }
  }

  /** Putting keys that are already there with the same values changes nothing. */
  lemma {:induction false} PutAllAbsorbs<K(!new), V>(m: OrdMap<K, V>, ks: seq<K>, src: map<K, V>)
    requires forall k :: k in ks ==> k in src && k in m.vals && m.vals[k] == src[k]
    ensures PutAll(m, ks, src) == m
  {
    if |ks| > 0 {
      var ks', x := ks[..|ks| - 1], ks[|ks| - 1];
      PutAllAbsorbs(m, ks', src);
      assert m.vals[x := src[x]] == m.vals;
    }
  }
}
