/** A JavaScript plain object (`Record<string, V>`): its own keys in insertion order and the
    value of each. `Object.entries` lists the keys in that order with their values. */
module Records {
  import opened Wrappers

  /** No key occurs twice. `Query.DistinctNames` states the same of the names of a
      parameter list. */
  predicate Distinct(keys: seq<string>) {
    forall i, j :: 0 <= i < j < |keys| ==> keys[i] != keys[j]
  }

  datatype Record<V> = Record(keys: seq<string>, values: map<string, V>) {
    /** Keys are distinct and are exactly the keys that have values. */
    ghost predicate Valid() {
      Distinct(keys) &&
      (forall k :: k in values <==> k in keys)
    }
  }

  /** `{}` */
  function Empty<V>(): (r: Record<V>)
    ensures r.Valid() && r.keys == []
  {
    Record([], map[])
  }

  /** `r[k]` on an object the adapter builds: the value stored under `k`, or `None`
      (JavaScript's undefined). `JsonValues.Get` is the same read on a decoded JSON value. */
  function Get<V>(r: Record<V>, k: string): Option<V> {
    if k in r.values then Some(r.values[k]) else None
  }

  /** `r[k] = v`: an existing key keeps its place and takes the new value, a new key is
      added at the end. */
  function Put<V>(r: Record<V>, k: string, v: V): (r': Record<V>)
    requires r.Valid()
    ensures r'.Valid()
    ensures Get(r', k) == Some(v)
    ensures forall j :: j != k ==> Get(r', j) == Get(r, j)
    ensures k in r.keys ==> r'.keys == r.keys
    ensures k !in r.keys ==> r'.keys == r.keys + [k]
  {
    Record(if k in r.values then r.keys else r.keys + [k], r.values[k := v])
  }

  /** `keys` without `k`, the others in order. */
  function RemoveKey(keys: seq<string>, k: string): (rest: seq<string>)
    ensures forall j :: j in rest <==> j in keys && j != k
    ensures |rest| <= |keys|
  {
    if keys == [] then []
    else (if keys[0] == k then [] else [keys[0]]) + RemoveKey(keys[1..], k)
  }

  lemma {:induction false} RemoveKeyDistinct(keys: seq<string>, k: string)
    requires Distinct(keys)
    ensures Distinct(RemoveKey(keys, k))
  {
    if keys != [] {
      RemoveKeyDistinct(keys[1..], k);
      var tail := RemoveKey(keys[1..], k);
      var rest := RemoveKey(keys, k);
      if keys[0] != k {
        assert keys[0] !in keys[1..];
        assert rest == [keys[0]] + tail;
        forall i, j | 0 <= i < j < |rest| ensures rest[i] != rest[j] {
          assert rest[j] == tail[j - 1] && tail[j - 1] in tail;
          if i > 0 { assert rest[i] == tail[i - 1]; }
        }
      } else {
        assert rest == tail;
      }
    }
  }

  lemma {:induction false} RemoveKeyAbsent(keys: seq<string>, k: string)
    requires k !in keys
    ensures RemoveKey(keys, k) == keys
  {
    if keys != [] {
      RemoveKeyAbsent(keys[1..], k);
      assert keys == [keys[0]] + keys[1..];
    }
  }

  /** Removing a key that sits at position `i` of a distinct key list cuts out exactly that
      position. */
  lemma {:induction false} RemoveKeyAt(keys: seq<string>, k: string, i: nat)
    requires Distinct(keys) && i < |keys| && keys[i] == k
    ensures RemoveKey(keys, k) == keys[..i] + keys[i + 1..]
  {
    if i == 0 {
      assert k !in keys[1..];
      RemoveKeyAbsent(keys[1..], k);
    } else {
      RemoveKeyAt(keys[1..], k, i - 1);
      assert keys[..i] == [keys[0]] + keys[1..][..i - 1];
      assert keys[1..][i..] == keys[i + 1..];
    }
  }

  /** `delete r[k]`: the key and its value are dropped, the other keys keep their order. */
  function Delete<V>(r: Record<V>, k: string): (r': Record<V>)
    requires r.Valid()
    ensures r'.Valid()
    ensures Get(r', k) == None
    ensures forall j :: j != k ==> Get(r', j) == Get(r, j)
    ensures r'.keys == RemoveKey(r.keys, k)
  {
    RemoveKeyDistinct(r.keys, k);
    Record(RemoveKey(r.keys, k), r.values - {k})
  }

  /** `Object.entries(r)` */
  function Entries<V>(r: Record<V>): (es: seq<(string, V)>)
    requires r.Valid()
    ensures |es| == |r.keys|
    ensures forall i :: 0 <= i < |es| ==> es[i].0 == r.keys[i] && Get(r, es[i].0) == Some(es[i].1)
  {
    seq(|r.keys|, i requires 0 <= i < |r.keys| => (r.keys[i], r.values[r.keys[i]]))
  }

  /** Deleting the key at position `i` removes exactly that entry from `Object.entries`. */
  lemma DeleteEntries<V>(r: Record<V>, k: string, i: nat)
    requires r.Valid() && i < |r.keys| && r.keys[i] == k
    ensures Entries(Delete(r, k)) == Entries(r)[..i] + Entries(r)[i + 1..]
  {
    RemoveKeyAt(r.keys, k, i);
    var es, ds := Entries(r), Entries(Delete(r, k));
    assert |ds| == |es| - 1;
    forall j | 0 <= j < |ds| ensures ds[j] == (es[..i] + es[i + 1..])[j] {
      if j < i { assert ds[j].0 == es[j].0; } else { assert ds[j].0 == es[j + 1].0; }
    }
  }

  /** Putting a new key appends exactly one entry to `Object.entries`. */
  lemma PutEntries<V>(r: Record<V>, k: string, v: V)
    requires r.Valid() && k !in r.keys
    ensures Entries(Put(r, k, v)) == Entries(r) + [(k, v)]
  {
    var es, ps := Entries(r), Entries(Put(r, k, v));
    forall j | 0 <= j < |ps| ensures ps[j] == (es + [(k, v)])[j] {
      if j < |es| { assert ps[j].0 == es[j].0; }
    }
  }

  /** The entries of a four-key record, written out. */
  lemma EntriesOfFour<V>(r: Record<V>)
    requires r.Valid() && |r.keys| == 4
    ensures Entries(r) == [(r.keys[0], r.values[r.keys[0]]), (r.keys[1], r.values[r.keys[1]]),
                           (r.keys[2], r.values[r.keys[2]]), (r.keys[3], r.values[r.keys[3]])]
  {
  }
}
