/** An insertion-ordered Python `dict` with string keys, as an association list.
    Assigning a new key appends it; assigning an existing key keeps its position;
    `pop` removes an entry and closes the gap. */
module Dict {
  import opened Wrappers

  type Dict<V> = seq<(string, V)>

  /** The keys, in insertion order (`tuple(d)`). */
  function Keys<V>(d: Dict<V>): (ks: seq<string>)
    ensures |ks| == |d|
    ensures forall i :: 0 <= i < |d| ==> ks[i] == d[i].0
  {
    seq(|d|, i requires 0 <= i < |d| => d[i].0)
  }

  /** No key occurs twice: every real dictionary satisfies this. */
  predicate Distinct<V>(d: Dict<V>)
  {
    forall i, j :: 0 <= i < j < |d| ==> d[i].0 != d[j].0
  }

  /** The position of key `k`. */
  function Find<V>(d: Dict<V>, k: string): (i: nat)
    requires k in Keys(d)
    ensures i < |d| && d[i].0 == k
    ensures k !in Keys(d[..i])
  {
    if d[0].0 == k then 0
    else
      assert Keys(d) == [d[0].0] + Keys(d[1..]);
      var j := Find(d[1..], k);
      assert Keys(d[..j + 1]) == [d[0].0] + Keys(d[1..][..j]);
      j + 1
  }

  /** In a dictionary without repeated keys, the entry at `i` is the one `Find` locates. */
  lemma FindUnique<V>(d: Dict<V>, i: nat)
    requires Distinct(d) && i < |d|
    ensures d[i].0 in Keys(d) && Find(d, d[i].0) == i
  {
    assert Keys(d)[i] == d[i].0;
  }

  /** `d.get(k)` */
  function Get<V>(d: Dict<V>, k: string): (r: Option<V>)
    ensures r.Some? <==> k in Keys(d)
  {
    if k in Keys(d) then Some(d[Find(d, k)].1) else None
  }

  /** `d.pop(k)` when `k` is present, with the gap closed; `d` itself otherwise. */
  function Remove<V>(d: Dict<V>, k: string): (r: Dict<V>)
    ensures k in Keys(d) ==> |r| == |d| - 1
    ensures k !in Keys(d) ==> r == d
  {
    if k in Keys(d) then
      var i := Find(d, k);
      d[..i] + d[i + 1..]
    else d
  }

  /** `d[k] = v` */
  function Put<V>(d: Dict<V>, k: string, v: V): (r: Dict<V>)
    ensures k in Keys(d) ==> |r| == |d| && Keys(r) == Keys(d)
    ensures k !in Keys(d) ==> r == d + [(k, v)]
  {
    if k in Keys(d) then d[Find(d, k) := (k, v)] else d + [(k, v)]
  }

  /** Positions `i` and `j` of `d` hold different keys. */
  predicate KeysDiffer<V>(d: Dict<V>, i: int, j: int)
    requires 0 <= i < |d| && 0 <= j < |d|
  {
    d[i].0 != d[j].0
  }

  /** `Distinct`, restated so that it is used only where a proof names the two positions
      (through `KeysDiffer`), not at every pair of entries a proof happens to mention. */
  predicate DistinctAt<V>(d: Dict<V>)
  {
    forall i, j :: 0 <= i < j < |d| ==> KeysDiffer(d, i, j)
  }

  /** The two statements of distinct keys agree. */
  lemma DistinctIsDistinctAt<V>(d: Dict<V>)
    ensures Distinct(d) <==> DistinctAt(d)
  {
    if DistinctAt(d) {
      forall i, j | 0 <= i < j < |d| ensures d[i].0 != d[j].0 {
        assert KeysDiffer(d, i, j);
      }
    }
  }

  /** `d.setdefault(k, v)`, for the new dictionary it leaves behind. */
  function SetDefault<V>(d: Dict<V>, k: string, v: V): (r: Dict<V>)
    ensures k in Keys(d) ==> r == d
    ensures k !in Keys(d) ==> r == d + [(k, v)]
  {
    if k in Keys(d) then d else d + [(k, v)]
  }

  lemma KeysConcat<V>(a: Dict<V>, b: Dict<V>)
    ensures Keys(a + b) == Keys(a) + Keys(b)
  {
  }

  /** Assignment keeps the key order and appends a new key at the end. */
  lemma KeysPut<V>(d: Dict<V>, k: string, v: V)
    ensures Keys(Put(d, k, v)) == Keys(d) + (if k in Keys(d) then [] else [k])
  {
    if k !in Keys(d) {
      KeysConcat(d, [(k, v)]);
    }
  }

  /** `setdefault` keeps the key order and appends a missing key at the end. */
  lemma KeysSetDefault<V>(d: Dict<V>, k: string, v: V)
    ensures Keys(SetDefault(d, k, v)) == Keys(d) + (if k in Keys(d) then [] else [k])
  {
    if k !in Keys(d) {
      KeysConcat(d, [(k, v)]);
    }
  }

  /** In a dictionary without repeated keys, `Get` returns the value stored under the key. */
  lemma GetAt<V>(d: Dict<V>, i: nat)
    requires Distinct(d) && i < |d|
    ensures Get(d, d[i].0) == Some(d[i].1)
  {
    FindUnique(d, i);
  }

  /** Removing a present key removes exactly that entry and keeps the others in order. */
  lemma RemoveAt<V>(d: Dict<V>, i: nat)
    requires Distinct(d) && i < |d|
    ensures Remove(d, d[i].0) == d[..i] + d[i + 1..]
  {
    FindUnique(d, i);
  }

  /** Assignment stores the value, keeps every other key's value, and keeps keys distinct. */
  lemma {:induction false} PutGet<V>(d: Dict<V>, k: string, v: V, k': string)
    requires Distinct(d)
    ensures Distinct(Put(d, k, v))
    ensures Get(Put(d, k, v), k) == Some(v)
    ensures k' != k ==> Get(Put(d, k, v), k') == Get(d, k')
  {
    var r := Put(d, k, v);
    assert Distinct(r) by {
      if k !in Keys(d) {
        forall i | 0 <= i < |d| ensures r[i].0 != k { assert Keys(d)[i] == d[i].0; }
      }
    }
    if k in Keys(d) {
      var i := Find(d, k);
      GetAt(r, i);
      if k' in Keys(d) {
        var j := Find(d, k');
        GetAt(d, j);
        if k' != k { GetAt(r, j); }
      } else {
        assert Keys(r) == Keys(d);
      }
    } else {
      GetAt(r, |d|);
      if k' in Keys(d) {
        var j := Find(d, k');
        GetAt(d, j);
        if k' != k { GetAt(r, j); }
      }
    }
  }

  /** `setdefault` adds the value only when the key is missing, keeps every other entry,
      and keeps keys distinct. */
  lemma SetDefaultGet<V>(d: Dict<V>, k: string, v: V, k': string)
    requires Distinct(d)
    ensures Distinct(SetDefault(d, k, v))
    ensures Get(SetDefault(d, k, v), k) == (if k in Keys(d) then Get(d, k) else Some(v))
    ensures k' != k ==> Get(SetDefault(d, k, v), k') == Get(d, k')
  {
    if k !in Keys(d) {
      PutGet(d, k, v, k');
    }
  }
}
