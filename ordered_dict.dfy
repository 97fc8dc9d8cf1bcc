/** A Python `dict` with string keys: key/value pairs in insertion order,
    no key twice. Iteration (`.items()`, `.keys()`) follows that order;
    assigning to an existing key keeps its place. */
module OrderedDict {
  import opened Wrappers

  predicate DistinctKeys<V>(d: seq<(string, V)>) {
    forall i, j :: 0 <= i < j < |d| ==> d[i].0 != d[j].0
  }

  type Dict<V> = d: seq<(string, V)> | DistinctKeys(d) witness []

  /** `list(d.keys())`. */
  function Keys<V>(d: seq<(string, V)>): (r: seq<string>)
    ensures |r| == |d|
    ensures forall i :: 0 <= i < |d| ==> r[i] == d[i].0
  {
    if d == [] then [] else [d[0].0] + Keys(d[1..])
  }

  /** `d.get(k)`: the value stored under `k`, or `None`. */
  function Get<V>(d: Dict<V>, k: string): (r: Option<V>)
    ensures r.None? <==> k !in Keys(d)
    ensures forall i :: 0 <= i < |d| && d[i].0 == k ==> r == Some(d[i].1)
  {
    if d == [] then None
    else if d[0].0 == k then Some(d[0].1)
    else
      var r := Get(d[1..], k);
      assert Keys(d) == [d[0].0] + Keys(d[1..]);
      r
  }

  /** The position of `k` among the keys. */
  function IndexOf<V>(d: Dict<V>, k: string): (i: nat)
    requires k in Keys(d)
    ensures i < |d| && d[i].0 == k
    ensures forall j :: 0 <= j < i ==> d[j].0 != k
  {
    if d[0].0 == k then 0
    else
      assert Keys(d) == [d[0].0] + Keys(d[1..]);
      1 + IndexOf(d[1..], k)
  }

  /** `d[k] = v`: an existing key keeps its position and takes the new
      value; a new key goes to the end. */
  function Put<V>(d: Dict<V>, k: string, v: V): (r: Dict<V>)
    ensures Keys(r) == if k in Keys(d) then Keys(d) else Keys(d) + [k]
  {
    if k in Keys(d) then
      var i := IndexOf(d, k);
      var r := d[i := (k, v)];
      assert Keys(r) == Keys(d);
      r
    else
      var r := d + [(k, v)];
      assert Keys(r) == Keys(d) + [k];
      r
  }

  /** After `d[k] = v`, `k` maps to `v` and every other key to what it
      mapped to before. */
  lemma PutGet<V>(d: Dict<V>, k: string, v: V, k': string)
    ensures Get(Put(d, k, v), k') == if k' == k then Some(v) else Get(d, k')
  {
    var r := Put(d, k, v);
    if k' in Keys(d) {
      var j := IndexOf(d, k');
      if k in Keys(d) { assert r[j] == if k' == k then (k, v) else d[j]; }
      else { assert r[j] == d[j]; }
    } else if k' == k {
      assert r[|r| - 1] == (k, v);
    }
  }

  /** Writing the same key twice leaves only the last value (the second
      write does not move the key either). */
  lemma PutPut<V>(d: Dict<V>, k: string, v1: V, v2: V)
    ensures Put(Put(d, k, v1), k, v2) == Put(d, k, v2)
  {
    if k in Keys(d) {
      PutPutPresent(d, k, v1, v2);
    } else {
      PutPutAbsent(d, k, v1, v2);
    }
  }

  lemma PutPutPresent<V>(d: Dict<V>, k: string, v1: V, v2: V)
    requires k in Keys(d)
    ensures Put(Put(d, k, v1), k, v2) == Put(d, k, v2)
  {
    var i := IndexOf(d, k);
    PutAt(d, k, v1, i);
    var d1 := d[i := (k, v1)];
    PutAt(d1, k, v2, i);
    assert d1[i := (k, v2)] == d[i := (k, v2)];
  }

  lemma PutPutAbsent<V>(d: Dict<V>, k: string, v1: V, v2: V)
    requires k !in Keys(d)
    ensures Put(Put(d, k, v1), k, v2) == Put(d, k, v2)
  {
    var d1 := d + [(k, v1)];
    assert Put(d, k, v1) == d1;
    assert IndexOf(d1, k) == |d| by {
      assert forall j :: 0 <= j < |d| ==> d1[j].0 == Keys(d)[j];
    }
    assert d1[|d| := (k, v2)] == d + [(k, v2)];
  }

  /** A key not yet present is appended. */
  lemma PutNewKey<V>(d: Dict<V>, k: string, v: V)
    requires k !in Keys(d)
    ensures Put(d, k, v) == d + [(k, v)]
  {
  }

  /** A key first found at `i` is overwritten there. */
  lemma PutAt<V>(d: Dict<V>, k: string, v: V, i: nat)
    requires i < |d| && d[i].0 == k && forall j :: 0 <= j < i ==> d[j].0 != k
    ensures Put(d, k, v) == d[i := (k, v)]
  {
    assert Keys(d)[i] == k;
    assert IndexOf(d, k) == i;
  }
}
