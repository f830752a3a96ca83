/** A Ruby Hash as the client builds and reads it: key/value pairs kept in
    insertion order, looked up by the first pair carrying the key. */
module OrderedHash {

  datatype Option<+T> = None | Some(value: T)

  type Assoc<V> = seq<(string, V)>

  /** The keys of `h`, in insertion order. */
  function Keys<V>(h: Assoc<V>): (ks: seq<string>)
    ensures |ks| == |h|
    ensures forall i :: 0 <= i < |h| ==> ks[i] == h[i].0
  {
    seq(|h|, i requires 0 <= i < |h| => h[i].0)
  }

  /** Position of the first pair whose key is `k`, or `|h|` when there is none. */
  function FirstIndex<V>(h: Assoc<V>, k: string): (i: nat)
    ensures i <= |h|
    ensures i < |h| ==> h[i].0 == k
    ensures forall j :: 0 <= j < i ==> h[j].0 != k
    decreases |h|
  {
    if h == [] then 0
    else if h[0].0 == k then 0
    else 1 + FirstIndex(h[1..], k)
  }

  /** `h[k]`: the value stored under `k`, or None (Ruby's nil) when `k` is absent. */
  function Get<V>(h: Assoc<V>, k: string): (r: Option<V>)
    ensures r.None? <==> k !in Keys(h)
    ensures r.Some? ==> (k, r.value) in h
  {
    var i := FirstIndex(h, k);
    if i < |h| then Some(h[i].1) else None
  }

  /** No key occurs twice, as in every Ruby Hash. */
  predicate Distinct(ks: seq<string>)
  {
    forall i, j :: 0 <= i < j < |ks| ==> ks[i] != ks[j]
  }

  /** In a hash without repeated keys, every stored pair is what lookup finds. */
  lemma GetUnique<V>(h: Assoc<V>, k: string, v: V)
    requires Distinct(Keys(h))
    requires (k, v) in h
    ensures Get(h, k) == Some(v)
  {
    var i :| 0 <= i < |h| && h[i] == (k, v);
    assert Keys(h)[i] == k;
    var f := FirstIndex(h, k);
    assert Keys(h)[f] == k;
  }

  /** Overwriting the value of the pair at position `i` moves no key. */
  lemma FirstIndexAfterUpdate<V>(h: Assoc<V>, i: nat, v: V, k: string)
    requires i < |h|
    ensures FirstIndex(h[i := (h[i].0, v)], k) == FirstIndex(h, k)
  {
    var r := h[i := (h[i].0, v)];
    var fr, fh := FirstIndex(r, k), FirstIndex(h, k);
    assert forall j :: 0 <= j < |h| ==> r[j].0 == h[j].0;
  }

  /** Appending a pair leaves every earlier first occurrence where it was. */
  lemma FirstIndexAfterAppend<V>(h: Assoc<V>, k: string, v: V, k': string)
    requires k' != k
    ensures FirstIndex(h + [(k, v)], k') == if FirstIndex(h, k') < |h| then FirstIndex(h, k') else |h| + 1
  {
    var r := h + [(k, v)];
    var fr, fh := FirstIndex(r, k'), FirstIndex(h, k');
    assert forall j :: 0 <= j < |h| ==> r[j] == h[j];
  }

  /** `h[k] = v`: replaces the value of an existing key in place, or appends a new pair. */
  function Store<V>(h: Assoc<V>, k: string, v: V): (r: Assoc<V>)
    ensures Get(r, k) == Some(v)
    ensures forall k' :: k' != k ==> Get(r, k') == Get(h, k')
    ensures Keys(r) == if k in Keys(h) then Keys(h) else Keys(h) + [k]
  {
    var i := FirstIndex(h, k);
    if i < |h| then
      var r := h[i := (k, v)];
      assert Keys(r) == Keys(h);
      assert forall k' :: FirstIndex(r, k') == FirstIndex(h, k') by {
        forall k' ensures FirstIndex(r, k') == FirstIndex(h, k') {
          FirstIndexAfterUpdate(h, i, v, k');
        }
      }
      r
    else
      var r := h + [(k, v)];
      assert Keys(r) == Keys(h) + [k];
      assert forall k' :: k' != k ==> Get(r, k') == Get(h, k') by {
        forall k' | k' != k ensures Get(r, k') == Get(h, k') {
          FirstIndexAfterAppend(h, k, v, k');
        }
      }
      r
  }
}
