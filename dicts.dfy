/**
 * Python dictionaries with string keys, kept as their entries in insertion
 * order (the order `dict` iteration, `str(dict)` and a one-row DataFrame built
 * from a dict all follow).
 */
module Dicts {
  import opened Wrappers

  type Dict<V> = seq<(string, V)>

  /** `list(d.keys())`. */
  function KeysOf<V>(d: Dict<V>): (ks: seq<string>)
    ensures |ks| == |d|
    ensures forall i :: 0 <= i < |d| ==> ks[i] == d[i].0
  {
    seq(|d|, i requires 0 <= i < |d| => d[i].0)
  }

  /** `k in d`. */
  predicate HasKey<V>(d: Dict<V>, k: string) {
    d != [] && (d[0].0 == k || HasKey(d[1..], k))
  }

  lemma {:induction false} HasKeyAt<V>(d: Dict<V>, k: string)
    ensures HasKey(d, k) <==> exists i :: 0 <= i < |d| && d[i].0 == k
  {
    if d != [] {
      HasKeyAt(d[1..], k);
      if HasKey(d[1..], k) {
        var i :| 0 <= i < |d[1..]| && d[1..][i].0 == k;
        assert d[i + 1].0 == k;
      }
      if exists i :: 0 <= i < |d| && d[i].0 == k {
        var i :| 0 <= i < |d| && d[i].0 == k;
        if i > 0 {
          assert d[1..][i - 1].0 == k;
        }
      }
    }
  }

  predicate DistinctKeys<V>(d: Dict<V>) {
    forall i, j :: 0 <= i < j < |d| ==> d[i].0 != d[j].0
  }

  /** `d[k]` if `k in d`, otherwise `None`. */
  function Lookup<V>(d: Dict<V>, k: string): (r: Option<V>)
    ensures r.Some? <==> HasKey(d, k)
  {
    if d == [] then None
    else if d[0].0 == k then Some(d[0].1)
    else Lookup(d[1..], k)
  }

  /** `d.get(k, default)`. */
  function Get<V>(d: Dict<V>, k: string, default: V): V {
    Lookup(d, k).GetOr(default)
  }

  /** Looking up in a dict with one more entry at the end: the earlier entries win. */
  lemma {:induction false} LookupSnoc<V>(d: Dict<V>, p: (string, V), k: string)
    ensures Lookup(d + [p], k)
         == if HasKey(d, k) then Lookup(d, k) else if p.0 == k then Some(p.1) else None
  {
    if d != [] {
      assert (d + [p])[1..] == d[1..] + [p];
      LookupSnoc(d[1..], p, k);
    }
  }

  /** With distinct keys, looking up the key stored at position `i` gives the value stored there. */
  lemma {:induction false} LookupAt<V>(d: Dict<V>, i: nat)
    requires DistinctKeys(d) && i < |d|
    ensures Lookup(d, d[i].0) == Some(d[i].1)
  {
    if i > 0 {
      LookupAt(d[1..], i - 1);
    }
  }

  /** `d[k] = v`: overwrites the value of an existing key in place, or appends a new entry. */
  function Put<V>(d: Dict<V>, k: string, v: V): (r: Dict<V>)
    ensures |r| == if HasKey(d, k) then |d| else |d| + 1
    ensures forall i :: 0 <= i < |d| ==> r[i].0 == d[i].0
    ensures forall i :: 0 <= i < |d| && d[i].0 != k ==> r[i] == d[i]
    ensures !HasKey(d, k) ==> r[|d|] == (k, v)
    ensures forall x :: HasKey(r, x) <==> HasKey(d, x) || x == k
    ensures Lookup(r, k) == Some(v)
    ensures forall x :: x != k ==> Lookup(r, x) == Lookup(d, x)
  {
    if d == [] then
      [(k, v)]
    else if d[0].0 == k then
      var r := [(k, v)] + d[1..];
      assert r[1..] == d[1..];
      r
    else
      var tail := Put(d[1..], k, v);
      var r := [d[0]] + tail;
      assert r[1..] == tail;
      r
  }

  /** `d[k] = v` keeps the keys of `d` distinct. */
  lemma PutDistinct<V>(d: Dict<V>, k: string, v: V)
    requires DistinctKeys(d)
    ensures DistinctKeys(Put(d, k, v))
  {
    HasKeyAt(d, k);
  }

  /** `{k: v for k in keys}`: every listed key, once, in order of first appearance, all mapped to `v`. */
  function FromKeys<V>(keys: seq<string>, v: V): (r: Dict<V>)
    ensures DistinctKeys(r)
    ensures forall x :: HasKey(r, x) <==> x in keys
    ensures forall x :: x in keys ==> Lookup(r, x) == Some(v)
  {
    if keys == [] then []
    else
      var init := keys[..|keys| - 1];
      assert keys == init + [keys[|keys| - 1]];
      PutDistinct(FromKeys(init, v), keys[|keys| - 1], v);
      Put(FromKeys(init, v), keys[|keys| - 1], v)
  }

  /** The assignments `d[k] = v` for each entry of `es`, in order. */
  function PutAll<V>(d: Dict<V>, es: Dict<V>): (r: Dict<V>)
    requires DistinctKeys(d)
    ensures DistinctKeys(r)
    ensures forall k :: HasKey(r, k) <==> HasKey(d, k) || HasKey(es, k)
    ensures forall k :: !HasKey(es, k) ==> Lookup(r, k) == Lookup(d, k)
    decreases |es|
  {
    if es == [] then d
    else
      var init := es[..|es| - 1];
      var last := es[|es| - 1];
      var prev := PutAll(d, init);
      PutDistinct(prev, last.0, last.1);
      assert es == init + [last];
      forall k ensures HasKey(es, k) <==> HasKey(init, k) || k == last.0 {
        LookupSnoc(init, last, k);
      }
      Put(prev, last.0, last.1)
  }

  /** With distinct keys in `es`, every assigned key ends up with its assigned value. */
  lemma {:induction false} PutAllAssigns<V>(d: Dict<V>, es: Dict<V>, k: string)
    requires DistinctKeys(d) && DistinctKeys(es) && HasKey(es, k)
    ensures Lookup(PutAll(d, es), k) == Lookup(es, k)
    decreases |es|
  {
    var init := es[..|es| - 1];
    var last := es[|es| - 1];
    assert es == init + [last];
    LookupSnoc(init, last, k);
    HasKeyAt(init, k);
    if k != last.0 {
      assert DistinctKeys(init);
      PutAllAssigns(d, init, k);
    }
  }
}
