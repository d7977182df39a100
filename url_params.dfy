/**
 * The browser's URLSearchParams, and a plain JavaScript object whose values are strings,
 * both seen as an ordered list of (key, value) pairs. Percent-encoding is abstracted away:
 * the pairs stand for the decoded query string.
 */
module UrlParams {
  import opened Wrappers

  type Pairs = seq<(string, string)>

  /** No key occurs twice (true of every plain object, and of every query built with Set). */
  ghost predicate DistinctKeys(q: Pairs)
  {
    forall i, j :: 0 <= i < j < |q| ==> q[i].0 != q[j].0
  }

  /** `params.get(k)`: the value of the first pair named k, or None (`null`). */
  function Lookup(q: Pairs, k: string): (r: Option<string>)
    ensures r.None? <==> forall i :: 0 <= i < |q| ==> q[i].0 != k
    ensures r.Some? ==> (k, r.value) in q
  {
    if q == [] then None
    else if q[0].0 == k then Some(q[0].1)
    else Lookup(q[1..], k)
  }

  /** The value `get` finds is the one of the first pair with that key. */
  lemma {:induction false} LookupIsFirst(q: Pairs, k: string)
    requires Lookup(q, k).Some?
    ensures exists i :: 0 <= i < |q| && q[i] == (k, Lookup(q, k).value) &&
                        forall j :: 0 <= j < i ==> q[j].0 != k
  {
    if q[0].0 != k {
      LookupIsFirst(q[1..], k);
      var v := Lookup(q, k).value;
      var i :| 0 <= i < |q[1..]| && q[1..][i] == (k, v) && forall j :: 0 <= j < i ==> q[1..][j].0 != k;
      assert q[i + 1] == (k, v);
      forall j | 0 <= j < i + 1 ensures q[j].0 != k {
        if j > 0 { assert q[j] == q[1..][j - 1]; }
      }
    } else {
      assert q[0] == (k, Lookup(q, k).value);
    }
  }

  /** Every pair named k dropped, the others kept in order. */
  function Without(q: Pairs, k: string): (r: Pairs)
    ensures Lookup(r, k) == None
    ensures forall k' :: k' != k ==> Lookup(r, k') == Lookup(q, k')
  {
    if q == [] then []
    else if q[0].0 == k then Without(q[1..], k)
    else [q[0]] + Without(q[1..], k)
  }

  /** The first pair named k gets value v, the later ones named k are dropped. */
  function ReplaceFirst(q: Pairs, k: string, v: string): (r: Pairs)
    requires Lookup(q, k).Some?
    ensures Lookup(r, k) == Some(v)
    ensures forall k' :: k' != k ==> Lookup(r, k') == Lookup(q, k')
  {
    if q[0].0 == k then [(k, v)] + Without(q[1..], k)
    else [q[0]] + ReplaceFirst(q[1..], k, v)
  }

  /**
   * `params.set(k, v)`: afterwards k reads v and every other key reads as before; a key
   * that was absent is appended at the end.
   */
  function Set(q: Pairs, k: string, v: string): (r: Pairs)
    ensures Lookup(r, k) == Some(v)
    ensures forall k' :: k' != k ==> Lookup(r, k') == Lookup(q, k')
    ensures Lookup(q, k).None? ==> r == q + [(k, v)]
  {
    if Lookup(q, k).None? then
      LookupAppend(q, k, v);
      q + [(k, v)]
    else
      ReplaceFirst(q, k, v)
  }

  /** Appending a pair changes only what its own key reads, and only if that key was absent. */
  lemma {:induction false} LookupAppend(q: Pairs, k: string, v: string)
    ensures forall k' ::
              Lookup(q + [(k, v)], k') ==
              (if Lookup(q, k').Some? then Lookup(q, k') else if k' == k then Some(v) else None)
  {
    if q != [] {
      LookupAppend(q[1..], k, v);
      assert (q + [(k, v)])[1..] == q[1..] + [(k, v)];
    }
  }

  /** In a query with distinct keys, the pair at position i is what its key reads. */
  lemma LookupAt(q: Pairs, i: nat)
    requires DistinctKeys(q) && i < |q|
    ensures Lookup(q, q[i].0) == Some(q[i].1)
  {
  }
}
