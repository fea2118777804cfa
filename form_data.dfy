/**
 * A form body as both scripts build it (`FormData` in one, `URLSearchParams`
 * in the other): an ordered list of key/value pairs, appended one at a time.
 * The receiving service reads a field by its key.
 */
module FormData {

  type Pair = (string, string)
  type Body = seq<Pair>

  datatype Option<T> = None | Some(value: T)

  /** The keys of a body, in order. */
  function Keys(b: Body): (ks: seq<string>)
    ensures |ks| == |b|
    ensures forall k :: 0 <= k < |b| ==> ks[k] == b[k].0
  {
    if b == [] then [] else [b[0].0] + Keys(b[1..])
  }

  /** The value of the first pair whose key is `key`, as `URLSearchParams.get` gives it. */
  function Lookup(b: Body, key: string): (r: Option<string>)
    ensures r == None <==> key !in Keys(b)
    ensures r.Some? ==> (key, r.value) in b
  {
    if b == [] then None
    else if b[0].0 == key then Some(b[0].1)
    else Lookup(b[1..], key)
  }

  /** No key occurs twice. */
  predicate DistinctKeys(ks: seq<string>) {
    forall i, j :: 0 <= i < j < |ks| ==> ks[i] != ks[j]
  }

  /** In a body with distinct keys, looking up the key of any pair gives that pair's value. */
  lemma {:induction false} LookupDistinct(b: Body, k: nat)
    requires DistinctKeys(Keys(b))
    requires k < |b|
    ensures Lookup(b, b[k].0) == Some(b[k].1)
  {
    if k > 0 {
      assert Keys(b)[0] != Keys(b)[k];
      assert Keys(b[1..]) == Keys(b)[1..];
      LookupDistinct(b[1..], k - 1);
    }
  }
}
