/** The query string of a request URL as `URLSearchParams` keeps it: an ordered
    list of key/value pairs. The endpoint wrappers only ever call `set`. */
module SearchParams {
  import opened Js

  datatype Param = Param(key: string, value: string)

  /** `params.get(key)`: the value of the first pair with that key. */
  function Get(ps: seq<Param>, key: string): Option<string> {
    if ps == [] then None
    else if ps[0].key == key then Some(ps[0].value)
    else Get(ps[1..], key)
  }

  /** Every pair except those with the given key. */
  function Delete(ps: seq<Param>, key: string): (r: seq<Param>)
    ensures Get(r, key).None?
    ensures forall k :: k != key ==> Get(r, k) == Get(ps, k)
    ensures |r| <= |ps|
  {
    if ps == [] then []
    else if ps[0].key == key then Delete(ps[1..], key)
    else [ps[0]] + Delete(ps[1..], key)
  }

  /** Replaces the first pair with the key and deletes the later ones. */
  function ReplaceFirst(ps: seq<Param>, key: string, value: string): (r: seq<Param>)
    requires Get(ps, key).Some?
    ensures Get(r, key) == Some(value)
    ensures forall k :: k != key ==> Get(r, k) == Get(ps, k)
    ensures |r| <= |ps|
  {
    if ps[0].key == key then [Param(key, value)] + Delete(ps[1..], key)
    else [ps[0]] + ReplaceFirst(ps[1..], key, value)
  }

  /** `params.set(key, value)`: the key now maps to the value, every other key
      keeps its value, and a new key is appended at the end. */
  function Set(ps: seq<Param>, key: string, value: string): (r: seq<Param>)
    ensures Get(r, key) == Some(value)
    ensures forall k :: k != key ==> Get(r, k) == Get(ps, k)
    ensures Get(ps, key).None? ==> r == ps + [Param(key, value)]
    ensures Get(ps, key).Some? ==> |r| <= |ps|
  {
    if Get(ps, key).Some? then ReplaceFirst(ps, key, value)
    else
      AppendNewKey(ps, key, value);
      ps + [Param(key, value)]
  }

  lemma {:induction false} AppendNewKey(ps: seq<Param>, key: string, value: string)
    requires Get(ps, key).None?
    ensures Get(ps + [Param(key, value)], key) == Some(value)
    ensures forall k :: k != key ==> Get(ps + [Param(key, value)], k) == Get(ps, k)
  {
    if ps != [] {
      assert (ps + [Param(key, value)])[1..] == ps[1..] + [Param(key, value)];
      AppendNewKey(ps[1..], key, value);
    }
  }
}
