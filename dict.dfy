/** A Python dict as the list of its (key, value) pairs in insertion order. */
module Dict {

  import opened Wrappers

  /** The keys, in insertion order (what iterating over the dict yields). */
  function Keys<V>(t: seq<(string, V)>): (r: seq<string>)
    ensures |r| == |t| && forall i | 0 <= i < |t| :: r[i] == t[i].0
  {
    seq(|t|, i requires 0 <= i < |t| => t[i].0)
  }

  /** No key occurs twice: what a dict display or `**kwargs` always gives. */
  predicate DistinctKeys<V>(t: seq<(string, V)>) {
    forall i, j | 0 <= i < j < |t| :: t[i].0 != t[j].0
  }

  /** `d[k]`, with None where Python raises KeyError. */
  function Lookup<V>(t: seq<(string, V)>, k: string): Option<V> {
    if t == [] then None else if t[0].0 == k then Some(t[0].1) else Lookup(t[1..], k)
  }

  lemma {:induction false} LookupFound<V>(t: seq<(string, V)>, k: string)
    ensures Lookup(t, k).Some? <==> k in Keys(t)
    ensures Lookup(t, k).Some? ==> (k, Lookup(t, k).value) in t
  {
    if t != [] {
      LookupFound(t[1..], k);
      assert Keys(t) == [t[0].0] + Keys(t[1..]);
    }
  }

  /** The dict as a mapping, forgetting the insertion order (what `==` compares). */
  function ToMap<V>(t: seq<(string, V)>): (m: map<string, V>)
    ensures m.Keys == set k | k in Keys(t)
  {
    map k | k in Keys(t) :: LookupFound(t, k); Lookup(t, k).value
  }

  /** Two dicts with distinct keys that are equal as mappings hold the same keys,
      each once, though perhaps in another order. */
  lemma SameMapSameKeys<V>(a: seq<(string, V)>, b: seq<(string, V)>)
    requires DistinctKeys(a) && DistinctKeys(b) && ToMap(a) == ToMap(b)
    ensures multiset(Keys(a)) == multiset(Keys(b))
  {
    DistinctMultiset(Keys(a));
    DistinctMultiset(Keys(b));
    assert (set k | k in Keys(a)) == ToMap(a).Keys == ToMap(b).Keys == (set k | k in Keys(b));
  }

  lemma {:induction false} DistinctMultiset(s: seq<string>)
    requires forall i, j | 0 <= i < j < |s| :: s[i] != s[j]
    ensures multiset(s) == multiset(set k | k in s)
  {
    if s != [] {
      var rest := s[1..];
      DistinctMultiset(rest);
      assert s == [s[0]] + rest;
      assert s[0] !in rest;
      assert (set k | k in s) == {s[0]} + (set k | k in rest);
    }
  }
}
