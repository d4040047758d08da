/** Python dict comprehensions and list helpers over sequences. */
module Collections {

  predicate NoDuplicates<T(==)>(s: seq<T>) {
    forall i, j :: 0 <= i < j < |s| ==> s[i] != s[j]
  }

  /**
   * {key(x): x for x in s}: every key of s is present, and each key maps to
   * the LAST element of s with that key (later entries overwrite earlier ones).
   */
  function IndexBy<K(==), T(==)>(s: seq<T>, key: T -> K): (m: map<K, T>)
    ensures m.Keys == set x | x in s :: key(x)
    ensures forall k :: k in m ==> m[k] in s && key(m[k]) == k
    ensures forall i :: 0 <= i < |s| && (forall j :: i < j < |s| ==> key(s[j]) != key(s[i]))
              ==> m[key(s[i])] == s[i]
  {
    if s == [] then map[]
    else
      var init := s[..|s| - 1];
      assert s == init + [s[|s| - 1]];
      IndexBy(init, key)[key(s[|s| - 1]) := s[|s| - 1]]
  }

  /** The sum of a list of reals, as Python's sum(). */
  function Sum(s: seq<real>): real {
    if s == [] then 0.0 else s[0] + Sum(s[1..])
  }

  /** Every element divided by t. */
  function Scale(s: seq<real>, t: real): (r: seq<real>)
    requires t != 0.0
    ensures |r| == |s| && forall i :: 0 <= i < |s| ==> r[i] == s[i] / t
  {
    seq(|s|, i requires 0 <= i < |s| => s[i] / t)
  }

  lemma {:induction false} SumScale(s: seq<real>, t: real)
    requires t != 0.0
    ensures Sum(Scale(s, t)) == Sum(s) / t
  {
    if s != [] {
      assert Scale(s, t)[1..] == Scale(s[1..], t);
      SumScale(s[1..], t);
    }
  }

  /** Dividing by a positive total gives fractions that add up to one. */
  lemma NormalizedSumsToOne(s: seq<real>)
    requires Sum(s) > 0.0
    ensures Sum(Scale(s, Sum(s))) == 1.0
  {
    SumScale(s, Sum(s));
    assert Sum(s) / Sum(s) == 1.0;
  }

  /** {keys[i]: vals[i]} for distinct keys. */
  function MapOf<K(==), V>(keys: seq<K>, vals: seq<V>): (m: map<K, V>)
    requires |keys| == |vals| && NoDuplicates(keys)
    ensures m.Keys == set k | k in keys
    ensures forall i :: 0 <= i < |keys| ==> m[keys[i]] == vals[i]
  {
    map i | 0 <= i < |keys| :: keys[i] := vals[i]
  }
}
