/**
 * Generic list and dictionary helpers shared by both dataset files:
 * Python's `{x: i for i, x in enumerate(s)}` and `dict(pairs)` tables (a later
 * entry overwrites an earlier one), `list(set(...))` (an order the program does
 * not control), `[s[i] for i in order]` and `range(n)`.
 */
module Tables {

  datatype Option<T> = None | Some(value: T)

  predicate Distinct<T(==)>(s: seq<T>) {
    forall i, j :: 0 <= i < j < |s| ==> s[i] != s[j]
  }

  /** `list(range(n))` */
  function Range(n: nat): (r: seq<nat>)
    ensures |r| == n
    ensures forall k :: 0 <= k < n ==> r[k] == k
  {
    if n == 0 then [] else Range(n - 1) + [n - 1]
  }

  /**
   * `{x: idx for idx, x in enumerate(s)}`: every entry of `s` is a key, and a
   * key maps to the position of its LAST occurrence, because a later entry of
   * the comprehension overwrites an earlier one.
   */
  function IndexMap<T(==)>(s: seq<T>): (m: map<T, nat>)
    ensures m.Keys == set x | x in s
    ensures forall x :: x in m ==> m[x] < |s| && s[m[x]] == x
    ensures forall x, j :: x in m && m[x] < j < |s| ==> s[j] != x
  {
    if s == [] then map[] else IndexMap(s[..|s| - 1])[s[|s| - 1] := |s| - 1]
  }

  /** On a table without repeated entries, the index map is the exact inverse. */
  lemma IndexMapInverse<T>(s: seq<T>)
    requires Distinct(s)
    ensures forall i :: 0 <= i < |s| ==> s[i] in IndexMap(s) && IndexMap(s)[s[i]] == i
  {
  }

  /** The pair at position `i` is the last one with its key. */
  predicate LastWithKey<K(==), V>(pairs: seq<(K, V)>, i: nat)
    requires i < |pairs|
  {
    forall j :: i < j < |pairs| ==> pairs[j].0 != pairs[i].0
  }

  /**
   * `dict(pairs)`: the keys are the first components, and a key is bound to the
   * second component of the last pair that has it.
   */
  function DictOf<K(==), V>(pairs: seq<(K, V)>): (m: map<K, V>)
    ensures m.Keys == set p | p in pairs :: p.0
    ensures forall i :: 0 <= i < |pairs| && LastWithKey(pairs, i) ==> m[pairs[i].0] == pairs[i].1
  {
    if pairs == [] then map[]
    else
      DictOfStep(pairs);
      DictOf(pairs[..|pairs| - 1])[pairs[|pairs| - 1].0 := pairs[|pairs| - 1].1]
  }

  /** The keys of a list of pairs are those of its prefix and the last key; a last pair of the list but its last is one of the prefix. */
  lemma DictOfStep<K, V>(pairs: seq<(K, V)>)
    requires pairs != []
    ensures var prefix := pairs[..|pairs| - 1];
      && (set p | p in pairs :: p.0) == (set p | p in prefix :: p.0) + {pairs[|pairs| - 1].0}
      && forall i :: 0 <= i < |prefix| && LastWithKey(pairs, i) ==> LastWithKey(prefix, i)
  {
    var prefix := pairs[..|pairs| - 1];
    assert pairs == prefix + [pairs[|pairs| - 1]];
  }

  /** `d.get(k, default)` */
  function Get<K(==), V>(m: map<K, V>, k: K, default: V): (r: V)
    ensures k in m ==> r == m[k]
    ensures k !in m ==> r == default
  {
    if k in m then m[k] else default
  }

  /** `[d.get(k, default) for k in keys]` */
  function GetAll<K(==), V>(m: map<K, V>, keys: seq<K>, default: V): (r: seq<V>)
    ensures |r| == |keys|
    ensures forall i :: 0 <= i < |keys| ==> r[i] == Get(m, keys[i], default)
  {
    if keys == [] then []
    else GetAll(m, keys[..|keys| - 1], default) + [Get(m, keys[|keys| - 1], default)]
  }

  /**
   * `list(s)` for a Python set: the order depends on hashing, which the
   * program does not control, so each element is picked arbitrarily.
   */
  method Enumerate<T(==)>(s: set<T>) returns (xs: seq<T>)
    ensures (set x | x in xs) == s
    ensures Distinct(xs)
    ensures |xs| == |s|
  {
    xs := [];
    var rest := s;
    while rest != {}
      invariant rest !! (set x | x in xs)
      invariant rest + (set x | x in xs) == s
      invariant Distinct(xs)
      invariant |xs| + |rest| == |s|
      decreases |rest|
    {
      var x :| x in rest;
      xs := xs + [x];
      rest := rest - {x};
    }
  }

  /** `order` lists every index below `n` exactly once. */
  predicate IsPermutation(order: seq<nat>, n: nat) {
    && |order| == n
    && (forall k :: 0 <= k < |order| ==> order[k] < n)
    && multiset(order) == multiset(Range(n))
  }

  lemma PermutationBounds(order: seq<nat>, n: nat)
    requires multiset(order) == multiset(Range(n))
    ensures |order| == n
    ensures forall k :: 0 <= k < |order| ==> order[k] < n
  {
    assert |order| == |multiset(order)| == |multiset(Range(n))| == n;
    forall k | 0 <= k < |order|
      ensures order[k] < n
    {
      assert order[k] in multiset(order);
      assert order[k] in multiset(Range(n));
    }
  }

  /** `[s[i] for i in order]` */
  function Gather<T>(s: seq<T>, order: seq<nat>): (r: seq<T>)
    requires forall k :: 0 <= k < |order| ==> order[k] < |s|
    ensures |r| == |order|
    ensures forall k :: 0 <= k < |order| ==> r[k] == s[order[k]]
  {
    seq(|order|, k requires 0 <= k < |order| => s[order[k]])
  }

  lemma MultisetWithout<T>(s: seq<T>, p: nat)
    requires p < |s|
    ensures multiset(s[..p] + s[p + 1..]) == multiset(s) - multiset{s[p]}
  {
    assert s == s[..p] + [s[p]] + s[p + 1..];
  }

  lemma MultisetRangeSnoc(n: nat)
    ensures multiset(Range(n + 1)) == multiset(Range(n)) + multiset{n}
  {
    assert Range(n + 1) == Range(n) + [n];
  }

  lemma RangeWithout(order: seq<nat>, n: nat, p: nat)
    requires multiset(order) == multiset(Range(n + 1))
    requires p < |order| && order[p] == n
    ensures multiset(order[..p] + order[p + 1..]) == multiset(Range(n))
  {
    MultisetWithout(order, p);
    MultisetRangeSnoc(n);
  }

  /** Taking the largest index out of a permutation leaves a permutation of the rest. */
  lemma PermutationWithout(order: seq<nat>, n: nat, p: nat)
    requires IsPermutation(order, n + 1)
    requires p < |order| && order[p] == n
    ensures IsPermutation(order[..p] + order[p + 1..], n)
    ensures forall k :: 0 <= k < |order| && k != p ==> order[k] < n
  {
    var rest := order[..p] + order[p + 1..];
    RangeWithout(order, n, p);
    PermutationBounds(rest, n);
    forall k | 0 <= k < |order| && k != p
      ensures order[k] < n
    {
      if k < p { assert order[k] == rest[k]; } else { assert order[k] == rest[k - 1]; }
    }
  }

  lemma GatherWithout<T>(s: seq<T>, order: seq<nat>, p: nat)
    requires |s| > 0 && p < |order| && order[p] == |s| - 1
    requires forall k :: 0 <= k < |order| && k != p ==> order[k] < |s| - 1
    ensures var g := Gather(s[..|s| - 1], order[..p] + order[p + 1..]);
      Gather(s, order) == g[..p] + [s[|s| - 1]] + g[p..]
  {
  }

  lemma PermutationHasLast(order: seq<nat>, n: nat) returns (p: nat)
    requires IsPermutation(order, n + 1)
    ensures p < |order| && order[p] == n
  {
    assert Range(n + 1) == Range(n) + [n];
    assert n in multiset(Range(n + 1));
    assert n in multiset(order);
    p :| 0 <= p < |order| && order[p] == n;
  }

  lemma MultisetSplice<T>(g: seq<T>, p: nat, x: T, s: seq<T>)
    requires p <= |g| && multiset(g) == multiset(s)
    ensures multiset(g[..p] + [x] + g[p..]) == multiset(s + [x])
  {
    assert g == g[..p] + g[p..];
  }

  lemma GatherStep<T>(s: seq<T>, order: seq<nat>, p: nat)
    requires |s| > 0 && p < |order| && order[p] == |s| - 1
    requires forall k :: 0 <= k < |order| && k != p ==> order[k] < |s| - 1
    requires multiset(Gather(s[..|s| - 1], order[..p] + order[p + 1..])) == multiset(s[..|s| - 1])
    ensures multiset(Gather(s, order)) == multiset(s)
  {
    var n := |s| - 1;
    var g := Gather(s[..n], order[..p] + order[p + 1..]);
    GatherWithout(s, order, p);
    MultisetSplice(g, p, s[n], s[..n]);
    assert s[..n] + [s[n]] == s;
  }

  /** Reordering a list by a permutation keeps every entry, with its multiplicity. */
  lemma {:induction false} GatherPermutation<T>(s: seq<T>, order: seq<nat>)
    requires IsPermutation(order, |s|)
    ensures multiset(Gather(s, order)) == multiset(s)
    decreases |s|
  {
    if |s| > 0 {
      var n := |s| - 1;
      var p := PermutationHasLast(order, n);
      PermutationWithout(order, n, p);
      GatherPermutation(s[..n], order[..p] + order[p + 1..]);
      GatherStep(s, order, p);
    }
  }

  /** Reordering `range(n)` by a permutation gives the permutation itself. */
  lemma GatherRange(order: seq<nat>, n: nat)
    requires IsPermutation(order, n)
    ensures |order| == n
    ensures Gather(Range(n), order) == order
  {
    PermutationBounds(order, n);
  }

  /** Reordering one permutation by another gives a permutation. */
  lemma ComposePermutations(o1: seq<nat>, o2: seq<nat>, n: nat)
    requires |o1| == n && IsPermutation(o1, n) && IsPermutation(o2, n)
    ensures IsPermutation(Gather(o1, o2), n)
  {
    GatherPermutation(o1, o2);
  }
}
