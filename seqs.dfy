/** The array operations the source calls with a callback (`filter`, `map`,
    `findIndex`/`find`) and facts about permutations. */
module Seqs {
  import opened Wrappers

  /** `s.filter(keep)`: the elements `keep` accepts, and only those. */
  function Keep<T>(s: seq<T>, keep: T -> bool): (r: seq<T>)
    ensures |r| <= |s|
    ensures forall i :: 0 <= i < |r| ==> r[i] in s && keep(r[i])
    ensures forall i :: 0 <= i < |s| && keep(s[i]) ==> s[i] in r
  {
    if s == [] then [] else (if keep(s[0]) then [s[0]] else []) + Keep(s[1..], keep)
  }

  /** `filter` works element by element, left to right: filtering a concatenation is
      concatenating the filtered parts, so the kept elements stay in their order. */
  lemma {:induction false} KeepAppend<T>(a: seq<T>, b: seq<T>, keep: T -> bool)
    ensures Keep(a + b, keep) == Keep(a, keep) + Keep(b, keep)
  {
    if a == [] {
      assert a + b == b;
    } else {
      assert (a + b)[0] == a[0] && (a + b)[1..] == a[1..] + b;
      KeepAppend(a[1..], b, keep);
    }
  }

  /** Filtering drops nothing exactly when every element is accepted. */
  lemma {:induction false} KeepAllIff<T>(s: seq<T>, keep: T -> bool)
    ensures Keep(s, keep) == s <==> forall i :: 0 <= i < |s| ==> keep(s[i])
  {
    if s != [] {
      KeepAllIff(s[1..], keep);
      if !keep(s[0]) {
        assert |Keep(s, keep)| < |s|;
      } else if Keep(s, keep) == s {
        assert Keep(s[1..], keep) == s[1..];
      }
    }
  }

  /** The elements `keep` accepts and the ones it rejects (those `drop` accepts)
      together make up `s`. */
  lemma {:induction false} KeepSplits<T>(s: seq<T>, keep: T -> bool, drop: T -> bool)
    requires forall x :: drop(x) <==> !keep(x)
    ensures multiset(Keep(s, keep)) + multiset(Keep(s, drop)) == multiset(s)
  {
    if s != [] {
      KeepSplits(s[1..], keep, drop);
      assert s == [s[0]] + s[1..];
    }
  }

  /** `s.findIndex(match)` as an option: the first index whose element matches. */
  function FirstIndex<T>(s: seq<T>, matches: T -> bool): (r: Option<nat>)
    ensures r.Some? ==> r.value < |s| && matches(s[r.value])
    ensures r.Some? ==> forall j :: 0 <= j < r.value ==> !matches(s[j])
    ensures r.None? <==> forall j :: 0 <= j < |s| ==> !matches(s[j])
  {
    if s == [] then None
    else if matches(s[0]) then Some(0)
    else match FirstIndex(s[1..], matches)
      case None => None
      case Some(i) => Some(i + 1)
  }

  /** `s.find(match)`: the first matching element, or `undefined`. */
  function Find<T>(s: seq<T>, matches: T -> bool): (r: Option<T>)
    ensures r.Some? <==> exists i :: 0 <= i < |s| && matches(s[i])
    ensures r.Some? ==> exists i :: 0 <= i < |s| && s[i] == r.value && matches(s[i])
                                     && forall j :: 0 <= j < i ==> !matches(s[j])
  {
    match FirstIndex(s, matches)
    case None => None
    case Some(i) => Some(s[i])
  }

  /** `s.map(f)`. */
  function Map<T, U>(s: seq<T>, f: T -> U): (r: seq<U>)
    ensures |r| == |s|
    ensures forall i :: 0 <= i < |s| ==> r[i] == f(s[i])
  {
    if s == [] then [] else [f(s[0])] + Map(s[1..], f)
  }

  /** Two sequences with the same elements, counted with multiplicity, have the same
      length and the same members. */
  lemma SameElements<T>(a: seq<T>, b: seq<T>)
    requires multiset(a) == multiset(b)
    ensures |a| == |b|
    ensures forall i :: 0 <= i < |a| ==> a[i] in b
    ensures forall i :: 0 <= i < |b| ==> b[i] in a
  {
    assert |multiset(a)| == |a| && |multiset(b)| == |b|;
    forall i | 0 <= i < |a| ensures a[i] in b {
      assert a[i] in multiset(b);
    }
    forall i | 0 <= i < |b| ensures b[i] in a {
      assert b[i] in multiset(a);
    }
  }

  /** Taking out the element at `k` takes one copy of it out of the multiset. */
  lemma MultisetRemove<T>(s: seq<T>, k: int)
    requires 0 <= k < |s|
    ensures multiset(s) == multiset(s[..k] + s[k + 1..]) + multiset{s[k]}
  {
    assert s == s[..k] + [s[k]] + s[k + 1..];
  }

  lemma MultisetCancel<T>(x: multiset<T>, y: multiset<T>, e: T)
    requires x + multiset{e} == y + multiset{e}
    ensures x == y
  {
    forall v ensures x[v] == y[v] {
      assert (x + multiset{e})[v] == (y + multiset{e})[v];
    }
  }

  lemma MapRemove<T, U>(s: seq<T>, k: int, f: T -> U)
    requires 0 <= k < |s|
    ensures Map(s[..k] + s[k + 1..], f) == Map(s, f)[..k] + Map(s, f)[k + 1..]
  {
    var rest := s[..k] + s[k + 1..];
    var m := Map(s, f);
    forall i | 0 <= i < |rest| ensures Map(rest, f)[i] == (m[..k] + m[k + 1..])[i] {
      if i < k {
        assert rest[i] == s[i];
      } else {
        assert rest[i] == s[i + 1];
      }
    }
  }

  /** Mapping a permutation gives a permutation of the mapped sequence. */
  lemma {:induction false} MapPermutation<T, U>(a: seq<T>, b: seq<T>, f: T -> U)
    requires multiset(a) == multiset(b)
    ensures multiset(Map(a, f)) == multiset(Map(b, f))
  {
    if a != [] {
      assert a[0] in multiset(b);
      var k :| 0 <= k < |b| && b[k] == a[0];
      var rest := b[..k] + b[k + 1..];
      MultisetRemove(b, k);
      MultisetRemove(a, 0);
      MultisetCancel(multiset(a[1..]), multiset(rest), a[0]);
      MapPermutation(a[1..], rest, f);
      MapRemove(b, k, f);
      MultisetRemove(Map(b, f), k);
      assert Map(a, f) == [f(a[0])] + Map(a[1..], f);
    }
  }
}
