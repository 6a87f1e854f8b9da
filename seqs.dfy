/** Sequence helpers for the Python list operations the scanner relies on. */
module Seqs {

  function Elems<T>(s: seq<T>): (r: set<T>)
  {
    set x | x in s
  }

  predicate Distinct<T(==)>(s: seq<T>)
  {
    forall i, j :: 0 <= i < j < |s| ==> s[i] != s[j]
  }

  /** Concatenation is associative (stated once, so callers need no extensionality proof). */
  lemma ConcatAssoc<T>(a: seq<T>, b: seq<T>, c: seq<T>)
    ensures (a + b) + c == a + (b + c)
  {
    assert forall i :: 0 <= i < |a| + |b| + |c| ==> ((a + b) + c)[i] == (a + (b + c))[i];
  }

  /** Python's `list.remove(x)`: drops the first occurrence of `x`; it raises when `x` is absent. */
  function RemoveFirst<T(==)>(s: seq<T>, x: T): (r: seq<T>)
    requires x in s
    ensures |r| == |s| - 1
  {
    assert s == [s[0]] + s[1..];
    if s[0] == x then s[1..] else [s[0]] + RemoveFirst(s[1..], x)
  }

  lemma {:induction false} RemoveFirstMultiset<T>(s: seq<T>, x: T)
    requires x in s
    ensures multiset(RemoveFirst(s, x)) + multiset{x} == multiset(s)
  {
    assert s == [s[0]] + s[1..];
    if s[0] != x {
      RemoveFirstMultiset(s[1..], x);
    }
  }

  /** In a duplicate-free list, element `k` is not among the ones before it. */
  lemma DistinctPrefix<T>(s: seq<T>, k: nat)
    requires Distinct(s) && k < |s|
    ensures s[k] !in Elems(s[..k])
    ensures Elems(s[..k + 1]) == Elems(s[..k]) + {s[k]}
  {
    assert s[..k + 1] == s[..k] + [s[k]];
  }

  /** The elements of `s` that are not in `xs`, in their original order. */
  function Without<T(==)>(s: seq<T>, xs: set<T>): (r: seq<T>)
    ensures |r| <= |s|
  {
    if s == [] then [] else (if s[0] in xs then [] else [s[0]]) + Without(s[1..], xs)
  }

  lemma {:induction false} WithoutNothing<T>(s: seq<T>)
    ensures Without(s, {}) == s
  {
    if s != [] {
      WithoutNothing(s[1..]);
      assert s == [s[0]] + s[1..];
    }
  }

  lemma {:induction false} WithoutMembers<T>(s: seq<T>, xs: set<T>, x: T)
    ensures x in Without(s, xs) <==> x in s && x !in xs
  {
    if s != [] {
      WithoutMembers(s[1..], xs, x);
      assert s == [s[0]] + s[1..];
    }
  }

  lemma {:induction false} WithoutAbsent<T>(s: seq<T>, xs: set<T>, x: T)
    requires x !in s
    ensures Without(s, xs + {x}) == Without(s, xs)
  {
    if s != [] {
      assert s[0] != x;
      assert x !in s[1..] by { assert s == [s[0]] + s[1..]; }
      WithoutAbsent(s[1..], xs, x);
    }
  }

  lemma DistinctTail<T>(s: seq<T>)
    requires Distinct(s) && s != []
    ensures Distinct(s[1..]) && s[0] !in s[1..]
  {
    var t := s[1..];
    forall i, j | 0 <= i < j < |t| ensures t[i] != t[j] { assert t[i] == s[i + 1] && t[j] == s[j + 1]; }
    forall j | 0 <= j < |t| ensures t[j] != s[0] { assert t[j] == s[j + 1]; }
  }

  /** Removing one more element from a duplicate-free list extends the removed set by it. */
  lemma {:induction false} RemoveFirstWithout<T>(s: seq<T>, xs: set<T>, x: T)
    requires Distinct(s) && x in s && x !in xs
    ensures x in Without(s, xs)
    ensures RemoveFirst(Without(s, xs), x) == Without(s, xs + {x})
  {
    WithoutMembers(s, xs, x);
    var a, t := s[0], s[1..];
    DistinctTail(s);
    if a == x {
      assert Without(s, xs) == [x] + Without(t, xs);
      assert Without(s, xs + {x}) == Without(t, xs + {x});
      WithoutAbsent(t, xs, x);
    } else {
      assert x in t by { assert s == [a] + t; }
      RemoveFirstWithout(t, xs, x);
      WithoutStep(s, xs, x);
    }
  }

  lemma WithoutStep<T>(s: seq<T>, xs: set<T>, x: T)
    requires s != [] && s[0] != x && x in Without(s[1..], xs)
    ensures Without(s, xs + {x}) == (if s[0] in xs then [] else [s[0]]) + Without(s[1..], xs + {x})
    ensures RemoveFirst(Without(s, xs), x) == (if s[0] in xs then [] else [s[0]]) + RemoveFirst(Without(s[1..], xs), x)
  {
    var a, w := s[0], Without(s[1..], xs);
    assert (a in xs + {x}) == (a in xs);
    if a in xs {
      assert Without(s, xs) == w;
    } else {
      var v := [a] + w;
      assert Without(s, xs) == v;
      assert v[0] == a && v[1..] == w;
      assert RemoveFirst(v, x) == [a] + RemoveFirst(w, x);
    }
  }

  /** Appending an element that was absent and removing it again gives back the list. */
  lemma {:induction false} RemoveLastAdded<T>(s: seq<T>, x: T)
    requires x !in s
    ensures RemoveFirst(s + [x], x) == s
  {
    if s != [] {
      assert (s + [x])[0] == s[0] && (s + [x])[1..] == s[1..] + [x];
      assert x !in s[1..] by { assert s == [s[0]] + s[1..]; }
      RemoveLastAdded(s[1..], x);
      assert s == [s[0]] + s[1..];
    }
  }
}
