/** Python's ordering of `str` values and `sorted()` over lists of them. */
module Sorting {

  /** `a <= b` on Python strings: lexicographic by code point. */
  predicate LexLe(a: string, b: string)
    decreases |a|
  {
    |a| == 0 || (|b| > 0 && (a[0] < b[0] || (a[0] == b[0] && LexLe(a[1..], b[1..]))))
  }

  lemma LexLeReflexive(a: string)
    ensures LexLe(a, a)
    decreases |a|
  {
    if |a| > 0 { LexLeReflexive(a[1..]); }
  }

  lemma LexLeTotal(a: string, b: string)
    ensures LexLe(a, b) || LexLe(b, a)
    decreases |a|
  {
    if |a| > 0 && |b| > 0 && a[0] == b[0] { LexLeTotal(a[1..], b[1..]); }
  }

  lemma LexLeAntisymmetric(a: string, b: string)
    requires LexLe(a, b) && LexLe(b, a)
    ensures a == b
    decreases |a|
  {
    if |a| > 0 {
      LexLeAntisymmetric(a[1..], b[1..]);
      assert a == [a[0]] + a[1..] && b == [b[0]] + b[1..];
    }
  }

  lemma LexLeTransitive(a: string, b: string, c: string)
    requires LexLe(a, b) && LexLe(b, c)
    ensures LexLe(a, c)
    decreases |a|
  {
    if |a| > 0 && |b| > 0 && |c| > 0 && a[0] == b[0] == c[0] {
      LexLeTransitive(a[1..], b[1..], c[1..]);
    }
  }

  ghost predicate SortedLex(s: seq<string>) {
    forall i, j :: 0 <= i < j < |s| ==> LexLe(s[i], s[j])
  }

  /** No string appears twice. */
  ghost predicate Distinct(s: seq<string>) {
    forall i, j :: 0 <= i < j < |s| ==> s[i] != s[j]
  }

  function Insert(x: string, s: seq<string>): (r: seq<string>)
    requires SortedLex(s)
    ensures SortedLex(r)
    ensures multiset(r) == multiset(s) + multiset{x}
  {
    if s == [] then [x]
    else if LexLe(x, s[0]) then
      assert forall k :: 0 <= k < |s| ==> LexLe(x, s[k]) by {
        forall k | 0 <= k < |s| ensures LexLe(x, s[k]) {
          if k > 0 { LexLeTransitive(x, s[0], s[k]); }
        }
      }
      [x] + s
    else
      var rest := Insert(x, s[1..]);
      LexLeTotal(x, s[0]);
      assert s == [s[0]] + s[1..];
      assert forall k :: 0 <= k < |rest| ==> LexLe(s[0], rest[k]) by {
        forall k | 0 <= k < |rest| ensures LexLe(s[0], rest[k]) {
          assert rest[k] in multiset(rest);
          if rest[k] != x {
            assert rest[k] in multiset(s[1..]);
            var m :| 0 <= m < |s[1..]| && s[1..][m] == rest[k];
            assert s[m + 1] == rest[k];
          }
        }
      }
      [s[0]] + rest
  }

  /** `sorted(xs)` for a list of strings. */
  function SortStrings(xs: seq<string>): (r: seq<string>)
    ensures SortedLex(r)
    ensures multiset(r) == multiset(xs)
  {
    if xs == [] then []
    else
      assert xs == [xs[0]] + xs[1..];
      Insert(xs[0], SortStrings(xs[1..]))
  }

  lemma SortedHeadLeast(s: seq<string>, x: string)
    requires SortedLex(s) && x in multiset(s)
    ensures LexLe(s[0], x)
  {
    var i :| 0 <= i < |s| && s[i] == x;
    if i == 0 { LexLeReflexive(x); }
  }

  lemma TailMultiset(s: seq<string>)
    requires s != []
    ensures multiset(s[1..]) == multiset(s) - multiset{s[0]}
  {
    assert s == [s[0]] + s[1..];
  }

  /** A sorted arrangement of a multiset of strings is unique, so the result of
      `sorted()` depends only on which strings the list holds, not on their order. */
  lemma {:induction false} SortedUnique(a: seq<string>, b: seq<string>)
    requires SortedLex(a) && SortedLex(b)
    requires multiset(a) == multiset(b)
    ensures a == b
    decreases |a|
  {
    if a != [] {
      assert |b| == |multiset(b)| == |multiset(a)| == |a|;
      assert a[0] in multiset(b) && b[0] in multiset(a);
      SortedHeadLeast(b, a[0]);
      SortedHeadLeast(a, b[0]);
      LexLeAntisymmetric(a[0], b[0]);
      TailMultiset(a);
      TailMultiset(b);
      SortedUnique(a[1..], b[1..]);
      assert a == [a[0]] + a[1..] && b == [b[0]] + b[1..];
    }
  }

  lemma SortStringsOrderFree(xs: seq<string>, ys: seq<string>)
    requires multiset(xs) == multiset(ys)
    ensures SortStrings(xs) == SortStrings(ys)
  {
    SortedUnique(SortStrings(xs), SortStrings(ys));
  }

  /** The strings of `xs`, each once, in the order of their last occurrences. */
  function Dedup(xs: seq<string>): (r: seq<string>)
    ensures Distinct(r)
    ensures forall x :: x in r <==> x in xs
  {
    if xs == [] then []
    else
      var rest := Dedup(xs[1..]);
      if xs[0] in rest then rest else [xs[0]] + rest
  }

  lemma DistinctMultiset(s: seq<string>, x: string)
    requires Distinct(s)
    ensures multiset(s)[x] == if x in s then 1 else 0
  {
    if s != [] {
      assert s == [s[0]] + s[1..];
      assert Distinct(s[1..]);
      DistinctMultiset(s[1..], x);
    }
  }

  lemma SameElementsDistinct(a: seq<string>, b: seq<string>)
    requires Distinct(a) && Distinct(b)
    requires forall x :: x in a <==> x in b
    ensures multiset(a) == multiset(b)
  {
    forall x ensures multiset(a)[x] == multiset(b)[x] {
      DistinctMultiset(a, x);
      DistinctMultiset(b, x);
    }
  }

  lemma DistinctOfMultiset(a: seq<string>, b: seq<string>)
    requires Distinct(a) && multiset(a) == multiset(b)
    ensures Distinct(b)
  {
    forall i, j | 0 <= i < j < |b| ensures b[i] != b[j] {
      if b[i] == b[j] {
        var x := b[i];
        assert b == b[..j] + b[j..];
        assert b[..j][i] == x && b[j..][0] == x;
        assert multiset(b) == multiset(b[..j]) + multiset(b[j..]);
        assert multiset(b[..j])[x] >= 1 && multiset(b[j..])[x] >= 1;
        DistinctMultiset(a, x);
        assert false;
      }
    }
  }

  /** Some listing of the elements of a set, each listed once (Python's `list(s)`,
      whose order is not specified). */
  ghost function ListOf(s: set<string>): (r: seq<string>)
    ensures Distinct(r) && forall x :: x in r <==> x in s
    ensures multiset(r) == multiset(s)
  {
    if s == {} then []
    else
      var x :| x in s;
      var rest := ListOf(s - {x});
      assert multiset([x] + rest) == multiset{x} + multiset(s - {x});
      assert multiset(s) == multiset{x} + multiset(s - {x}) by {
        assert s == {x} + (s - {x});
      }
      [x] + rest
  }

  /** `sorted(s)` for a set of strings. */
  ghost function SortedSet(s: set<string>): (r: seq<string>)
    ensures SortedLex(r) && Distinct(r)
    ensures forall x :: x in r <==> x in s
  {
    var r := SortStrings(ListOf(s));
    DistinctOfMultiset(ListOf(s), r);
    assert forall x :: x in r <==> x in multiset(r);
    r
  }

  /** Every sorted listing of a set's elements without repeats is `sorted(s)`. */
  lemma {:induction false} SortedSetUnique(s: set<string>, r: seq<string>)
    requires SortedLex(r) && Distinct(r)
    requires forall x :: x in r <==> x in s
    ensures r == SortedSet(s)
  {
    SameElementsDistinct(r, SortedSet(s));
    SortedUnique(r, SortedSet(s));
  }

  /** `sorted(list(s))`: whatever order `list(s)` lists the set in, sorting it gives `sorted(s)`. */
  lemma SortListedSet(s: set<string>, listed: seq<string>)
    requires Distinct(listed)
    requires forall x :: x in listed <==> x in s
    ensures SortStrings(listed) == SortedSet(s)
  {
    var sorted := SortStrings(listed);
    DistinctOfMultiset(listed, sorted);
    assert forall x :: x in sorted <==> x in multiset(sorted);
    assert forall x :: x in listed <==> x in multiset(listed);
    SortedSetUnique(s, sorted);
  }
}
