/**
 * The array operations the source uses (`filter`, `find`, `map` over the
 * matching records) written once, generically, with the facts every caller
 * relies on: what a filter keeps, that it keeps the input's order, and which
 * element a `find` returns.
 */
module Seqs {
  import opened Wrappers

  /** `r` is obtained from `xs` by deleting elements: it keeps their order. */
  ghost predicate IsSubsequence<T>(r: seq<T>, xs: seq<T>)
    decreases |xs|
  {
    if r == [] then true
    else if xs == [] then false
    else (r[0] == xs[0] && IsSubsequence(r[1..], xs[1..])) || IsSubsequence(r, xs[1..])
  }

  /** No value occurs twice. */
  ghost predicate NoDup<T>(xs: seq<T>) {
    forall i, j :: 0 <= i < j < |xs| ==> xs[i] != xs[j]
  }

  /** The number of positions of `xs` that hold `x`. */
  function Occurrences<T(==)>(xs: seq<T>, x: T): (n: nat)
    ensures n <= |xs|
    ensures n == 0 <==> x !in xs
  {
    if xs == [] then 0 else (if xs[0] == x then 1 else 0) + Occurrences(xs[1..], x)
  }

  /** `xs.filter(p)`. */
  function Filter<T(==)>(xs: seq<T>, p: T -> bool): (r: seq<T>)
    ensures |r| <= |xs|
    ensures forall i :: 0 <= i < |r| ==> r[i] in xs && p(r[i])
    ensures forall i :: 0 <= i < |xs| && p(xs[i]) ==> xs[i] in r
    ensures IsSubsequence(r, xs)
  {
    if xs == [] then []
    else if p(xs[0]) then [xs[0]] + Filter(xs[1..], p)
    else Filter(xs[1..], p)
  }

  /** Every sequence is a subsequence of itself. */
  lemma {:induction false} SubsequenceOfSelf<T>(xs: seq<T>)
    ensures IsSubsequence(xs, xs)
  {
    if xs != [] {
      SubsequenceOfSelf(xs[1..]);
    }
  }

  /** A filter keeps every occurrence of a value its predicate accepts and none of a value it rejects. */
  lemma {:induction false} FilterOccurrences<T>(xs: seq<T>, p: T -> bool)
    ensures forall x :: Occurrences(Filter(xs, p), x) == if p(x) then Occurrences(xs, x) else 0
  {
    if xs != [] {
      FilterOccurrences(xs[1..], p);
      if p(xs[0]) {
        assert ([xs[0]] + Filter(xs[1..], p))[1..] == Filter(xs[1..], p);
      }
    }
  }

  /** Filtering a concatenation filters each part. */
  lemma {:induction false} FilterConcat<T>(a: seq<T>, b: seq<T>, p: T -> bool)
    ensures Filter(a + b, p) == Filter(a, p) + Filter(b, p)
  {
    if a == [] {
      assert a + b == b;
    } else {
      assert (a + b)[1..] == a[1..] + b;
      FilterConcat(a[1..], b, p);
    }
  }

  /** Two predicates that agree on every element of `xs` filter it alike. */
  lemma {:induction false} FilterCongruent<T>(xs: seq<T>, p: T -> bool, q: T -> bool)
    requires forall i :: 0 <= i < |xs| ==> p(xs[i]) == q(xs[i])
    ensures Filter(xs, p) == Filter(xs, q)
  {
    if xs != [] {
      FilterCongruent(xs[1..], p, q);
    }
  }

  /** A filter keeps every element exactly when its predicate holds of every element. */
  lemma {:induction false} FilterLengthIff<T>(xs: seq<T>, p: T -> bool)
    ensures |Filter(xs, p)| == |xs| <==> forall i :: 0 <= i < |xs| ==> p(xs[i])
  {
    if xs != [] {
      FilterLengthIff(xs[1..], p);
      if p(xs[0]) {
        assert (forall i :: 0 <= i < |xs| ==> p(xs[i])) <==> (forall i :: 0 <= i < |xs[1..]| ==> p(xs[1..][i]));
      }
    }
  }

  /** A filter keeps nothing exactly when its predicate holds of no element. */
  lemma FilterEmptyIff<T>(xs: seq<T>, p: T -> bool)
    ensures Filter(xs, p) == [] <==> forall i :: 0 <= i < |xs| ==> !p(xs[i])
  {
  }

  /** A filter whose predicate holds of every element returns its input. */
  lemma {:induction false} FilterKeepsAll<T>(xs: seq<T>, p: T -> bool)
    requires forall i :: 0 <= i < |xs| ==> p(xs[i])
    ensures Filter(xs, p) == xs
  {
    if xs != [] {
      FilterKeepsAll(xs[1..], p);
    }
  }

  /** `xs.filter(y => y !== v)`: every occurrence of `v` dropped. */
  function Without<T(==)>(xs: seq<T>, v: T): (r: seq<T>)
    ensures v !in r
    ensures forall i :: 0 <= i < |xs| && xs[i] != v ==> xs[i] in r
    ensures IsSubsequence(r, xs)
  {
    Filter(xs, y => y != v)
  }

  /** Dropping a value removes every occurrence of it and keeps the count of every other value. */
  lemma WithoutOccurrences<T>(xs: seq<T>, v: T, x: T)
    ensures Occurrences(Without(xs, v), x) == if x == v then 0 else Occurrences(xs, x)
  {
    FilterOccurrences(xs, y => y != v);
  }

  /** Dropping a value that does not occur changes nothing. */
  lemma WithoutAbsent<T>(xs: seq<T>, v: T)
    requires v !in xs
    ensures Without(xs, v) == xs
  {
    FilterKeepsAll(xs, y => y != v);
  }

  /** Appending one value adds exactly one occurrence of it. */
  lemma {:induction false} OccurrencesAppend<T>(xs: seq<T>, v: T, x: T)
    ensures Occurrences(xs + [v], x) == Occurrences(xs, x) + (if x == v then 1 else 0)
  {
    if xs == [] {
      assert [] + [v] == [v];
    } else {
      assert (xs + [v])[1..] == xs[1..] + [v];
      OccurrencesAppend(xs[1..], v, x);
    }
  }

  /** Appending an element that is not there yet keeps a sequence duplicate-free. */
  lemma NoDupAppend<T>(xs: seq<T>, v: T)
    requires NoDup(xs) && v !in xs
    ensures NoDup(xs + [v])
  {
  }

  /** A subsequence of a duplicate-free sequence is duplicate-free. */
  lemma {:induction false} SubsequenceNoDup<T>(r: seq<T>, xs: seq<T>)
    requires IsSubsequence(r, xs) && NoDup(xs)
    ensures NoDup(r)
    decreases |xs|
  {
    if r != [] && xs != [] {
      assert NoDup(xs[1..]) by {
        forall i, j | 0 <= i < j < |xs[1..]| ensures xs[1..][i] != xs[1..][j] {
          assert xs[1..][i] == xs[i + 1] && xs[1..][j] == xs[j + 1];
        }
      }
      if r[0] == xs[0] && IsSubsequence(r[1..], xs[1..]) {
        SubsequenceNoDup(r[1..], xs[1..]);
        SubsequenceElements(r[1..], xs[1..]);
        forall i, j | 0 <= i < j < |r| ensures r[i] != r[j] {
          if i == 0 {
            assert r[j] == r[1..][j - 1];
            var k :| 0 <= k < |xs[1..]| && xs[1..][k] == r[j];
            assert xs[k + 1] == r[j];
          } else {
            assert r[i] == r[1..][i - 1] && r[j] == r[1..][j - 1];
          }
        }
      } else {
        SubsequenceNoDup(r, xs[1..]);
      }
    }
  }

  /** Every element of a subsequence is an element of the sequence. */
  lemma {:induction false} SubsequenceElements<T>(r: seq<T>, xs: seq<T>)
    requires IsSubsequence(r, xs)
    ensures forall i :: 0 <= i < |r| ==> exists k :: 0 <= k < |xs| && xs[k] == r[i]
    decreases |xs|
  {
    if r != [] && xs != [] {
      if r[0] == xs[0] && IsSubsequence(r[1..], xs[1..]) {
        SubsequenceElements(r[1..], xs[1..]);
        forall i | 0 <= i < |r| ensures exists k :: 0 <= k < |xs| && xs[k] == r[i] {
          if i == 0 {
            assert xs[0] == r[0];
          } else {
            assert r[i] == r[1..][i - 1];
            var k :| 0 <= k < |xs[1..]| && xs[1..][k] == r[1..][i - 1];
            assert xs[k + 1] == r[i];
          }
        }
      } else {
        SubsequenceElements(r, xs[1..]);
        forall i | 0 <= i < |r| ensures exists k :: 0 <= k < |xs| && xs[k] == r[i] {
          var k :| 0 <= k < |xs[1..]| && xs[1..][k] == r[i];
          assert xs[k + 1] == r[i];
        }
      }
    }
  }

  /** The index `xs.findIndex(p)` would return, as an option. */
  function FirstIndex<T>(xs: seq<T>, p: T -> bool): (r: Option<nat>)
    ensures r.Some? ==> r.value < |xs| && p(xs[r.value])
    ensures r.Some? ==> forall j :: 0 <= j < r.value ==> !p(xs[j])
    ensures r.None? <==> forall j :: 0 <= j < |xs| ==> !p(xs[j])
  {
    if xs == [] then None
    else if p(xs[0]) then Some(0)
    else match FirstIndex(xs[1..], p)
      case None => None
      case Some(k) => Some(k + 1)
  }

  /** `xs.find(p)`: the first element for which `p` holds, if any. */
  function Find<T(==)>(xs: seq<T>, p: T -> bool): (r: Option<T>)
    ensures r.Some? ==> r.value in xs && p(r.value)
    ensures r.Some? ==> exists i :: 0 <= i < |xs| && xs[i] == r.value && forall j :: 0 <= j < i ==> !p(xs[j])
    ensures r.None? <==> forall i :: 0 <= i < |xs| ==> !p(xs[i])
  {
    match FirstIndex(xs, p)
    case None => None
    case Some(i) => Some(xs[i])
  }

  /** `xs.map(x => p(x) ? f(x) : x)`: rewrite the elements that match, keep the rest. */
  function MapWhere<T>(xs: seq<T>, p: T -> bool, f: T -> T): (r: seq<T>)
    ensures |r| == |xs|
  {
    seq(|xs|, i requires 0 <= i < |xs| => if p(xs[i]) then f(xs[i]) else xs[i])
  }

  /** A rewrite that matches nothing is the identity. */
  lemma MapWhereNoMatch<T>(xs: seq<T>, p: T -> bool, f: T -> T)
    requires forall i :: 0 <= i < |xs| ==> !p(xs[i])
    ensures MapWhere(xs, p, f) == xs
  {
  }
}
