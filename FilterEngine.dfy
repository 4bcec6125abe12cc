/**
 * The list filter shared by the flagged-transaction and user-management pages:
 * `Array.filter` with a predicate built from a case-insensitive free-text search
 * over a fixed set of fields and "all"-or-equal facets.
 */
module FilterEngine {
  import opened TextUtil

  /** `xs.filter(p)`: the elements satisfying `p`, in their original order. */
  function Keep<T>(xs: seq<T>, p: T -> bool): (r: seq<T>)
    ensures |r| <= |xs|
  {
    if xs == [] then []
    else (if p(xs[0]) then [xs[0]] else []) + Keep(xs[1..], p)
  }

  /** Filtering a concatenation filters each part; so kept elements keep their relative order. */
  lemma {:induction false} KeepAppend<T>(a: seq<T>, b: seq<T>, p: T -> bool)
    ensures Keep(a + b, p) == Keep(a, p) + Keep(b, p)
  {
    if a != [] {
      assert (a + b)[1..] == a[1..] + b;
      KeepAppend(a[1..], b, p);
    } else {
      assert a + b == b;
    }
  }

  /** A predicate and its negation split the input: every element is kept by exactly one. */
  lemma {:induction false} KeepComplement<T>(xs: seq<T>, p: T -> bool, q: T -> bool)
    requires forall x :: q(x) == !p(x)
    ensures |Keep(xs, p)| + |Keep(xs, q)| == |xs|
  {
    if xs != [] {
      KeepComplement(xs[1..], p, q);
    }
  }

  /** Each passing element is kept as often as it occurs; a failing one is never kept. */
  lemma {:induction false} KeepMultiplicity<T>(xs: seq<T>, p: T -> bool)
    ensures forall x :: multiset(Keep(xs, p))[x] == if p(x) then multiset(xs)[x] else 0
  {
    if xs != [] {
      KeepMultiplicity(xs[1..], p);
      assert xs == [xs[0]] + xs[1..];
    }
  }

  /** Reordering the input does not change how many elements are kept. */
  lemma {:induction false} KeepPermuted<T>(a: seq<T>, b: seq<T>, p: T -> bool)
    requires multiset(a) == multiset(b)
    ensures |Keep(a, p)| == |Keep(b, p)|
    decreases |a|
  {
    if a == [] {
      assert |multiset(b)| == 0;
    } else {
      var x := a[0];
      assert x in multiset(b);
      var k :| 0 <= k < |b| && b[k] == x;
      var rest := b[..k] + b[k + 1..];
      assert b == b[..k] + ([x] + b[k + 1..]);
      assert a == [x] + a[1..];
      assert multiset(a) == multiset{x} + multiset(a[1..]);
      assert multiset(b) == multiset(b[..k]) + multiset{x} + multiset(b[k + 1..]);
      assert multiset(rest) == multiset(b[..k]) + multiset(b[k + 1..]);
      assert multiset(a[1..]) == multiset(a) - multiset{x};
      assert multiset(rest) == multiset(b) - multiset{x};
      KeepPermuted(a[1..], rest, p);
      KeepAppend(b[..k], [x] + b[k + 1..], p);
      KeepAppend([x], b[k + 1..], p);
      KeepAppend(b[..k], b[k + 1..], p);
      KeepAppend([x], a[1..], p);
    }
  }

  /** An element is kept exactly when it is in the input and satisfies the predicate. */
  lemma {:induction false} KeepMembership<T>(xs: seq<T>, p: T -> bool, x: T)
    ensures x in Keep(xs, p) <==> x in xs && p(x)
  {
    if xs != [] {
      KeepMembership(xs[1..], p, x);
      assert xs == [xs[0]] + xs[1..];
    }
  }

  /** Every element is kept (in order) and nothing else is: the output is an order-preserving sub-sequence. */
  lemma {:induction false} KeepIsSubsequence<T>(xs: seq<T>, p: T -> bool)
    ensures IsSubsequence(Keep(xs, p), xs)
    ensures forall i :: 0 <= i < |Keep(xs, p)| ==> p(Keep(xs, p)[i])
  {
    if xs != [] {
      KeepIsSubsequence(xs[1..], p);
      var rest := Keep(xs[1..], p);
      if p(xs[0]) {
        assert Keep(xs, p) == [xs[0]] + rest;
        assert ([xs[0]] + rest)[1..] == rest;
      } else {
        assert Keep(xs, p) == rest;
      }
    }
  }

  /** `a` is `b` with some elements removed and the rest in the same order. */
  ghost predicate IsSubsequence<T>(a: seq<T>, b: seq<T>)
    decreases |b|
  {
    if a == [] then true
    else if b == [] then false
    else (a[0] == b[0] && IsSubsequence(a[1..], b[1..])) || IsSubsequence(a, b[1..])
  }

  /** When every element passes, the output is the input. */
  lemma {:induction false} KeepAll<T>(xs: seq<T>, p: T -> bool)
    requires forall i :: 0 <= i < |xs| ==> p(xs[i])
    ensures Keep(xs, p) == xs
  {
    if xs != [] {
      KeepAll(xs[1..], p);
    }
  }

  /** When no element passes, the output is empty. */
  lemma {:induction false} KeepNone<T>(xs: seq<T>, p: T -> bool)
    requires forall i :: 0 <= i < |xs| ==> !p(xs[i])
    ensures Keep(xs, p) == []
  {
    if xs != [] {
      KeepNone(xs[1..], p);
    }
  }

  /** Nothing is kept exactly when no element passes. */
  lemma {:induction false} KeepEmptyIff<T>(xs: seq<T>, p: T -> bool)
    ensures Keep(xs, p) == [] <==> forall i :: 0 <= i < |xs| ==> !p(xs[i])
  {
    if xs != [] {
      KeepEmptyIff(xs[1..], p);
      assert forall i :: 1 <= i < |xs| ==> xs[i] == xs[1..][i - 1];
    }
  }

  /** Filtering twice with the same predicate is filtering once. */
  lemma {:induction false} KeepIdempotent<T>(xs: seq<T>, p: T -> bool)
    ensures Keep(Keep(xs, p), p) == Keep(xs, p)
  {
    KeepIsSubsequence(xs, p);
    KeepAll(Keep(xs, p), p);
  }

  /** The output is never longer than the input; it is shorter exactly when some element fails. */
  lemma {:induction false} KeepShrinks<T>(xs: seq<T>, p: T -> bool)
    ensures |Keep(xs, p)| <= |xs|
    ensures |Keep(xs, p)| == |xs| <==> forall i :: 0 <= i < |xs| ==> p(xs[i])
  {
    if xs != [] {
      KeepShrinks(xs[1..], p);
      assert forall i :: 1 <= i < |xs| ==> xs[i] == xs[1..][i - 1];
    }
  }

  /** The free-text clause: some searched field, lower-cased, includes the lower-cased term. */
  predicate SearchHit(term: string, fields: seq<string>)
  {
    exists i :: 0 <= i < |fields| && Contains(Lower(fields[i]), Lower(term))
  }

  /** A facet passes when its selection is the sentinel "all" or equals the row's value exactly. */
  predicate FacetPasses(selected: string, value: string)
  {
    selected == "all" || selected == value
  }

  /** An empty search term matches every row that has at least one searched field. */
  lemma EmptySearchHits(fields: seq<string>)
    requires fields != []
    ensures SearchHit("", fields)
  {
    ContainsEmpty(Lower(fields[0]));
  }

  /** A search term that no searched field includes matches nothing, whatever the other fields hold. */
  lemma SearchMiss(term: string, fields: seq<string>)
    requires forall i :: 0 <= i < |fields| ==> !Contains(Lower(fields[i]), Lower(term))
    ensures !SearchHit(term, fields)
  {
  }
}
