/** Sequence helpers shared by the components: `Array.prototype.filter` over a
    sequence, and the interleaving relation that says a sequence is split into
    two order-preserving parts. */
module Lists {

  /** `s.filter(p)`: the elements of `s` that satisfy `p`, in their order. */
  function Filter<T(!new)>(s: seq<T>, p: T -> bool): (r: seq<T>)
    ensures |r| <= |s|
    ensures forall x :: x in r <==> x in s && p(x)
    ensures forall i :: 0 <= i < |r| ==> p(r[i])
  {
    if s == [] then []
    else if p(s[0]) then [s[0]] + Filter(s[1..], p)
    else Filter(s[1..], p)
  }

  /** `s` is obtained by merging `a` and `b` without reordering either. */
  ghost predicate Interleaves<T(!new)>(s: seq<T>, a: seq<T>, b: seq<T>)
    decreases |s|
  {
    if s == [] then a == [] && b == []
    else
      || (a != [] && a[0] == s[0] && Interleaves(s[1..], a[1..], b))
      || (b != [] && b[0] == s[0] && Interleaves(s[1..], a, b[1..]))
  }

  /** An interleaving accounts for every element exactly once. */
  lemma {:induction false} InterleavesCounts<T(!new)>(s: seq<T>, a: seq<T>, b: seq<T>)
    requires Interleaves(s, a, b)
    ensures |a| + |b| == |s|
    ensures multiset(a) + multiset(b) == multiset(s)
    decreases |s|
  {
    if s != [] {
      if a != [] && a[0] == s[0] && Interleaves(s[1..], a[1..], b) {
        InterleavesCounts(s[1..], a[1..], b);
        assert a == [a[0]] + a[1..];
        assert s == [s[0]] + s[1..];
      } else {
        InterleavesCounts(s[1..], a, b[1..]);
        assert b == [b[0]] + b[1..];
        assert s == [s[0]] + s[1..];
      }
    }
  }

  /** Filtering by a predicate and by its negation splits `s` in two,
      each part in its original relative order. */
  lemma {:induction false} FilterInterleaves<T(!new)>(s: seq<T>, p: T -> bool, q: T -> bool)
    requires forall x :: q(x) == !p(x)
    ensures Interleaves(s, Filter(s, p), Filter(s, q))
  {
    if s != [] {
      FilterInterleaves(s[1..], p, q);
    }
  }

  /** Filtering distributes over concatenation: relative order is kept. */
  lemma {:induction false} FilterConcat<T(!new)>(a: seq<T>, b: seq<T>, p: T -> bool)
    ensures Filter(a + b, p) == Filter(a, p) + Filter(b, p)
  {
    if a == [] {
      assert a + b == b;
    } else {
      assert (a + b)[1..] == a[1..] + b;
      FilterConcat(a[1..], b, p);
    }
  }

  /** Every element of `s` satisfies `p`. */
  ghost predicate AllAt<T>(s: seq<T>, p: T -> bool)
  {
    forall i :: 0 <= i < |s| ==> p(s[i])
  }

  /** When every element satisfies `p`, the filter returns `s` itself. */
  lemma {:induction false} FilterAllKept<T(!new)>(s: seq<T>, p: T -> bool)
    requires AllAt(s, p)
    ensures Filter(s, p) == s
  {
    if s != [] {
      var t := s[1..];
      assert AllAt(t, p) by {
        assert forall i :: 0 <= i < |t| ==> t[i] == s[i + 1];
      }
      FilterAllKept(t, p);
      assert Filter(s, p) == [s[0]] + Filter(t, p);
      assert s == [s[0]] + t;
    }
  }

  /** When some element fails `p`, the filter drops something. */
  lemma {:induction false} FilterSomeDropped<T(!new)>(s: seq<T>, p: T -> bool, j: nat)
    requires j < |s| && !p(s[j])
    ensures |Filter(s, p)| < |s|
  {
    var t := s[1..];
    if p(s[0]) {
      assert j > 0 && t[j - 1] == s[j];
      FilterSomeDropped(t, p, j - 1);
      assert Filter(s, p) == [s[0]] + Filter(t, p);
    } else {
      assert Filter(s, p) == Filter(t, p);
    }
  }

  /** Nothing is dropped exactly when every element satisfies `p`, and then
      the filter returns `s` itself. */
  lemma FilterKeepsAll<T(!new)>(s: seq<T>, p: T -> bool)
    ensures |Filter(s, p)| == |s| <==> forall i :: 0 <= i < |s| ==> p(s[i])
    ensures (forall i :: 0 <= i < |s| ==> p(s[i])) ==> Filter(s, p) == s
  {
    if AllAt(s, p) {
      FilterAllKept(s, p);
    } else {
      var j :| 0 <= j < |s| && !p(s[j]);
      FilterSomeDropped(s, p, j);
    }
  }

  /** Two sequences that agree on which positions are kept, and on the kept
      elements themselves, filter to the same result. */
  lemma {:induction false} FilterCongruent<T(!new)>(a: seq<T>, b: seq<T>, p: T -> bool)
    requires |a| == |b|
    requires forall i :: 0 <= i < |a| ==> p(a[i]) == p(b[i])
    requires forall i :: 0 <= i < |a| && p(a[i]) ==> a[i] == b[i]
    ensures Filter(a, p) == Filter(b, p)
  {
    if a != [] {
      assert forall i :: 0 <= i < |a| - 1 ==> a[1..][i] == a[i + 1] && b[1..][i] == b[i + 1];
      FilterCongruent(a[1..], b[1..], p);
    }
  }
}
