/** Order-preserving selection from a sequence, the meaning given here to a
    store query `filter_by(column=value).all()` and to a loop that keeps the
    elements passing a test. */
module Seqs {

  /** The elements of `s` that satisfy `p`, in their order in `s`. */
  function Filter<T(!new)>(s: seq<T>, p: T -> bool): (r: seq<T>)
    ensures |r| <= |s|
    ensures forall i :: 0 <= i < |r| ==> p(r[i])
    decreases |s|
  {
    if s == [] then []
    else
      var init, last := s[..|s| - 1], s[|s| - 1];
      Filter(init, p) + (if p(last) then [last] else [])
  }

  /** Exactly the elements of `s` that pass are kept. */
  lemma {:induction false} FilterMembers<T(!new)>(s: seq<T>, p: T -> bool, x: T)
    ensures x in Filter(s, p) <==> x in s && p(x)
    decreases |s|
  {
    if s != [] {
      var init, last := s[..|s| - 1], s[|s| - 1];
      FilterMembers(init, p, x);
      assert s == init + [last];
    }
  }

  /** Selection distributes over concatenation: what is kept from `a` comes
      before what is kept from `b`, so relative order is preserved. */
  lemma {:induction false} FilterConcat<T(!new)>(a: seq<T>, b: seq<T>, p: T -> bool)
    ensures Filter(a + b, p) == Filter(a, p) + Filter(b, p)
    decreases |b|
  {
    if b == [] {
      assert a + b == a;
    } else {
      var b' := b[..|b| - 1];
      assert (a + b)[..|a + b| - 1] == a + b';
      assert (a + b)[|a + b| - 1] == b[|b| - 1];
      FilterConcat(a, b', p);
    }
  }

  /** Appending one element to the input appends it to the output iff it passes. */
  lemma FilterSnoc<T(!new)>(s: seq<T>, x: T, p: T -> bool)
    ensures Filter(s + [x], p) == Filter(s, p) + (if p(x) then [x] else [])
  {
    assert (s + [x])[..|s + [x]| - 1] == s;
  }

  /** When every element passes, nothing is dropped. */
  lemma {:induction false} FilterKeepsAll<T(!new)>(s: seq<T>, p: T -> bool)
    requires forall i :: 0 <= i < |s| ==> p(s[i])
    ensures Filter(s, p) == s
    decreases |s|
  {
    if s != [] {
      var init, last := s[..|s| - 1], s[|s| - 1];
      assert forall i :: 0 <= i < |init| ==> init[i] == s[i];
      FilterKeepsAll(init, p);
      assert p(last);
      assert Filter(s, p) == init + [last];
      assert s == init + [last];
    }
  }

  /** When no element passes, nothing is kept. */
  lemma {:induction false} FilterKeepsNone<T(!new)>(s: seq<T>, p: T -> bool)
    requires forall i :: 0 <= i < |s| ==> !p(s[i])
    ensures Filter(s, p) == []
    decreases |s|
  {
    if s != [] {
      FilterKeepsNone(s[..|s| - 1], p);
    }
  }

  /** Selecting with `p` and then with `q` is selecting with their conjunction `pq`. */
  lemma {:induction false} FilterTwice<T(!new)>(s: seq<T>, p: T -> bool, q: T -> bool, pq: T -> bool)
    requires forall x :: pq(x) == (p(x) && q(x))
    ensures Filter(Filter(s, p), q) == Filter(s, pq)
    decreases |s|
  {
    if s != [] {
      var init, last := s[..|s| - 1], s[|s| - 1];
      FilterTwice(init, p, q, pq);
      FilterConcat(Filter(init, p), if p(last) then [last] else [], q);
      if p(last) {
        FilterSnoc([], last, q);
      }
    }
  }
}
