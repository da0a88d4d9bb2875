/** Sequence helpers standing for the iterator and query idioms the modelled code uses. */
module Sequences {
  import opened Wrappers

  /** The elements of `s` that satisfy `p`, in order: a query's rows in the order it loads them. */
  function Filter<T>(s: seq<T>, p: T -> bool): (r: seq<T>)
    ensures |r| <= |s|
    ensures forall i :: 0 <= i < |r| ==> r[i] in s && p(r[i])
    ensures forall i :: 0 <= i < |s| && p(s[i]) ==> s[i] in r
    decreases |s|
  {
    if s == [] then []
    else if p(s[|s| - 1]) then Filter(s[..|s| - 1], p) + [s[|s| - 1]]
    else Filter(s[..|s| - 1], p)
  }

  /** Filtering a sequence with one more element at the end. */
  lemma FilterSnoc<T>(s: seq<T>, x: T, p: T -> bool)
    ensures Filter(s + [x], p) == if p(x) then Filter(s, p) + [x] else Filter(s, p)
  {
    assert (s + [x])[..|s|] == s;
  }

  lemma {:induction false} FilterAppend<T>(a: seq<T>, b: seq<T>, p: T -> bool)
    ensures Filter(a + b, p) == Filter(a, p) + Filter(b, p)
    decreases |b|
  {
    if b == [] {
      assert a + b == a;
    } else {
      var b' := b[..|b| - 1];
      assert (a + b)[..|a + b| - 1] == a + b';
      FilterAppend(a, b', p);
    }
  }

  /** `Vec::pop`: the last element, or None for an empty vector. */
  function Pop<T>(s: seq<T>): Option<T>
  {
    if s == [] then None else Some(s[|s| - 1])
  }

  /** Index `i` holds the last element of `s` that satisfies `p`. */
  ghost predicate LastMatchAt<T>(s: seq<T>, p: T -> bool, i: int)
  {
    0 <= i < |s| && p(s[i]) && forall j :: i < j < |s| ==> !p(s[j])
  }

  /**
   * Popping a filtered query yields None exactly when no row matches, and otherwise the LAST
   * matching row in query order.
   */
  lemma {:induction false} PopOfFilterIsLastMatch<T>(s: seq<T>, p: T -> bool)
    ensures Pop(Filter(s, p)).None? <==> forall i :: 0 <= i < |s| ==> !p(s[i])
    ensures Pop(Filter(s, p)).Some? ==>
      exists i :: LastMatchAt(s, p, i) && s[i] == Pop(Filter(s, p)).value
    decreases |s|
  {
    if s != [] {
      var n := |s| - 1;
      var init := s[..n];
      assert Filter(s, p) == if p(s[n]) then Filter(init, p) + [s[n]] else Filter(init, p);
      PopOfFilterIsLastMatch(init, p);
      if p(s[n]) {
        assert LastMatchAt(s, p, n);
      } else if Pop(Filter(init, p)).Some? {
        var i :| LastMatchAt(init, p, i) && init[i] == Pop(Filter(init, p)).value;
        assert init[i] == s[i];
        assert LastMatchAt(s, p, i);
      } else {
        assert forall i :: 0 <= i < n ==> init[i] == s[i];
      }
    }
  }
}
