/** Keeping the present results of a per-element function, in order: the shape
    of a loop that appends at most one item per element it visits. */
module Sequences {
  import opened Wrappers

  function KeepSome<A, B>(f: A -> Option<B>, s: seq<A>): seq<B> {
    if s == [] then []
    else
      KeepSome(f, s[..|s| - 1]) +
      match f(s[|s| - 1])
      case None => []
      case Some(y) => [y]
  }

  /** Appending one element appends its result, if any. */
  lemma KeepSomeSnoc<A, B>(f: A -> Option<B>, s: seq<A>, x: A)
    ensures KeepSome(f, s + [x]) == KeepSome(f, s) + (if f(x).Some? then [f(x).value] else [])
  {
    assert (s + [x])[..|s|] == s;
  }

  /** At most one item per element. */
  lemma {:induction false} KeepSomeLength<A, B>(f: A -> Option<B>, s: seq<A>)
    ensures |KeepSome(f, s)| <= |s|
  {
    if s != [] {
      KeepSomeLength(f, s[..|s| - 1]);
    }
  }

  /** Order is kept across a concatenation. */
  lemma {:induction false} KeepSomeAppend<A, B>(f: A -> Option<B>, a: seq<A>, b: seq<A>)
    ensures KeepSome(f, a + b) == KeepSome(f, a) + KeepSome(f, b)
  {
    if b == [] {
      assert a + b == a;
    } else {
      assert (a + b)[..|a + b| - 1] == a + b[..|b| - 1];
      KeepSomeAppend(f, a, b[..|b| - 1]);
    }
  }

  /** An element contributes exactly its own result, between the results of
      the elements before it and those of the elements after it. */
  lemma KeepSomeAt<A, B>(f: A -> Option<B>, before: seq<A>, x: A, after: seq<A>)
    ensures KeepSome(f, before + [x] + after) ==
            KeepSome(f, before) + (if f(x).Some? then [f(x).value] else []) + KeepSome(f, after)
  {
    KeepSomeAppend(f, before + [x], after);
    KeepSomeSnoc(f, before, x);
  }

  /** Every item kept is the result of some element. */
  lemma {:induction false} KeepSomeSound<A, B>(f: A -> Option<B>, s: seq<A>, y: B)
    requires y in KeepSome(f, s)
    ensures exists i :: 0 <= i < |s| && f(s[i]) == Some(y)
  {
    var init := s[..|s| - 1];
    if y in KeepSome(f, init) {
      KeepSomeSound(f, init, y);
      var i :| 0 <= i < |init| && f(init[i]) == Some(y);
      assert s[i] == init[i];
    } else {
      assert f(s[|s| - 1]) == Some(y);
    }
  }

}
