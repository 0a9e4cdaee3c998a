/**
 Map and Filter over sequences, the two steps a render takes over a list of
 registered views: apply each view to the store, then keep the results that
 pass a test, in order.
 */
module Seqs {

  function Map<A, B>(f: A -> B, s: seq<A>): (r: seq<B>)
    ensures |r| == |s|
  {
    if s == [] then [] else [f(s[0])] + Map(f, s[1..])
  }

  function Filter<T>(p: T -> bool, s: seq<T>): (r: seq<T>)
    ensures |r| <= |s|
  {
    if s == [] then []
    else if p(s[0]) then [s[0]] + Filter(p, s[1..])
    else Filter(p, s[1..])
  }

  /** Each position of the mapped sequence holds the image of the element there. */
  lemma {:induction false} MapAt<A, B>(f: A -> B, s: seq<A>, i: nat)
    requires i < |s|
    ensures Map(f, s)[i] == f(s[i])
  {
    if i > 0 {
      MapAt(f, s[1..], i - 1);
    }
  }

  lemma {:induction false} MapAppend<A, B>(f: A -> B, a: seq<A>, b: seq<A>)
    ensures Map(f, a + b) == Map(f, a) + Map(f, b)
  {
    if a == [] {
      assert a + b == b;
    } else {
      assert (a + b)[1..] == a[1..] + b;
      MapAppend(f, a[1..], b);
    }
  }

  /** Filtering a concatenation filters each part and keeps their order. */
  lemma {:induction false} FilterAppend<T>(p: T -> bool, a: seq<T>, b: seq<T>)
    ensures Filter(p, a + b) == Filter(p, a) + Filter(p, b)
  {
    if a == [] {
      assert a + b == b;
    } else {
      assert (a + b)[1..] == a[1..] + b;
      FilterAppend(p, a[1..], b);
    }
  }

  /** Everything Filter keeps passes the test and was in the input. */
  lemma {:induction false} FilterSound<T>(p: T -> bool, s: seq<T>)
    ensures forall x :: x in Filter(p, s) ==> p(x) && x in s
  {
    if s != [] {
      FilterSound(p, s[1..]);
    }
  }

  /** Nothing that passes the test is lost. */
  lemma {:induction false} FilterComplete<T>(p: T -> bool, s: seq<T>, i: nat)
    requires i < |s| && p(s[i])
    ensures s[i] in Filter(p, s)
  {
    if i > 0 {
      FilterComplete(p, s[1..], i - 1);
    }
  }

  /** Filter drops exactly the elements that fail the test: when none fails,
      the input comes back whole; when all fail, nothing comes back. */
  lemma {:induction false} FilterAllOrNone<T>(p: T -> bool, s: seq<T>)
    ensures (forall i :: 0 <= i < |s| ==> p(s[i])) ==> Filter(p, s) == s
    ensures (forall i :: 0 <= i < |s| ==> !p(s[i])) ==> Filter(p, s) == []
  {
    if s != [] {
      FilterAllOrNone(p, s[1..]);
      assert forall i :: 1 <= i < |s| ==> s[1..][i - 1] == s[i];
    }
  }
}
