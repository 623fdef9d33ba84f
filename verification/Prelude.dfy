/**
 The two shapes the modules share for "maybe a value" and "a value or an exception", the ends of a sequence,
 and facts about finite sets.
 */
module Prelude {

  datatype Option<+T> = None | Some(value: T)

  datatype Result<+T, +E> = Ok(value: T) | Err(error: E)

  function Last<T>(s: seq<T>): T
    requires s != []
  {
    s[|s| - 1]
  }

  function Front<T>(s: seq<T>): seq<T>
    requires s != []
  {
    s[..|s| - 1]
  }

  lemma SubsetIsSmaller<T>(a: set<T>, b: set<T>)
    requires a <= b
    ensures |a| <= |b|
  {
    assert |b| == |a| + |b - a| by {
      assert a + (b - a) == b;
    }
  }

  lemma AtMostOne<T>(a: set<T>)
    requires forall x, y :: x in a && y in a ==> x == y
    ensures |a| <= 1
  {
    if a != {} {
      var x :| x in a;
      assert a == {x};
    }
  }

  /** An injection needs room. */
  lemma {:induction false} InjectionFits<A, B>(m: map<A, B>, into: set<B>)
    requires forall x :: x in m ==> m[x] in into
    requires forall x, y :: x in m && y in m && m[x] == m[y] ==> x == y
    ensures |m| <= |into|
    decreases |m|
  {
    if m != map[] {
      var x :| x in m;
      InjectionFits(m - {x}, into - {m[x]});
    }
  }
}
