/** Mapping every element of a sequence to a sequence and concatenating
    the results, the shape of every filter and `filter_map` in the model. */
module Seqs {

  function FlatMap<A, B>(f: A -> seq<B>, s: seq<A>): seq<B>
  {
    if s == [] then [] else f(s[0]) + FlatMap(f, s[1..])
  }

  lemma {:induction false} FlatMapAppend<A, B>(f: A -> seq<B>, a: seq<A>, b: seq<A>)
    ensures FlatMap(f, a + b) == FlatMap(f, a) + FlatMap(f, b)
  {
    if a == [] {
      assert a + b == b;
    } else {
      assert (a + b)[0] == a[0];
      assert (a + b)[1..] == a[1..] + b;
      FlatMapAppend(f, a[1..], b);
    }
  }

  lemma FlatMapOne<A, B>(f: A -> seq<B>, x: A)
    ensures FlatMap(f, [x]) == f(x)
  {
    assert [x][1..] == [];
  }

  /** Extending a prefix by one element: the form a loop invariant needs. */
  lemma FlatMapStep<A, B>(f: A -> seq<B>, s: seq<A>, i: nat)
    requires i < |s|
    ensures FlatMap(f, s[..i + 1]) == FlatMap(f, s[..i]) + f(s[i])
  {
    assert s[..i + 1] == s[..i] + [s[i]];
    FlatMapAppend(f, s[..i], [s[i]]);
    FlatMapOne(f, s[i]);
  }

  /** An element of the result comes from some element of the input. */
  lemma {:induction false} FlatMapMember<A, B>(f: A -> seq<B>, s: seq<A>, y: B)
    ensures y in FlatMap(f, s) <==> exists x :: x in s && y in f(x)
  {
    if s != [] {
      FlatMapMember(f, s[1..], y);
      assert FlatMap(f, s) == f(s[0]) + FlatMap(f, s[1..]);
      if y in FlatMap(f, s) {
        if y in f(s[0]) {
          assert s[0] in s;
        } else {
          var x :| x in s[1..] && y in f(x);
          assert x in s;
        }
      }
      if exists x :: x in s && y in f(x) {
        var x :| x in s && y in f(x);
        if x != s[0] {
          assert x in s[1..];
        }
      }
    }
  }

  lemma InPrefixStep<T>(s: seq<T>, j: nat, x: T)
    requires j < |s|
    ensures x in s[..j + 1] <==> x in s[..j] || x == s[j]
  {
    assert s[..j + 1] == s[..j] + [s[j]];
  }
}
