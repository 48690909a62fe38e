/** Small datatypes and sequence facts shared by every module. */
module Prelude {

  datatype Option<+T> = None | Some(value: T)

  datatype Result<+T, +E> = Ok(value: T) | Err(error: E)

  /** A sequence without the element at index `i`. */
  function Without<T>(s: seq<T>, i: nat): seq<T>
    requires i < |s|
  {
    s[..i] + s[i + 1..]
  }

  lemma WithoutFront<T>(s: seq<T>, i: nat)
    requires i < |s| - 1
    ensures Without(s, i) == Without(s[..|s| - 1], i) + [s[|s| - 1]]
  {
  }

  lemma WithoutEnd<T>(s: seq<T>)
    requires s != []
    ensures Without(s, |s| - 1) == s[..|s| - 1]
  {
  }

  lemma PrefixOfPrefix<T>(s: seq<T>, n: nat, k: nat)
    requires k <= n <= |s|
    ensures s[..n][..k] == s[..k]
  {
  }

  lemma NextPrefix<T>(s: seq<T>, i: nat)
    requires i < |s|
    ensures s[..i + 1] == s[..i] + [s[i]]
  {
  }

  lemma AppendFront<T>(s: seq<T>, x: T)
    ensures (s + [x])[..|s|] == s && (s + [x])[|s|] == x
  {
  }

  lemma ConcatFront<T>(a: seq<T>, b: seq<T>)
    requires b != []
    ensures a + b != [] && (a + b)[|a + b| - 1] == b[|b| - 1]
    ensures (a + b)[..|a + b| - 1] == a + b[..|b| - 1]
  {
  }

  lemma WholePrefix<T>(s: seq<T>)
    ensures s[..|s|] == s
  {
  }

  lemma ConcatAssociates<T>(x: seq<T>, y: seq<T>, z: seq<T>)
    ensures x + y + z == x + (y + z)
  {
  }

  lemma WithoutHead<T>(s: seq<T>)
    requires s != []
    ensures Without(s, 0) == s[1..]
  {
  }

  lemma WithoutTail<T>(s: seq<T>, i: nat)
    requires 0 < i < |s|
    ensures Without(s, i) != [] && Without(s, i)[0] == s[0] && Without(s, i)[1..] == Without(s[1..], i - 1)
  {
  }

  lemma WithoutMultiset<T>(s: seq<T>, i: nat)
    requires i < |s|
    ensures multiset(s) == multiset(Without(s, i)) + multiset{s[i]}
  {
    assert s == s[..i] + [s[i]] + s[i + 1..];
  }

  lemma LastMultiset<T>(s: seq<T>)
    requires s != []
    ensures multiset(s) == multiset(s[..|s| - 1]) + multiset{s[|s| - 1]}
  {
    assert s == s[..|s| - 1] + [s[|s| - 1]];
  }

  lemma AppendMultiset<T>(s: seq<T>, x: T)
    ensures multiset(s + [x]) == multiset(s) + multiset{x}
  {
  }

  lemma MultisetSizes<T>(a: multiset<T>, b: multiset<T>)
    ensures |a + b| == |a| + |b|
  {
  }

  lemma MultisetSwap<T>(x: multiset<T>, y: multiset<T>, z: multiset<T>)
    ensures x + (y + z) == y + (x + z)
  {
  }

  lemma MultisetSwapLast<T>(x: multiset<T>, y: multiset<T>, z: multiset<T>)
    ensures (x + y) + z == (x + z) + y
  {
  }

  /** Two sequences with the same contents: `b` holds `a[0]` somewhere, and without it matches `a[1..]`. */
  lemma PermutationHead<T>(a: seq<T>, b: seq<T>) returns (j: nat)
    requires a != [] && multiset(a) == multiset(b)
    ensures j < |b| && b[j] == a[0]
    ensures multiset(a[1..]) == multiset(Without(b, j))
  {
    assert a[0] in multiset(b);
    j :| 0 <= j < |b| && b[j] == a[0];
    WithoutMultiset(a, 0);
    WithoutMultiset(b, j);
    assert Without(a, 0) == a[1..];
    MultisetCancel(multiset(a[1..]), multiset(Without(b, j)), a[0]);
  }

  lemma MultisetCancel<T>(x: multiset<T>, y: multiset<T>, z: T)
    requires x + multiset{z} == y + multiset{z}
    ensures x == y
  {
    assert x == (x + multiset{z}) - multiset{z} && y == (y + multiset{z}) - multiset{z};
  }

  // ---------------------------------------------------------------------
  // Loops that keep some elements and turn each into something else
  // ---------------------------------------------------------------------

  function Maybe<T>(x: Option<T>): seq<T> {
    match x case None => [] case Some(v) => [v]
  }

  /** What `f` makes of the elements it keeps, in order. */
  function Gather<A, B>(f: A -> Option<B>, s: seq<A>): seq<B> {
    if s == [] then [] else Gather(f, s[..|s| - 1]) + Maybe(f(s[|s| - 1]))
  }

  /** The same without the order. */
  ghost function GatherBag<A, B>(f: A -> Option<B>, s: seq<A>): multiset<B> {
    if s == [] then multiset{} else GatherBag(f, s[..|s| - 1]) + multiset(Maybe(f(s[|s| - 1])))
  }

  lemma {:induction false} BagOfGathered<A, B>(f: A -> Option<B>, s: seq<A>)
    ensures multiset(Gather(f, s)) == GatherBag(f, s)
  {
    if s != [] {
      BagOfGathered(f, s[..|s| - 1]);
    }
  }

  lemma BagLast<A, B>(f: A -> Option<B>, s: seq<A>, x: A)
    ensures GatherBag(f, s + [x]) == GatherBag(f, s) + multiset(Maybe(f(x)))
  {
    AppendFront(s, x);
  }

  lemma {:induction false} BagWithout<A, B>(f: A -> Option<B>, s: seq<A>, j: nat)
    requires j < |s|
    ensures GatherBag(f, s) == GatherBag(f, Without(s, j)) + multiset(Maybe(f(s[j])))
  {
    var n := |s| - 1;
    if j == n {
      WithoutEnd(s);
    } else {
      BagWithout(f, s[..n], j);
      BagLast(f, Without(s[..n], j), s[n]);
      WithoutFront(s, j);
      MultisetSwapLast(GatherBag(f, Without(s[..n], j)), multiset(Maybe(f(s[j]))), multiset(Maybe(f(s[n]))));
    }
  }

  /** What is gathered does not depend on the order, up to order. */
  lemma {:induction false} GatherPermutes<A, B>(f: A -> Option<B>, a: seq<A>, b: seq<A>)
    requires multiset(a) == multiset(b)
    ensures multiset(Gather(f, a)) == multiset(Gather(f, b))
  {
    BagOfGathered(f, a);
    BagOfGathered(f, b);
    if a == [] {
      assert |multiset(a)| == |a| && |multiset(b)| == |b|;
    } else {
      var j := PermutationHead(a, b);
      GatherPermutes(f, a[1..], Without(b, j));
      BagOfGathered(f, a[1..]);
      BagOfGathered(f, Without(b, j));
      BagWithout(f, b, j);
      BagWithout(f, a, 0);
      assert Without(a, 0) == a[1..];
    }
  }

  lemma SameMembers<T>(a: seq<T>, b: seq<T>)
    requires multiset(a) == multiset(b)
    ensures forall x :: x in a <==> x in b
    ensures |a| == |b|
  {
    assert forall x :: x in a <==> x in multiset(a);
    assert forall x :: x in b <==> x in multiset(b);
    assert |multiset(a)| == |a| && |multiset(b)| == |b|;
  }
}
