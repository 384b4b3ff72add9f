/** Facts about sequences, stated for any element type. */
module Sequences {
  lemma Assoc<T>(a: seq<T>, b: seq<T>, c: seq<T>)
    ensures (a + b) + c == a + (b + c)
  {}

  lemma Grow<T>(acc: seq<T>, x: T, rest: seq<T>, total: seq<T>)
    requires acc + ([x] + rest) == total
    ensures (acc + [x]) + rest == total
  {}

  lemma DropLast<T>(acc: seq<T>, x: T, total: seq<T>)
    requires acc + ([x] + []) == total
    ensures |total| > 0 && acc == total[..|total| - 1]
  {}

  lemma SliceOfAppend<T>(a: seq<T>, b: seq<T>, lo: nat, hi: nat)
    requires lo <= hi <= |a|
    ensures (a + b)[lo..hi] == a[lo..hi]
  {}

  lemma InAppend<T>(a: seq<T>, b: seq<T>, x: T)
    ensures x in a + b <==> x in a || x in b
  {}

  lemma HeadTail<T>(x: T, rest: seq<T>)
    ensures ([x] + rest)[0] == x && ([x] + rest)[1..] == rest
  {}

  lemma TailOfAppend<T>(a: seq<T>, b: seq<T>)
    ensures (a + b)[|a|..|a + b|] == b
    ensures forall i :: 0 <= i < |a| ==> (a + b)[i] == a[i] && a[i] in a
    ensures forall i :: |a| <= i < |a + b| ==> (a + b)[i] in b
  {}

  lemma SomeMember<T>(a: seq<T>)
    ensures a != [] ==> exists x :: x in a
  {
    if a != [] { assert a[0] in a; }
  }

  lemma Empty<T>(a: seq<T>)
    ensures a + [] == a && [] + a == a
  {}

  lemma SplitAppend<T>(a: seq<T>, b: seq<T>, n: nat)
    requires n <= |a|
    ensures (a + b)[n..] == a[n..] + b && (a + b)[..n] == a[..n]
  {}

  lemma SplitAt<T>(a: seq<T>, n: nat)
    requires n <= |a|
    ensures a == a[..n] + a[n..]
  {}
}
