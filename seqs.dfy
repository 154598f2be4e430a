/** Element-wise maps over sequences. */
module Seqs {
  /** `f` applied to each element of `xs`, in order. */
  function Map<A, B>(f: A -> B, xs: seq<A>): (ys: seq<B>)
    ensures |ys| == |xs|
    ensures forall i :: 0 <= i < |xs| ==> ys[i] == f(xs[i])
    decreases |xs|
  {
    if xs == [] then []
    else Map(f, xs[..|xs| - 1]) + [f(xs[|xs| - 1])]
  }

  /** One more element of `xs` adds one more result at the end. */
  lemma MapStep<A, B>(f: A -> B, xs: seq<A>, i: nat)
    requires i < |xs|
    ensures Map(f, xs[..i + 1]) == Map(f, xs[..i]) + [f(xs[i])]
  {
    assert xs[..i + 1][..i] == xs[..i];
  }

  lemma AppendAssoc<T>(a: seq<T>, b: seq<T>, c: seq<T>)
    ensures (a + b) + c == a + (b + c)
  {
  }

  /** The middle of `[a] + xs + [b]` is `xs`. */
  lemma Framed<T>(a: T, xs: seq<T>, b: T)
    ensures |[a] + xs + [b]| == |xs| + 2
    ensures ([a] + xs + [b])[0] == a && ([a] + xs + [b])[|xs| + 1] == b
    ensures forall i :: 0 <= i < |xs| ==> ([a] + xs + [b])[i + 1] == xs[i]
  {
  }

  /** The index of the first element satisfying `p`, or `|xs|` when none does. */
  function FirstWhere<T>(p: T -> bool, xs: seq<T>): (k: nat)
    ensures k <= |xs|
    ensures forall j :: 0 <= j < k ==> !p(xs[j])
    ensures k < |xs| ==> p(xs[k])
    decreases |xs|
  {
    if xs == [] then 0
    else if p(xs[0]) then 0
    else 1 + FirstWhere(p, xs[1..])
  }

  lemma ConsPair<T>(a: T, b: T, rest: seq<T>)
    ensures [a, b] + rest == [a] + ([b] + rest)
  {
  }

  lemma ConsFour<T>(a: T, b: T, c: T, d: T)
    ensures [a, b, c, d] == [a] + ([b, c] + [d])
  {
  }
}
