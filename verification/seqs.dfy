/** Reference definitions on plain sequences, against which the operators are specified. */
module Seqs {
  import opened Wrappers

  function Max0(n: int): nat {
    if n > 0 then n else 0
  }

  function Min(a: nat, b: nat): nat {
    if a <= b then a else b
  }

  /** The predicate that holds exactly where `p` does not. */
  function Not<T>(p: T -> bool): T -> bool {
    v => !p(v)
  }

  /** The index of the first element satisfying `p`, or `|xs|` when there is none. */
  function FirstWhere<T>(p: T -> bool, xs: seq<T>): (k: nat)
    ensures k <= |xs|
    ensures forall i | 0 <= i < k :: !p(xs[i])
    ensures k < |xs| ==> p(xs[k])
  {
    if xs == [] then 0
    else if p(xs[0]) then 0
    else 1 + FirstWhere(p, xs[1..])
  }

  /** `f` applied to every element, in order. */
  function MapSeq<T, U>(f: T -> U, xs: seq<T>): seq<U> {
    seq(|xs|, i requires 0 <= i < |xs| => f(xs[i]))
  }

  /** The elements satisfying `p`, in their original order. */
  function FilterSeq<T>(p: T -> bool, xs: seq<T>): seq<T> {
    if xs == [] then []
    else (if p(xs[0]) then [xs[0]] else []) + FilterSeq(p, xs[1..])
  }

  /** Left fold from an optional accumulator: JavaScript's "start from undefined". */
  function FoldLeft<A, T>(f: (Option<A>, T) -> A, acc: Option<A>, xs: seq<T>): Option<A>
    decreases |xs|
  {
    if xs == [] then acc
    else FoldLeft(f, Some(f(acc, xs[0])), xs[1..])
  }

  /** The last `n` elements of `xs` (all of them when there are fewer; none when `n <= 0`). */
  function LastN<T>(xs: seq<T>, n: int): (w: seq<T>)
    ensures |w| == Min(Max0(n), |xs|)
  {
    xs[|xs| - Min(Max0(n), |xs|)..]
  }
}
