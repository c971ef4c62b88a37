/** Facts about sequences shared by the screens' list updates. */
module Seqs {

  /** `a` is obtained from `b` by deleting some elements, the rest keeping their relative order. */
  predicate IsSubsequence<T(==)>(a: seq<T>, b: seq<T>)
    decreases |b|
  {
    if b == [] then a == []
    else (a != [] && a[0] == b[0] && IsSubsequence(a[1..], b[1..])) || IsSubsequence(a, b[1..])
  }
}
