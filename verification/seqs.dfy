/** Order relations between sequences. */
module Seqs {

  /** `sub` is obtained from `xs` by deleting elements, the rest keeping
      their relative order. */
  predicate SubsequenceOf<T(==)>(sub: seq<T>, xs: seq<T>)
    decreases |xs|
  {
    if sub == [] then true
    else if xs == [] then false
    else (sub[0] == xs[0] && SubsequenceOf(sub[1..], xs[1..])) || SubsequenceOf(sub, xs[1..])
  }
}
