// Small helper datatypes and sequence predicates shared by the other modules.
module Wrappers {

  /** An optional value: `undefined` / `null` in the page code. */
  datatype Option<+T> = None | Some(value: T)

  /** `xs` is `ys` with some elements left out and the rest in their original
      order. */
  ghost predicate IsSubsequence<T>(xs: seq<T>, ys: seq<T>)
  {
    if xs == [] then true
    else if ys == [] then false
    else (xs[0] == ys[0] && IsSubsequence(xs[1..], ys[1..])) || IsSubsequence(xs, ys[1..])
  }
}
