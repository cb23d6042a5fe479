/** Optional values, standing for JavaScript's `undefined`/`null` alternatives, and a sequence fact the proofs share. */
module Wrappers {

  datatype Option<+T> = None | Some(value: T)

  /** Concatenation regroups freely; stated once so that long logs need no extensionality search. */
  lemma AppendAssoc<T>(a: seq<T>, b: seq<T>, c: seq<T>)
    ensures a + b + c == a + (b + c)
  {
  }
}
