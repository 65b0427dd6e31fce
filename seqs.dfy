/**
 * A sequence fact used by the append lemmas, stated once for every element type: the solver
 * reaches it far more cheaply through this generic lemma than by re-deriving it for each
 * concrete row type.
 */
module Seqs {
  lemma ConcatAssoc<T>(x: seq<T>, y: seq<T>, z: seq<T>)
    ensures x + (y + z) == (x + y) + z
  {
  }
}
