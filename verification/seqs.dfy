/** Regrouping facts about sequence concatenation, proved once for every
    element type so that the proofs about notes and histories can cite them
    instead of re-deriving them. */
module Seqs {

  lemma AppendAssociates<T>(a: seq<T>, b: seq<T>, c: seq<T>)
    ensures a + b + c == a + (b + c)
  {
  }

  /** Appending four elements one or two at a time gives the same sequence. */
  lemma AppendSingles<T>(h: seq<T>, a: T, b: T, c: T, d: T)
    ensures h + [a, b] + [c] + [d] == h + [a, b, c, d]
  {
  }

  /** Past a prefix, an index into `pre + xs + tail` lands in `xs`. */
  lemma IndexPastPrefix<T>(pre: seq<T>, xs: seq<T>, tail: seq<T>, i: int)
    requires 0 <= i < |xs|
    ensures |pre| + i < |pre + xs + tail| && (pre + xs + tail)[|pre| + i] == xs[i]
  {
  }
}
