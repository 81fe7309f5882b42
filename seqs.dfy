/** Small facts about sequence prefixes that the loops over sequences use. */
module Seqs {
  /** The prefix of length `|xs|` is the whole sequence. */
  lemma WholePrefix<T>(xs: seq<T>)
    ensures xs[..|xs|] == xs
  {
  }

  /** Extending a prefix by the next element, after some earlier elements `done`. */
  lemma PrefixSnoc<T>(done: seq<T>, xs: seq<T>, j: nat)
    requires j < |xs|
    ensures done + xs[..j] + [xs[j]] == done + xs[..j + 1]
  {
    assert xs[..j + 1] == xs[..j] + [xs[j]];
  }

  /** The empty prefix adds nothing to `done`; the full prefix adds all of `xs`. */
  lemma PrefixEnds<T>(done: seq<T>, xs: seq<T>)
    ensures done + xs[..0] == done && done + xs[..|xs|] == done + xs
  {
    assert xs[..0] == [] && xs[..|xs|] == xs;
  }
}
