/** Facts about sequence prefixes shared by the loops of the model. */
module Seqs {

  /** The prefix of length `i + 1` is the prefix of length `i` and one more element. */
  lemma PrefixStep<T>(s: seq<T>, i: nat)
    requires i < |s|
    ensures s[..i + 1] == s[..i] + [s[i]]
  {
  }

  /** The suffix from `i` starts with `s[i]`, followed by the suffix from `i + 1`. */
  lemma SuffixStep<T>(s: seq<T>, i: nat)
    requires i < |s|
    ensures s[i..][0] == s[i] && s[i..][1..] == s[i + 1..]
  {
  }

  /** Dropping the last element of `s + [x]` gives `s` back. */
  lemma SnocInit<T>(s: seq<T>, x: T)
    ensures (s + [x])[..|s|] == s && (s + [x])[|s|] == x && |s + [x]| - 1 == |s|
  {
  }
}
