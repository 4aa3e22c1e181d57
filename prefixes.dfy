/** Small facts about prefixes and concatenation that the loops over sequences use, kept
    apart so that each is proved once, away from the loops' larger contexts. */
module Prefixes {
  /** Taking one more element of `s`. */
  lemma PrefixStep<T>(s: seq<T>, i: nat)
    requires i < |s|
    ensures s[..i + 1] == s[..i] + [s[i]]
  {
  }

  lemma PrefixAll<T>(s: seq<T>)
    ensures s[..|s|] == s
  {
  }

  lemma AppendAssoc<T>(xs: seq<T>, ys: seq<T>, zs: seq<T>)
    ensures (xs + ys) + zs == xs + (ys + zs)
  {
  }

  /** A slice that lies inside a prefix of `s` is the same slice of that prefix. */
  lemma SliceOfPrefix<T>(s: seq<T>, p: seq<T>, a: nat, b: nat)
    requires p <= s && a <= b <= |p|
    ensures s[a..b] == p[a..b]
  {
  }

  /** The second half of a concatenation, sliced out of it. */
  lemma SliceRight<T>(p: seq<T>, q: seq<T>)
    ensures (p + q)[|p|..|p| + |q|] == q
  {
  }
}
