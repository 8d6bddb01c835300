/** Facts about sequences that the proofs use by name. */
module Seqs {
  lemma SplitLast<T>(s: seq<T>)
    requires s != []
    ensures s == s[..|s| - 1] + [s[|s| - 1]]
  {
  }

  lemma TwoMore<T>(a: seq<T>, b: seq<T>)
    requires |b| == |a| + 2 && b[..|a|] == a
    ensures b == a + [b[|a|]] + [b[|a| + 1]]
  {
  }

  lemma PrefixMultiset<T>(a: seq<T>, b: seq<T>)
    requires a <= b
    ensures multiset(a) <= multiset(b)
  {
    assert b == a + b[|a|..];
  }
}
