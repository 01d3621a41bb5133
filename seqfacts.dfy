/** Small facts about sequences that the reverse loops of the game use at every step:
    taking an element off a suffix and replacing or splicing out one element. */
module SeqFacts {
  /** Re-associates a sequence built by prepending one element. */
  lemma ConsAppend<T>(x: T, a: seq<T>, b: seq<T>)
    ensures [x] + (a + b) == ([x] + a) + b
  {
  }

  /** The suffix from i is element i followed by the suffix from i + 1. */
  lemma Uncons<T>(s: seq<T>, i: nat)
    requires i < |s|
    ensures s[i..] == [s[i]] + s[i + 1..]
    ensures s[i..][0] == s[i] && s[i..][1..] == s[i + 1..]
  {
  }

  /** Two sequences that agree up to i + 1 agree up to i and at i. */
  lemma PrefixShrink<T>(a: seq<T>, b: seq<T>, i: nat)
    requires i < |a| && i < |b| && a[..i + 1] == b[..i + 1]
    ensures a[..i] == b[..i] && a[i] == b[i]
  {
    assert a[..i] == a[..i + 1][..i] && b[..i] == b[..i + 1][..i];
    assert a[i] == a[..i + 1][i] && b[i] == b[..i + 1][i];
  }

  /** Replacing element i leaves the prefix and puts the new element in front of the
      unchanged rest. */
  lemma UpdateAt<T>(s: seq<T>, i: nat, x: T)
    requires i < |s|
    ensures s[i := x][..i] == s[..i]
    ensures s[i := x][i..] == [x] + s[i + 1..]
  {
  }

  /** Splicing out element i leaves the prefix and shifts the suffix down by one. */
  lemma SpliceAt<T>(s: seq<T>, i: nat)
    requires i < |s|
    ensures (s[..i] + s[i + 1..])[..i] == s[..i]
    ensures (s[..i] + s[i + 1..])[i..] == s[i + 1..]
    ensures s[i..] == [s[i]] + s[i + 1..]
  {
  }

  /** A sequence is its prefix up to i followed by its suffix from i. */
  lemma Split<T>(s: seq<T>, i: nat)
    requires i <= |s|
    ensures s == s[..i] + s[i..]
  {
  }
}
