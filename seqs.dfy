/** Facts about sequence concatenation used to keep append loops cheap to verify. */
module Seqs {

  lemma AppendAssociative<T>(a: seq<T>, b: seq<T>, c: seq<T>)
    ensures (a + b) + c == a + (b + c)
  {
  }

  /** Membership in a non-empty sequence, split at its last element. */
  lemma InSnoc<T>(s: seq<T>, x: T)
    requires s != []
    ensures x in s <==> x in s[..|s| - 1] || x == s[|s| - 1]
  {
    assert s == s[..|s| - 1] + [s[|s| - 1]];
  }

  /** A prefix extended by the next element is the longer prefix. */
  lemma TakeSnoc<T>(s: seq<T>, i: int)
    requires 0 <= i < |s|
    ensures s[..i] + [s[i]] == s[..i + 1]
  {
  }

  /** Dropping the element just appended gives the sequence back. */
  lemma FrontOfSnoc<T>(s: seq<T>, x: T)
    ensures (s + [x])[..|s|] == s && (s + [x])[|s|] == x
  {
  }
}
