/** Order-preserving subsequences: what `Array.prototype.filter` returns relative to
    its input (elements kept in their order, none added, none repeated). */
module Seqs {

  /** `r` is obtained from `s` by deleting elements, keeping the order of the rest. */
  predicate SubsequenceOf<T(==)>(r: seq<T>, s: seq<T>)
    decreases |s|
  {
    r == [] ||
    (s != [] && ((r[0] == s[0] && SubsequenceOf(r[1..], s[1..])) || SubsequenceOf(r, s[1..])))
  }

  lemma {:induction false} SubsequenceReflexive<T>(s: seq<T>)
    ensures SubsequenceOf(s, s)
    decreases |s|
  {
    if s != [] {
      SubsequenceReflexive(s[1..]);
    }
  }

  /** A subsequence is no longer than the sequence and holds only its elements. */
  lemma {:induction false} SubsequenceBounded<T>(r: seq<T>, s: seq<T>)
    requires SubsequenceOf(r, s)
    ensures |r| <= |s|
    ensures forall x :: x in r ==> x in s
    decreases |s|
  {
    if r != [] {
      if r[0] == s[0] && SubsequenceOf(r[1..], s[1..]) {
        SubsequenceBounded(r[1..], s[1..]);
        assert forall x :: x in r ==> x == r[0] || x in r[1..];
      } else {
        SubsequenceBounded(r, s[1..]);
      }
      assert forall x :: x in s[1..] ==> x in s;
    }
  }

  /** Deleting from a deletion is a deletion. */
  lemma {:induction false} SubsequenceTransitive<T>(a: seq<T>, b: seq<T>, c: seq<T>)
    requires SubsequenceOf(a, b) && SubsequenceOf(b, c)
    ensures SubsequenceOf(a, c)
    decreases |c|
  {
    if a != [] {
      if SubsequenceOf(b, c[1..]) {
        SubsequenceTransitive(a, b, c[1..]);
      } else if a[0] == b[0] && SubsequenceOf(a[1..], b[1..]) {
        SubsequenceTransitive(a[1..], b[1..], c[1..]);
      } else {
        SubsequenceTransitive(a, b[1..], c[1..]);
      }
    }
  }
}
