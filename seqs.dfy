/** Sequence helpers the POSIX resolver needs: the de-duplication that
    `collections.OrderedDict.fromkeys(xs).keys()` performs. */
module Seqs {

  ghost predicate NoDuplicates<T>(s: seq<T>) {
    forall i, j :: 0 <= i < j < |s| ==> s[i] != s[j]
  }

  /** The position of the first occurrence of `x` in `s`. */
  function FirstIndex<T(==)>(s: seq<T>, x: T): (i: nat)
    requires x in s
    ensures i < |s| && s[i] == x && x !in s[..i]
  {
    if s[0] == x then 0
    else
      var k := FirstIndex(s[1..], x);
      assert s[1..][..k] == s[1..k + 1];
      1 + k
  }

  /** `OrderedDict.fromkeys(s).keys()`: each element once, kept where it
      first occurs. */
  function Dedup<T(==)>(s: seq<T>): (r: seq<T>)
    ensures NoDuplicates(r)
    ensures forall i :: 0 <= i < |r| ==> r[i] in s
    ensures forall i :: 0 <= i < |s| ==> s[i] in r
    decreases |s|
  {
    if s == [] then []
    else
      var prefix := Dedup(s[..|s| - 1]);
      var x := s[|s| - 1];
      assert s == s[..|s| - 1] + [x];
      if x in prefix then prefix else prefix + [x]
  }

  lemma {:induction false} FirstIndexInPrefix<T>(s: seq<T>, n: nat, x: T)
    requires n <= |s| && x in s[..n]
    ensures FirstIndex(s, x) == FirstIndex(s[..n], x)
  {
    if s[0] != x {
      assert s[1..][..n - 1] == s[..n][1..];
      FirstIndexInPrefix(s[1..], n - 1, x);
    }
  }

  lemma {:induction false} FirstIndexOfNew<T>(s: seq<T>, x: T)
    requires |s| > 0 && s[|s| - 1] == x && x !in s[..|s| - 1]
    ensures FirstIndex(s, x) == |s| - 1
  {
  }

  /** The kept elements appear in the order of their first occurrences. */
  lemma {:induction false} DedupKeepsFirstOccurrenceOrder<T>(s: seq<T>, i: nat, j: nat)
    requires i < j < |Dedup(s)|
    ensures FirstIndex(s, Dedup(s)[i]) < FirstIndex(s, Dedup(s)[j])
    decreases |s|
  {
    var n := |s| - 1;
    var pre := s[..n];
    var prefix := Dedup(pre);
    var x := s[n];
    var r := Dedup(s);
    assert r[i] in prefix;
    FirstIndexInPrefix(s, n, r[i]);
    if j < |prefix| {
      FirstIndexInPrefix(s, n, r[j]);
      DedupKeepsFirstOccurrenceOrder(pre, i, j);
    } else {
      assert r[j] == x && x !in pre;
      FirstIndexOfNew(s, x);
    }
  }

  /** What a prefix lacks, every shorter prefix lacks. */
  lemma AbsentFromShorterPrefix<T>(s: seq<T>, x: T, a: nat, b: nat)
    requires a <= b <= |s| && x !in s[..b]
    ensures x !in s[..a]
  {
    assert s[..a] == s[..b][..a];
  }

  /** A prefix reaching past `a` keeps all of `a`. */
  lemma PrefixOfConcat<T>(a: seq<T>, b: seq<T>, n: nat)
    requires |a| <= n <= |a| + |b|
    ensures (a + b)[..n] == a + b[..n - |a|]
  {
  }
}
