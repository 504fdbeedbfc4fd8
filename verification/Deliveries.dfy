/** Sequences of notifications with repeats. */
module Deliveries {
  /** The sequence without the elements that repeat the one before them. */
  function Dedup<T(==)>(s: seq<T>): seq<T> {
    if s == [] then []
    else
      var d := Dedup(s[..|s| - 1]);
      var e := s[|s| - 1];
      if d != [] && d[|d| - 1] == e then d else d + [e]
  }

  lemma DedupAppend<T>(s: seq<T>, e: T)
    ensures Dedup(s + [e]) == var d := Dedup(s); if d != [] && d[|d| - 1] == e then d else d + [e]
  {
    assert (s + [e])[..|s|] == s;
  }

  /** What was kept of a prefix is a prefix of what is kept, and ends like the prefix. */
  lemma {:induction false} DedupPrefix<T>(s: seq<T>, k: nat)
    requires k <= |s|
    ensures Dedup(s[..k]) <= Dedup(s)
    ensures k > 0 ==> Dedup(s[..k]) != [] && Dedup(s[..k])[|Dedup(s[..k])| - 1] == s[k - 1]
    decreases |s|
  {
    if k < |s| {
      assert s[..|s| - 1][..k] == s[..k];
      DedupPrefix(s[..|s| - 1], k);
    } else {
      assert s[..k] == s;
    }
  }

  /** Nothing is added. */
  lemma {:induction false} DedupIn<T>(s: seq<T>, e: T)
    requires e in Dedup(s)
    ensures e in s
  {
    if s[|s| - 1] != e {
      DedupIn(s[..|s| - 1], e);
    }
  }

  /** One more element adds at most one. */
  lemma DedupStep<T>(s: seq<T>, k: nat)
    requires k < |s|
    ensures var d, d' := Dedup(s[..k]), Dedup(s[..k + 1]);
            && d <= d' <= Dedup(s) && |d| <= |d'| <= |d| + 1
            && d' != [] && d'[|d'| - 1] == s[k]
  {
    DedupPrefix(s, k);
    DedupPrefix(s, k + 1);
    assert s[..k + 1] == s[..k] + [s[k]];
    DedupAppend(s[..k], s[k]);
  }

  function UpTo(n: nat): seq<nat> {
    seq(n, i => i)
  }
}
