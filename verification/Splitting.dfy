// `str.split` on one character, and its inverse.
module Splitting {
  import opened Sequences
  import opened Text

  // Where `c` first is, or the length.
  function Find(s: string, c: char): (n: nat)
    ensures n <= |s|
    ensures n < |s| ==> s[n] == c
    ensures forall i | 0 <= i < n :: s[i] != c
  {
    if s == "" || s[0] == c then 0 else 1 + Find(s[1..], c)
  }

  function Split(s: string, c: char): (parts: seq<string>)
    ensures parts != []
    decreases |s|
  {
    var n := Find(s, c);
    if n == |s| then [s] else [s[..n]] + Split(s[n + 1..], c)
  }

  predicate Free(s: string, c: char) { forall i | 0 <= i < |s| :: s[i] != c }

  ghost predicate AllFree(parts: seq<string>, c: char) { forall p | p in parts :: Free(p, c) }

  lemma FindIn(a: string, c: char, b: string)
    requires Free(a, c)
    ensures Find(a, c) == |a|
    ensures Find(a + [c] + b, c) == |a|
    ensures (a + [c] + b)[..|a|] == a && (a + [c] + b)[|a| + 1..] == b
  {
    assert (a + [c] + b)[|a|] == c;
    assert forall i | 0 <= i < |a| :: (a + [c] + b)[i] == a[i];
  }

  // Parts without the character come back.
  lemma {:induction false} SplitOfJoin(parts: seq<string>, c: char)
    requires parts != [] && AllFree(parts, c)
    ensures Split(Join([c], parts), c) == parts
  {
    FindIn(parts[0], c, Join([c], parts[1..]));
    SplitFirst(parts);
    if |parts| > 1 {
      SplitOfJoin(parts[1..], c);
    }
  }

  // And so does any string.
  lemma {:induction false} JoinOfSplit(s: string, c: char)
    ensures Join([c], Split(s, c)) == s && AllFree(Split(s, c), c)
    decreases |s|
  {
    var n := Find(s, c);
    if n < |s| {
      JoinOfSplit(s[n + 1..], c);
      assert s == s[..n] + [c] + s[n + 1..];
      TailOfSum([s[..n]], Split(s[n + 1..], c));
      SumOfEmpty(Split(s[n + 1..], c));
    }
  }
}
