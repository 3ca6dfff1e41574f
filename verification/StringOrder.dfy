// How Python compares strings.
module StringOrder {
  import opened Sequences

  predicate StrLess(a: string, b: string) {
    b != "" && (a == "" || a[0] < b[0] || (a[0] == b[0] && StrLess(a[1..], b[1..])))
  }

  lemma {:induction false} StrTotal(a: string, b: string)
    ensures !(StrLess(a, b) && StrLess(b, a)) && !StrLess(a, a)
    ensures StrLess(a, b) || a == b || StrLess(b, a)
  {
    if a != "" {
      StrTotal(a[1..], a[1..]);
    }
    if a != "" && b != "" {
      StrTotal(a[1..], b[1..]);
      SplitFirst(a);
      SplitFirst(b);
    }
  }

  lemma {:induction false} StrTransitive(a: string, b: string, c: string)
    requires StrLess(a, b) && StrLess(b, c)
    ensures StrLess(a, c)
  {
    if a != "" && a[0] == b[0] && b[0] == c[0] {
      StrTransitive(a[1..], b[1..], c[1..]);
    }
  }

  // Where two strings first differ.
  ghost predicate StrDiffersAt(a: string, b: string, i: int) {
    0 <= i < |a| && i < |b| && a[..i] == b[..i] && a[i] < b[i]
  }

  // The first difference decides, and without one the longer string is higher.
  lemma {:induction false} StrLessIff(a: string, b: string)
    ensures StrLess(a, b) <==> a < b || exists i :: StrDiffersAt(a, b, i)
  {
    if a != "" && b != "" {
      if a[0] == b[0] {
        StrLessIff(a[1..], b[1..]);
        PrefixTail(a, b);
        StrDifferenceTail(a, b);
      } else {
        StrDifferenceFirst(a, b);
      }
    }
  }

  lemma StrDifferenceFirst(a: string, b: string)
    requires a != "" && b != "" && a[0] != b[0]
    ensures (exists i :: StrDiffersAt(a, b, i)) <==> a[0] < b[0]
  {
    if i :| StrDiffersAt(a, b, i) {
      SameFirst(a, b, i);
    }
    if a[0] < b[0] {
      assert StrDiffersAt(a, b, 0);
    }
  }

  lemma StrDifferenceTail(a: string, b: string)
    requires a != "" && b != "" && a[0] == b[0]
    ensures (exists i :: StrDiffersAt(a, b, i)) <==> exists i :: StrDiffersAt(a[1..], b[1..], i)
  {
    if i :| StrDiffersAt(a, b, i) {
      SameHead(a, b, i - 1);
      assert StrDiffersAt(a[1..], b[1..], i - 1);
    }
    if i :| StrDiffersAt(a[1..], b[1..], i) {
      SameHead(a, b, i);
      assert StrDiffersAt(a, b, i + 1);
    }
  }

  // ---------- Sorted lists ----------

  ghost predicate Increasing(lines: seq<string>) { forall i, j | 0 <= i < j < |lines| :: StrLess(lines[i], lines[j]) }

  // Where a line belongs.
  method Insert(lines: seq<string>, line: string) returns (more: seq<string>)
    requires Increasing(lines)
    ensures Increasing(more) && forall l :: l in more <==> l in lines || l == line
  {
    var i := 0;
    while i < |lines| && StrLess(lines[i], line)
      invariant i <= |lines| && forall j | 0 <= j < i :: StrLess(lines[j], line)
    {
      i := i + 1;
    }
    if i < |lines| && lines[i] == line {
      return lines;
    }
    more := lines[..i] + [line] + lines[i..];
    Inserted(lines, line, i, more);
  }

  lemma Inserted(lines: seq<string>, line: string, at: nat, more: seq<string>)
    requires at <= |lines| && Increasing(lines) && more == lines[..at] + [line] + lines[at..]
    requires forall j | 0 <= j < at :: StrLess(lines[j], line)
    requires at < |lines| ==> !StrLess(lines[at], line) && lines[at] != line
    ensures Increasing(more) && forall l :: l in more <==> l in lines || l == line
  {
    if at < |lines| {
      StrTotal(lines[at], line);
    }
    forall i, j | 0 <= i < j < |more|
      ensures StrLess(more[i], more[j])
    {
      if i == at && j > at + 1 {
        StrTransitive(line, lines[at], lines[j - 1]);
      }
    }
    CutAt(lines, at);
    assert forall l :: l in lines <==> l in lines[..at] || l in lines[at..] by {
      assert lines == lines[..at] + lines[at..];
    }
  }

  // `sorted` of a set.
  method Sorted(elements: set<string>) returns (lines: seq<string>)
    ensures Increasing(lines) && forall l :: l in lines <==> l in elements
  {
    lines := [];
    var rest := elements;
    while rest != {}
      invariant rest <= elements && Increasing(lines)
      invariant forall l :: l in lines <==> l in elements - rest
    {
      var line :| line in rest;
      lines := Insert(lines, line);
      rest := rest - {line};
    }
  }
}
