// The baseline file of scripts/lint_migrations.py: what is written is read back, and
// matching tolerates small shifts.
module LintBaseline {
  import opened Characters
  import opened Options
  import opened Sequences
  import opened Text
  import opened Numerals
  import opened StringOrder

  datatype Finding = Finding(path: string, line: nat, rule: string)
  datatype Entry = Entry(path: string, rule: string, line: int)

  const FUZZ := 5

  // ---------- Lines ----------

  predicate IsBreak(c: char) {
    var n := c as int;
    10 <= n <= 13 || 28 <= n <= 30 || n == 0x85 || n == 0x2028 || n == 0x2029
  }

  predicate OneLine(s: string) { forall i | 0 <= i < |s| :: !IsBreak(s[i]) }

  function LineLength(s: string): (n: nat)
    ensures n <= |s| && OneLine(s[..n])
    ensures n < |s| ==> IsBreak(s[n])
  {
    if s == "" || IsBreak(s[0]) then 0 else 1 + LineLength(s[1..])
  }

  // `str.splitlines`.
  function SplitLines(s: string): seq<string>
    decreases |s|
  {
    var n := LineLength(s);
    if s == "" then []
    else if n == |s| then [s]
    else if s[n] == '\r' && n + 1 < |s| && s[n + 1] == '\n' then [s[..n]] + SplitLines(s[n + 2..])
    else [s[..n]] + SplitLines(s[n + 1..])
  }

  // Each line, and a newline.
  function Unlines(lines: seq<string>): string {
    if lines == [] then "" else lines[0] + "\n" + Unlines(lines[1..])
  }

  lemma {:induction false} LineLengthOf(line: string, rest: string)
    requires OneLine(line)
    ensures LineLength(line + "\n" + rest) == |line|
    ensures (line + "\n" + rest)[..|line|] == line && (line + "\n" + rest)[|line| + 1..] == rest
    ensures (line + "\n" + rest)[|line|] == '\n'
  {
    if line != "" {
      assert (line + "\n" + rest)[1..] == line[1..] + "\n" + rest;
      LineLengthOf(line[1..], rest);
    }
  }

  // Where the second line of `a` starts, if the newline behind `a` does not end the first.
  function SecondLine(a: string): (r: Option<nat>)
    ensures r.Some? ==> 0 < r.value <= |a|
  {
    var n := LineLength(a);
    if n == |a| || (a[n] == '\r' && n + 1 == |a|) then None
    else if a[n] == '\r' && a[n + 1] == '\n' then Some(n + 2)
    else Some(n + 1)
  }

  // One step of the cut, in a text with a newline behind `a`.
  lemma SplitStep(a: string, rest: string)
    ensures SecondLine(a).None? ==> SplitLines(a + "\n" + rest) == [a[..LineLength(a)]] + SplitLines(rest)
    ensures SecondLine(a).Some? ==>
              SplitLines(a + "\n" + rest) ==
              [a[..LineLength(a)]] + SplitLines(a[SecondLine(a).value..] + "\n" + rest)
  {
    LengthBeforeNewline(a, rest);
    TextBehind(a, rest, LineLength(a));
  }

  lemma SplitLastStep(a: string)
    ensures SecondLine(a).None? ==> SplitLines(a + "\n") == [a[..LineLength(a)]]
    ensures SecondLine(a).Some? ==>
              SplitLines(a + "\n") == [a[..LineLength(a)]] + SplitLines(a[SecondLine(a).value..] + "\n")
  {
    SplitStep(a, "");
    SumOfEmpty(a + "\n");
    assert SplitLines("") == [];
    SumOfEmpty([a[..LineLength(a)]]);
    if SecondLine(a).Some? {
      SumOfEmpty(a[SecondLine(a).value..] + "\n");
    }
  }

  // What is before a newline does not change how the rest is cut.
  lemma {:induction false} SplitAtNewline(a: string, rest: string)
    ensures SplitLines(a + "\n" + rest) == SplitLines(a + "\n") + SplitLines(rest)
    decreases |a|
  {
    SplitStep(a, rest);
    SplitLastStep(a);
    if SecondLine(a).Some? {
      var tail := a[SecondLine(a).value..];
      SplitAtNewline(tail, rest);
      SumAssoc([a[..LineLength(a)]], SplitLines(tail + "\n"), SplitLines(rest));
    }
  }

  lemma TextBehind(a: string, rest: string, n: nat)
    requires n <= |a|
    ensures var s := a + "\n" + rest;
            && s[..n] == a[..n] && s[n] == (if n < |a| then a[n] else '\n')
            && (n < |a| ==> s[n + 1] == (if n + 1 < |a| then a[n + 1] else '\n'))
            && (n == |a| ==> s[n + 1..] == rest) && (n + 1 == |a| ==> s[n + 2..] == rest)
            && (n < |a| ==> s[n + 1..] == a[n + 1..] + "\n" + rest)
            && (n + 1 < |a| ==> s[n + 2..] == a[n + 2..] + "\n" + rest)
  {
  }

  lemma {:induction false} LengthBeforeNewline(a: string, rest: string)
    ensures LineLength(a + "\n" + rest) == LineLength(a)
  {
    if a != "" && !IsBreak(a[0]) {
      assert (a + "\n" + rest)[1..] == a[1..] + "\n" + rest;
      LengthBeforeNewline(a[1..], rest);
    }
  }

  // A text that does not end with a break has the lines it has with a newline.
  lemma {:induction false} LastLineEnds(a: string)
    requires a != "" && !IsBreak(a[|a| - 1])
    ensures SplitLines(a + "\n") == SplitLines(a)
    decreases |a|
  {
    SplitLastStep(a);
    if LineLength(a) == |a| {
      TakeAll(a);
    } else {
      TailKeepsEnd(a);
      SplitFirstLine(a);
      LastLineEnds(a[SecondLine(a).value..]);
    }
  }

  lemma TailKeepsEnd(a: string)
    requires a != "" && !IsBreak(a[|a| - 1]) && LineLength(a) < |a|
    ensures SecondLine(a).Some?
    ensures var tail := a[SecondLine(a).value..]; tail != "" && !IsBreak(tail[|tail| - 1])
  {
  }

  lemma SplitFirstLine(a: string)
    requires SecondLine(a).Some?
    ensures SplitLines(a) == [a[..LineLength(a)]] + SplitLines(a[SecondLine(a).value..])
  {
  }

  // All lines that texts, one a line, are cut into.
  function AllLines(texts: seq<string>): seq<string> {
    if texts == [] then [] else SplitLines(texts[0] + "\n") + AllLines(texts[1..])
  }

  lemma {:induction false} SplitOfTexts(texts: seq<string>)
    ensures SplitLines(Unlines(texts)) == AllLines(texts)
  {
    if texts != [] {
      SplitAtNewline(texts[0], Unlines(texts[1..]));
      SplitOfTexts(texts[1..]);
    }
  }

  lemma {:induction false} LineOfTexts(texts: seq<string>, line: string)
    ensures line in AllLines(texts) <==> exists t | t in texts :: line in SplitLines(t + "\n")
  {
    if texts != [] {
      LineOfTexts(texts[1..], line);
      SplitFirst(texts);
    }
  }

  lemma OneLineAlone(line: string)
    requires OneLine(line)
    ensures SplitLines(line + "\n") == [line]
  {
    LineLengthOf(line, "");
    SumOfEmpty(line + "\n");
    assert SplitLines("") == [];
  }

  // Lines without breaks come back.
  lemma {:induction false} SplitOfUnlines(lines: seq<string>)
    requires forall l | l in lines :: OneLine(l)
    ensures SplitLines(Unlines(lines)) == lines
  {
    SplitOfTexts(lines);
    if lines != [] {
      SplitOfUnlines(lines[1..]);
      SplitOfTexts(lines[1..]);
      OneLineAlone(lines[0]);
      SplitFirst(lines);
    }
  }

  lemma {:induction false} JoinIsUnlines(lines: seq<string>)
    requires lines != []
    ensures Join("\n", lines) + "\n" == Unlines(lines)
  {
    if |lines| > 1 {
      JoinIsUnlines(lines[1..]);
      SumAssoc(lines[0] + "\n", Join("\n", lines[1..]), "\n");
    } else {
      assert Unlines(lines[1..]) == "";
      SumOfEmpty(lines[0] + "\n");
    }
  }

  lemma {:induction false} UnlinesSum(a: seq<string>, b: seq<string>)
    ensures Unlines(a + b) == Unlines(a) + Unlines(b)
  {
    if a == [] {
      SumOfEmpty(b);
      SumOfEmpty(Unlines(b));
    } else {
      TailOfSum(a, b);
      UnlinesSum(a[1..], b);
      SumAssoc(a[0] + "\n", Unlines(a[1..]), Unlines(b));
    }
  }

  lemma {:induction false} LinesHaveNoBreak(s: string)
    ensures forall l | l in SplitLines(s) :: OneLine(l)
    decreases |s|
  {
    var n := LineLength(s);
    if s != "" && n < |s| {
      LinesHaveNoBreak(s[n + 1..]);
      if s[n] == '\r' && n + 1 < |s| && s[n + 1] == '\n' {
        LinesHaveNoBreak(s[n + 2..]);
      }
    } else {
      TakeAll(s);
    }
  }

  // ---------- Writing ----------

  function LineOf(f: Finding): string { f.path + ":" + f.rule + ":" + Decimal(f.line) }

  ghost predicate IsListing(lines: seq<string>, findings: seq<Finding>) {
    && Increasing(lines) && (forall f | f in findings :: LineOf(f) in lines)
    && forall l | l in lines :: exists f | f in findings :: LineOf(f) == l
  }

  // `sorted({...})`.
  method Listing(findings: seq<Finding>) returns (lines: seq<string>)
    ensures IsListing(lines, findings)
  {
    lines := [];
    for i := 0 to |findings|
      invariant IsListing(lines, findings[..i])
    {
      TakeMore(findings, i);
      ghost var before := lines;
      lines := Insert(lines, LineOf(findings[i]));
      ListingMore(before, lines, findings[..i], findings[i]);
    }
    TakeAll(findings);
  }

  lemma ListingMore(before: seq<string>, lines: seq<string>, findings: seq<Finding>, f: Finding)
    requires IsListing(before, findings) && Increasing(lines)
    requires forall l :: l in lines <==> l in before || l == LineOf(f)
    ensures IsListing(lines, findings + [f])
  {
    assert f in findings + [f];
    forall l | l in lines
      ensures exists g | g in findings + [f] :: LineOf(g) == l
    {
      if l in before {
        var g :| g in findings && LineOf(g) == l;
        assert g in findings + [f];
      }
    }
  }

  // The lines the file starts with; their wording does not matter.
  ghost predicate Comments(header: seq<string>) {
    forall l | l in header :: OneLine(l) && l != "" && l[0] == '#'
  }

  ghost predicate IsBaseline(text: string, header: seq<string>, findings: seq<Finding>) {
    exists lines :: IsListing(lines, findings) && text == Unlines(header) + Join("\n", lines) + "\n"
  }

  method WriteBaseline(findings: seq<Finding>, header: seq<string>) returns (text: string)
    ensures IsBaseline(text, header, findings)
  {
    var lines := Listing(findings);
    text := Unlines(header) + Join("\n", lines) + "\n";
  }

  // ---------- Reading ----------

  // The last place of a colon, or none.
  function LastColon(s: string): (r: Option<nat>)
    ensures r.Some? ==> r.value < |s| && s[r.value] == ':' && forall i | r.value < i < |s| :: s[i] != ':'
    ensures r.None? ==> forall i | 0 <= i < |s| :: s[i] != ':'
  {
    if s == "" then None
    else if s[|s| - 1] == ':' then Some(|s| - 1)
    else LastColon(s[..|s| - 1])
  }

  // Digits of any script, with single underscores between them.
  predicate Grouped(s: string) {
    && s != "" && IsDecimal(s[0]) && IsDecimal(s[|s| - 1])
    && forall i | 0 <= i < |s| :: IsDecimal(s[i]) || (s[i] == '_' && i + 1 < |s| && IsDecimal(s[i + 1]))
  }

  function DigitsOf(s: string): (r: string)
    ensures AllDigits(r)
  {
    if s == "" then ""
    else
      NarrowMeaning(s[0]);
      (if IsDecimal(s[0]) then [Narrow(s[0])] else "") + DigitsOf(s[1..])
  }

  lemma {:induction false} DigitsOfNumeral(s: string)
    requires AllDigits(s)
    ensures DigitsOf(s) == s
  {
    if s != "" {
      DigitsOfNumeral(s[1..]);
      AsciiDecimal(s[0]);
      NarrowMeaning(s[0]);
      SplitFirst(s);
    }
  }

  // `int(s)`.
  function ReadInt(s: string): Option<int> {
    var t := Strip(s);
    if Grouped(t) then Some(Value(DigitsOf(t)))
    else if t != "" && t[0] == '-' && Grouped(t[1..]) then
      var n: int := Value(DigitsOf(t[1..]));
      Some(-n)
    else if t != "" && t[0] == '+' && Grouped(t[1..]) then Some(Value(DigitsOf(t[1..])))
    else None
  }

  datatype Parts = Parts(path: string, rule: string, number: string)

  // `rsplit(":", 2)`, when it gives three parts.
  function CutTwice(line: string): Option<Parts> {
    match LastColon(line)
    case None => None
    case Some(last) =>
      match LastColon(line[..last])
      case None => None
      case Some(first) => Some(PartsAt(line, first, last))
  }

  function PartsAt(line: string, first: nat, last: nat): Parts
    requires first < last < |line|
  {
    Parts(line[..first], line[first + 1..last], line[last + 1..])
  }

  function EntryFrom(parts: Parts): Option<Entry> {
    match ReadInt(parts.number)
    case None => None
    case Some(n) => Some(Entry(parts.path, parts.rule, n))
  }

  function ReadEntry(raw: string): Option<Entry> {
    var line := Strip(raw);
    if line == "" || line[0] == '#' then None
    else
      match CutTwice(line)
      case None => None
      case Some(parts) => EntryFrom(parts)
  }

  function ReadEntries(lines: seq<string>): seq<Entry> {
    if lines == [] then []
    else
      ReadEntries(lines[..|lines| - 1]) +
      (match ReadEntry(lines[|lines| - 1]) case Some(e) => [e] case None => [])
  }

  // The file's text, when there is a file.
  method LoadBaseline(file: Option<string>) returns (entries: seq<Entry>)
    ensures entries == if file.None? then [] else ReadEntries(SplitLines(file.value))
  {
    entries := [];
    if file.None? { return; }
    var lines := SplitLines(file.value);
    for i := 0 to |lines|
      invariant entries == ReadEntries(lines[..i])
    {
      TakeMore(lines, i);
      SumSlices(lines[..i], [lines[i]]);
      var entry := ReadEntry(lines[i]);
      if entry.Some? {
        entries := entries + [entry.value];
      }
    }
    TakeAll(lines);
  }

  method MatchesBaseline(finding: Finding, baseline: seq<Entry>) returns (known: bool)
    ensures known <==> Known(finding, baseline)
  {
    for i := 0 to |baseline|
      invariant forall j | 0 <= j < i :: !Near(finding, baseline[j])
    {
      var entry := baseline[i];
      if entry.path == finding.path && entry.rule == finding.rule {
        if -FUZZ <= entry.line - finding.line <= FUZZ {
          assert Near(finding, entry);
          return true;
        }
      }
    }
    known := false;
  }

  predicate Near(f: Finding, e: Entry) {
    e.path == f.path && e.rule == f.rule && -FUZZ <= e.line - f.line <= FUZZ
  }

  ghost predicate Known(f: Finding, baseline: seq<Entry>) { exists e | e in baseline :: Near(f, e) }

  // ---------- Round trip ----------

  // What a file of lines can hold.
  predicate Recordable(f: Finding) {
    && OneLine(f.path) && OneLine(f.rule)
    && (f.path != "" ==> !IsSpace(f.path[0]) && f.path[0] != '#')
    && (forall i | 0 <= i < |f.rule| :: f.rule[i] != ':')
  }

  function EntryOf(f: Finding): Entry { Entry(f.path, f.rule, f.line) }

  lemma {:induction false} ReadEntriesMeaning(lines: seq<string>, e: Entry)
    ensures e in ReadEntries(lines) <==> exists l | l in lines :: ReadEntry(l) == Some(e)
  {
    if lines != [] {
      ReadEntriesMeaning(lines[..|lines| - 1], e);
      SplitLast(lines);
      assert forall l :: l in lines <==> l in lines[..|lines| - 1] || l == lines[|lines| - 1];
    }
  }

  lemma NumeralIsPlain(n: nat)
    ensures Decimal(n) != "" && Tight(Decimal(n)) && forall i | 0 <= i < |Decimal(n)| :: Decimal(n)[i] != ':'
  {
    DecimalReadsBack(n);
    assert forall i | 0 <= i < |Decimal(n)| :: IsDigit(Decimal(n)[i]);
  }

  lemma NumeralIsGrouped(s: string)
    requires Numeral(s) && Tight(s)
    ensures ReadInt(s) == Some(Value(s))
  {
    StripMeaning(s);
    DigitsOfNumeral(s);
    forall i | 0 <= i < |s|
      ensures IsDecimal(s[i])
    {
      AsciiDecimal(s[i]);
    }
  }

  lemma NumeralReads(n: nat)
    ensures ReadInt(Decimal(n)) == Some(n)
  {
    NumeralIsPlain(n);
    DecimalReadsBack(n);
    NumeralIsGrouped(Decimal(n));
  }

  lemma LastColonIs(s: string, n: nat)
    requires n < |s| && s[n] == ':' && forall i | n < i < |s| :: s[i] != ':'
    ensures LastColon(s) == Some(n)
  {
  }

  lemma ColonAt(a: string, b: string)
    requires forall i | 0 <= i < |b| :: b[i] != ':'
    ensures LastColon(a + ":" + b) == Some(|a|)
    ensures (a + ":" + b)[..|a|] == a && (a + ":" + b)[|a| + 1..] == b
  {
    SumSlices(a + ":", b);
    SumSlices(a, ":");
    assert (a + ":" + b)[..|a|] == (a + ":")[..|a|];
    NoColonBehind(a + ":" + b, |a|, b);
  }

  lemma NoColonBehind(s: string, n: nat, b: string)
    requires n < |s| && s[n] == ':' && s[n + 1..] == b && forall i | 0 <= i < |b| :: b[i] != ':'
    ensures LastColon(s) == Some(n)
  {
    forall i | n < i < |s|
      ensures s[i] != ':'
    {
      assert s[i] == b[i - n - 1];
    }
    LastColonIs(s, n);
  }

  lemma CutTwiceAt(line: string, first: nat, last: nat)
    requires first < last < |line| && LastColon(line) == Some(last) && LastColon(line[..last]) == Some(first)
    ensures CutTwice(line) == Some(PartsAt(line, first, last))
  {
  }

  // The head of a line: its path and its rule.
  lemma CutHead(path: string, rule: string, rest: string)
    ensures var head := path + ":" + rule;
            (head + rest)[..|head|] == head && (head + rest)[..|path|] == path &&
            (head + rest)[|path| + 1..|head|] == rule
  {
    var head := path + ":" + rule;
    SumSlices(head, rest);
    assert head[..|path|] == path && head[|path| + 1..] == rule;
    assert (head + rest)[..|path|] == (head + rest)[..|head|][..|path|];
    assert (head + rest)[|path| + 1..|head|] == (head + rest)[..|head|][|path| + 1..];
  }

  // Both cuts of `rsplit`.
  lemma CutsOfLine(path: string, rule: string, number: string)
    requires (forall i | 0 <= i < |rule| :: rule[i] != ':') && forall i | 0 <= i < |number| :: number[i] != ':'
    ensures CutTwice(path + ":" + rule + ":" + number) == Some(Parts(path, rule, number))
  {
    var head := path + ":" + rule;
    var line := head + ":" + number;
    ColonAt(head, number);
    ColonAt(path, rule);
    SumAssoc(head, ":", number);
    CutHead(path, rule, ":" + number);
    CutTwiceAt(line, |path|, |head|);
    PartsOfLine(path, rule, number);
  }

  lemma PartsOfLine(path: string, rule: string, number: string)
    ensures PartsAt(path + ":" + rule + ":" + number, |path|, |path| + 1 + |rule|) == Parts(path, rule, number)
  {
    var head := path + ":" + rule;
    SumAssoc(head, ":", number);
    CutHead(path, rule, ":" + number);
    SumSlices(head + ":", number);
  }

  lemma LineIsStripped(f: Finding)
    requires Recordable(f)
    ensures LineOf(f) != "" && LineOf(f)[0] != '#' && Strip(LineOf(f)) == LineOf(f)
  {
    var line, number := LineOf(f), Decimal(f.line);
    NumeralIsPlain(f.line);
    assert line[|line| - 1] == number[|number| - 1];
    assert line[0] == (if f.path == "" then ':' else f.path[0]);
    StripMeaning(line);
  }

  lemma LineIsOneLine(f: Finding)
    requires Recordable(f)
    ensures OneLine(LineOf(f))
  {
    DecimalReadsBack(f.line);
    OneLineSum(f.path + ":" + f.rule, Decimal(f.line));
    OneLineSum(f.path, f.rule);
    assert forall i | 0 <= i < |Decimal(f.line)| :: IsDigit(Decimal(f.line)[i]);
  }

  // A recordable finding's line gives the finding.
  lemma LineReadsBack(f: Finding)
    requires Recordable(f)
    ensures ReadEntry(LineOf(f)) == Some(EntryOf(f)) && OneLine(LineOf(f))
  {
    LineIsStripped(f);
    LineIsOneLine(f);
    NumeralReads(f.line);
    CutAtColons(f);
  }

  lemma CutAtColons(f: Finding)
    requires Recordable(f)
    ensures CutTwice(LineOf(f)) == Some(Parts(f.path, f.rule, Decimal(f.line)))
  {
    NumeralIsPlain(f.line);
    CutsOfLine(f.path, f.rule, Decimal(f.line));
  }

  lemma OneLineSum(a: string, b: string)
    ensures OneLine(a) && OneLine(b) ==> OneLine(a + ":" + b)
  {
  }

  lemma {:induction false} OneLineOfStrip(s: string)
    requires OneLine(s)
    ensures OneLine(LStrip(s)) && OneLine(RStrip(s))
  {
    if s != "" {
      if IsSpace(s[0]) { OneLineOfStrip(s[1..]); }
      if IsSpace(s[|s| - 1]) { OneLineOfStrip(s[..|s| - 1]); }
    }
  }

  // Nothing else is ever read.
  lemma ReadIsRecordable(raw: string, f: Finding)
    requires OneLine(raw) && ReadEntry(raw) == Some(EntryOf(f))
    ensures Recordable(f)
  {
    var line := Strip(raw);
    StripMeaning(raw);
    OneLineOfStrip(raw);
    OneLineOfStrip(LStrip(raw));
    var last := LastColon(line);
    var first := LastColon(line[..last.value]);
    assert f.path == line[..first.value] && f.rule == line[first.value + 1..last.value];
    if f.path != "" {
      assert f.path[0] == line[0];
    }
    forall i | 0 <= i < |f.rule|
      ensures f.rule[i] != ':'
    {
      assert f.rule[i] == line[..last.value][first.value + 1 + i];
    }
  }

  lemma CommentIsNoEntry(l: string)
    requires l != "" && l[0] == '#'
    ensures ReadEntry(l).None?
  {
    StripMeaning(l);
    RStripMeaning(l);
  }

  // What the line of a finding, or its lines, read as.
  function EntriesOf(f: Finding): seq<Entry> { ReadEntries(SplitLines(LineOf(f))) }

  lemma LineEndsInDigit(f: Finding)
    ensures LineOf(f) != "" && !IsBreak(LineOf(f)[|LineOf(f)| - 1])
  {
    var number := Decimal(f.line);
    DecimalReadsBack(f.line);
    assert LineOf(f)[|LineOf(f)| - 1] == number[|number| - 1];
  }

  // A recordable finding reads as itself; any other one as something else, or nothing.
  lemma EntriesOfMeaning(f: Finding)
    ensures Recordable(f) ==> EntriesOf(f) == [EntryOf(f)]
    ensures EntryOf(f) in EntriesOf(f) <==> Recordable(f)
  {
    if Recordable(f) {
      LineReadsBack(f);
      LineEndsInDigit(f);
      OneLineAlone(LineOf(f));
      LastLineEnds(LineOf(f));
      assert [LineOf(f)][..0] == [];
    }
    if EntryOf(f) in EntriesOf(f) {
      ReadEntriesMeaning(SplitLines(LineOf(f)), EntryOf(f));
      LinesHaveNoBreak(LineOf(f));
      var l :| l in SplitLines(LineOf(f)) && ReadEntry(l) == Some(EntryOf(f));
      ReadIsRecordable(l, f);
    }
  }

  predicate ReadsIn(texts: seq<string>, e: Entry) {
    exists t | t in texts :: e in ReadEntries(SplitLines(t + "\n"))
  }

  lemma EntryOfTexts(texts: seq<string>, e: Entry)
    ensures e in ReadEntries(SplitLines(Unlines(texts))) <==> ReadsIn(texts, e)
  {
    SplitOfTexts(texts);
    ReadEntriesMeaning(AllLines(texts), e);
    forall l
      ensures l in AllLines(texts) <==> exists t | t in texts :: l in SplitLines(t + "\n")
    {
      LineOfTexts(texts, l);
    }
    forall t | t in texts
      ensures e in ReadEntries(SplitLines(t + "\n")) <==>
                exists l | l in SplitLines(t + "\n") :: ReadEntry(l) == Some(e)
    {
      ReadEntriesMeaning(SplitLines(t + "\n"), e);
    }
  }

  lemma NothingInComments(header: seq<string>, e: Entry)
    requires Comments(header)
    ensures !ReadsIn(header, e)
  {
    forall t | t in header
      ensures e !in ReadEntries(SplitLines(t + "\n"))
    {
      OneLineAlone(t);
      CommentIsNoEntry(t);
      ReadEntriesMeaning([t], e);
    }
  }

  lemma ListingReads(lines: seq<string>, findings: seq<Finding>, e: Entry)
    requires IsListing(lines, findings)
    ensures ReadsIn(lines, e) <==> exists f | f in findings :: e in EntriesOf(f)
  {
    forall f: Finding
      ensures ReadEntries(SplitLines(LineOf(f) + "\n")) == EntriesOf(f)
    {
      LineEndsInDigit(f);
      LastLineEnds(LineOf(f));
    }
    if t :| t in lines && e in ReadEntries(SplitLines(t + "\n")) {
      var f :| f in findings && LineOf(f) == t;
      assert e in EntriesOf(f);
    }
    if f :| f in findings && e in EntriesOf(f) {
      assert LineOf(f) in lines;
    }
  }

  // The entries of a file: those of its header, and those of the findings' own lines.
  lemma FileReads(text: string, header: seq<string>, findings: seq<Finding>, e: Entry)
    requires IsBaseline(text, header, findings)
    ensures e in ReadEntries(SplitLines(text)) <==>
              ReadsIn(header, e) || exists f | f in findings :: e in EntriesOf(f)
  {
    var lines :| IsListing(lines, findings) && text == Unlines(header) + Join("\n", lines) + "\n";
    var body := if lines == [] then [""] else lines;
    JoinIsUnlines(body);
    SumAssoc(Unlines(header), Join("\n", lines), "\n");
    UnlinesSum(header, body);
    EntryOfTexts(header + body, e);
    ReadsInSum(header, body, e);
    ListingReads(lines, findings, e);
    if lines == [] {
      EmptyLineReads(e);
    }
  }

  lemma ReadsInSum(a: seq<string>, b: seq<string>, e: Entry)
    ensures ReadsIn(a + b, e) <==> ReadsIn(a, e) || ReadsIn(b, e)
  {
    assert forall t :: t in a + b <==> t in a || t in b;
  }

  lemma EmptyLineReads(e: Entry)
    ensures !ReadsIn([""], e) && !ReadsIn([], e)
  {
    OneLineAlone("");
    ReadEntriesMeaning([""], e);
    assert ReadEntry("").None?;
  }

  // A baseline is read back as what its findings' lines read as: when all of them are
  // recordable, as one entry a finding, no more.
  lemma BaselineReadsBack(text: string, header: seq<string>, findings: seq<Finding>, e: Entry)
    requires IsBaseline(text, header, findings) && Comments(header)
    ensures e in ReadEntries(SplitLines(text)) <==> exists f | f in findings :: e in EntriesOf(f)
    ensures (forall f | f in findings :: Recordable(f)) ==>
              (e in ReadEntries(SplitLines(text)) <==> exists f | f in findings :: EntryOf(f) == e)
  {
    FileReads(text, header, findings, e);
    NothingInComments(header, e);
    forall f | f in findings && Recordable(f)
      ensures e in EntriesOf(f) <==> EntryOf(f) == e
    {
      EntriesOfMeaning(f);
    }
  }

  // A finding is read back exactly when it is recordable, whatever else is in the file.
  lemma OwnEntryIff(text: string, header: seq<string>, findings: seq<Finding>, f: Finding)
    requires IsBaseline(text, header, findings) && f in findings
    ensures EntryOf(f) in ReadEntries(SplitLines(text)) <==> Recordable(f)
  {
    EntriesOfMeaning(f);
    FileReads(text, header, findings, EntryOf(f));
    if EntryOf(f) in ReadEntries(SplitLines(text)) {
      ReadEntriesMeaning(SplitLines(text), EntryOf(f));
      LinesHaveNoBreak(text);
      var l :| l in SplitLines(text) && ReadEntry(l) == Some(EntryOf(f));
      ReadIsRecordable(l, f);
    }
  }

  // What a recorded finding makes known: its path and rule within five lines, or, when
  // it is not recordable, what its line reads as.
  ghost predicate Covers(f: Finding, g: Finding) {
    if Recordable(f) then f.path == g.path && f.rule == g.rule && -5 <= f.line - g.line <= 5
    else Known(g, EntriesOf(f))
  }

  // A finding is known to a baseline exactly when some recorded one covers it.
  lemma KnownIff(text: string, header: seq<string>, findings: seq<Finding>, g: Finding)
    requires IsBaseline(text, header, findings) && Comments(header)
    ensures Known(g, ReadEntries(SplitLines(text))) <==> exists f | f in findings :: Covers(f, g)
  {
    var entries := ReadEntries(SplitLines(text));
    if e :| e in entries && Near(g, e) {
      BaselineReadsBack(text, header, findings, e);
      var f :| f in findings && e in EntriesOf(f);
      EntriesOfMeaning(f);
      assert Covers(f, g);
    }
    if f :| f in findings && Covers(f, g) {
      EntriesOfMeaning(f);
      assert Recordable(f) ==> Near(g, EntryOf(f)) && EntryOf(f) in EntriesOf(f);
      var e :| e in EntriesOf(f) && Near(g, e);
      BaselineReadsBack(text, header, findings, e);
    }
  }

  // A path that starts with a hash is read as a comment, a rule that holds a colon as
  // the end of another path: both findings are new again at the next run.
  lemma LostFindings(text: string, header: seq<string>, findings: seq<Finding>)
    requires IsBaseline(text, header, findings)
    requires Finding("#a.py", 1, "r") in findings && Finding("a.py", 1, "r:s") in findings
    ensures Entry("#a.py", "r", 1) !in ReadEntries(SplitLines(text))
    ensures Entry("a.py", "r:s", 1) !in ReadEntries(SplitLines(text))
  {
    var hash, colon := Finding("#a.py", 1, "r"), Finding("a.py", 1, "r:s");
    OwnEntryIff(text, header, findings, hash);
    OwnEntryIff(text, header, findings, colon);
    assert hash.path[0] == '#' && colon.rule[1] == ':';
  }
}
