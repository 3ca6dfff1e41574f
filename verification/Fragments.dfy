// Changelog fragments of scripts/changelog_assemble.py: the parser, and what an
// accepted fragment holds.
module Fragments {
  import opened Sequences
  import opened Text

  const SECTIONS: seq<string> :=
    ["Added", "Changed", "Deprecated", "Removed", "Fixed", "Security", "Migrations", "Breaking"]

  function HeadingOf(section: string): string { "### " + section }

  // `^\s*(```|~~~)`.
  predicate IsFence(line: string) {
    var s := LStrip(line);
    "```" <= s || "~~~" <= s
  }

  // The title of a `###` heading; a title is never empty.
  function HeadingTitle(line: string): string {
    if "###" <= line && |line| > 3 && IsSpace(line[3]) then Strip(line[3..]) else ""
  }

  datatype Problem =
    | UnknownSection(number: nat)
    | Repeated(number: nat)
    | StrayHash(number: nat)
    | TextBeforeHeading(number: nat)
    | FenceNotClosed
    | NoEntries(section: string)
    | NoHeading
    | BadName

  // The state of the parser between two lines; `current` is "" outside sections.
  datatype Parse = Parse(order: seq<string>, bodies: map<string, seq<string>>, current: string,
                         fenced: bool, problems: seq<Problem>)

  ghost predicate Wellformed(p: Parse) {
    && (forall s :: s in p.order <==> s in p.bodies)
    && (forall s | s in p.order :: s in SECTIONS)
    && (forall i, j | 0 <= i < j < |p.order| :: p.order[i] != p.order[j])
    && (p.current != "" ==> p.current in p.bodies)
  }

  function Complain(p: Parse, problem: Problem): Parse { p.(problems := p.problems + [problem]) }

  // A line of content goes to the section that is open.
  function AddLine(p: Parse, line: string, number: nat): Parse {
    if p.current != "" then
      (if p.current in p.bodies then p.(bodies := p.bodies[p.current := p.bodies[p.current] + [line]]) else p)
    else if Blank(line) then p
    else Complain(p, TextBeforeHeading(number))
  }

  function OpenSection(p: Parse, section: string, number: nat): Parse {
    if section !in SECTIONS then Complain(p, UnknownSection(number)).(current := "")
    else if section in p.bodies then Complain(p, Repeated(number)).(current := section)
    else Opened(p, section)
  }

  function Opened(p: Parse, section: string): Parse {
    p.(order := p.order + [section], bodies := p.bodies[section := []], current := section)
  }

  function Step(p: Parse, raw: string, number: nat): Parse {
    var line := RStrip(raw);
    if IsFence(line) then AddLine(p.(fenced := !p.fenced), line, number)
    else if p.fenced then AddLine(p, line, number)
    else if HeadingTitle(line) != "" then OpenSection(p, HeadingTitle(line), number)
    else if "#" <= line then Complain(p, StrayHash(number))
    else AddLine(p, line, number)
  }

  const EMPTY := Parse([], map[], "", false, [])

  function ParseLines(lines: seq<string>): Parse {
    if lines == [] then EMPTY
    else Step(ParseLines(lines[..|lines| - 1]), lines[|lines| - 1], |lines|)
  }

  // ---------- Blank lines at the ends ----------

  function DropBlank(lines: seq<string>): seq<string> {
    if lines != [] && Blank(lines[0]) then DropBlank(lines[1..]) else lines
  }

  function DropBlankEnd(lines: seq<string>): seq<string> {
    if lines != [] && Blank(lines[|lines| - 1]) then DropBlankEnd(lines[..|lines| - 1]) else lines
  }

  function Trim(lines: seq<string>): seq<string> { DropBlankEnd(DropBlank(lines)) }

  predicate AllBlank(lines: seq<string>) { forall i | 0 <= i < |lines| :: Blank(lines[i]) }

  // Entries: neither end is a blank line.
  predicate Entries(lines: seq<string>) { lines != [] && !Blank(lines[0]) && !Blank(lines[|lines| - 1]) }

  lemma {:induction false} DropBlankMeaning(lines: seq<string>)
    ensures DropBlank(lines) != [] ==>
              !Blank(DropBlank(lines)[0]) && DropBlank(lines)[|DropBlank(lines)| - 1] == lines[|lines| - 1]
    ensures DropBlank(lines) == [] <==> AllBlank(lines)
  {
    if lines != [] && Blank(lines[0]) {
      DropBlankMeaning(lines[1..]);
      if AllBlank(lines[1..]) {
        assert forall i | 1 <= i < |lines| :: lines[i] == lines[1..][i - 1];
      }
    }
  }

  lemma {:induction false} DropBlankEndMeaning(lines: seq<string>)
    ensures DropBlankEnd(lines) != [] ==> !Blank(DropBlankEnd(lines)[|DropBlankEnd(lines)| - 1])
    ensures DropBlankEnd(lines) == [] <==> AllBlank(lines)
    ensures DropBlankEnd(lines) <= lines
  {
    if lines != [] && Blank(lines[|lines| - 1]) {
      DropBlankEndMeaning(lines[..|lines| - 1]);
    }
  }

  lemma TrimMeaning(lines: seq<string>)
    ensures Trim(lines) == [] || Entries(Trim(lines))
    ensures Trim(lines) == [] <==> AllBlank(lines)
  {
    DropBlankMeaning(lines);
    DropBlankEndMeaning(DropBlank(lines));
  }

  lemma {:induction false} DropBlankIs(lines: seq<string>) returns (front: seq<string>)
    ensures AllBlank(front) && lines == front + DropBlank(lines)
  {
    front := [];
    SumOfEmpty(lines);
    if lines != [] && Blank(lines[0]) {
      var more := DropBlankIs(lines[1..]);
      front := [lines[0]] + more;
      SplitFirst(lines);
      SumAssoc([lines[0]], more, DropBlank(lines[1..]));
    }
  }

  lemma {:induction false} DropBlankEndIs(lines: seq<string>) returns (back: seq<string>)
    ensures AllBlank(back) && lines == DropBlankEnd(lines) + back
  {
    back := [];
    SumOfEmpty(lines);
    if lines != [] && Blank(lines[|lines| - 1]) {
      var init, last := lines[..|lines| - 1], lines[|lines| - 1];
      var more := DropBlankEndIs(init);
      back := more + [last];
      SplitLast(lines);
      SumAssoc(DropBlankEnd(init), more, [last]);
    }
  }

  // Trimming takes blank lines off the ends, all of them and nothing else.
  lemma TrimIs(lines: seq<string>) returns (front: seq<string>, back: seq<string>)
    ensures AllBlank(front) && AllBlank(back) && lines == front + Trim(lines) + back
    ensures Trim(lines) == [] || Entries(Trim(lines))
  {
    TrimMeaning(lines);
    front := DropBlankIs(lines);
    back := DropBlankEndIs(DropBlank(lines));
    SumAssoc(front, Trim(lines), back);
  }

  // ---------- The whole parse ----------

  // The sections without entries, in the order they were opened.
  function EmptySections(order: seq<string>, bodies: map<string, seq<string>>): seq<Problem> {
    if order == [] then []
    else
      EmptySections(order[..|order| - 1], bodies)
      + (if order[|order| - 1] in bodies && Trim(bodies[order[|order| - 1]]) == []
         then [NoEntries(order[|order| - 1])] else [])
  }

  function AllProblems(lines: seq<string>, nameOk: bool): seq<Problem> {
    var p := ParseLines(lines);
    var found := (if nameOk then [] else [BadName]) + p.problems
               + (if p.fenced then [FenceNotClosed] else []) + EmptySections(p.order, p.bodies);
    if p.order == [] && found == [] then [NoHeading] else found
  }

  function Trimmed(bodies: map<string, seq<string>>): map<string, seq<string>> {
    map s | s in bodies :: Trim(bodies[s])
  }

  datatype Parsed = Accepted(sections: map<string, seq<string>>) | Refused(problems: seq<Problem>)

  method ParseFragment(nameOk: bool, lines: seq<string>) returns (r: Parsed)
    ensures r == if AllProblems(lines, nameOk) == [] then Accepted(Trimmed(ParseLines(lines).bodies))
                 else Refused(AllProblems(lines, nameOk))
  {
    var errors: seq<Problem> := if nameOk then [] else [BadName];
    var p := EMPTY;
    for i := 0 to |lines|
      invariant p == ParseLines(lines[..i])
    {
      TakeMore(lines, i);
      SumSlices(lines[..i], [lines[i]]);
      p := Step(p, lines[i], i + 1);
    }
    TakeAll(lines);
    errors := errors + p.problems;
    if p.fenced {
      errors := errors + [FenceNotClosed];
    }
    ghost var before := errors;
    SumOfEmpty(errors);
    for i := 0 to |p.order|
      invariant errors == before + EmptySections(p.order[..i], p.bodies)
    {
      TakeMore(p.order, i);
      SumSlices(p.order[..i], [p.order[i]]);
      var section := p.order[i];
      if section in p.bodies && Trim(p.bodies[section]) == [] {
        errors := errors + [NoEntries(section)];
      }
    }
    TakeAll(p.order);
    if p.order == [] && errors == [] {
      errors := [NoHeading];
    }
    r := if errors == [] then Accepted(Trimmed(p.bodies)) else Refused(errors);
  }

  // ---------- What an accepted fragment holds ----------

  lemma {:induction false} ParseIsWellformed(lines: seq<string>)
    ensures Wellformed(ParseLines(lines))
  {
    if lines != [] {
      ParseIsWellformed(lines[..|lines| - 1]);
    }
  }

  // A fragment put together again from its sections.
  function Unparse(order: seq<string>, bodies: map<string, seq<string>>): seq<string> {
    if order == [] then []
    else
      var last := order[|order| - 1];
      Unparse(order[..|order| - 1], bodies) + [HeadingOf(last)] + (if last in bodies then bodies[last] else [])
  }

  // A line as the parser reads it: no trailing spaces, headings in one spelling.
  function ReadLine(p: Parse, raw: string): string {
    var line := RStrip(raw);
    if !p.fenced && !IsFence(line) && HeadingTitle(line) != "" then HeadingOf(HeadingTitle(line)) else line
  }

  function ReadLines(lines: seq<string>): seq<string> {
    if lines == [] then []
    else
      var init := lines[..|lines| - 1];
      ReadLines(init) + [ReadLine(ParseLines(init), lines[|lines| - 1])]
  }

  lemma {:induction false} UnparseOther(order: seq<string>, bodies: map<string, seq<string>>,
                                        s: string, body: seq<string>)
    requires s !in order
    ensures Unparse(order, bodies[s := body]) == Unparse(order, bodies)
  {
    if order != [] {
      UnparseOther(order[..|order| - 1], bodies, s, body);
    }
  }

  lemma UnparseOpen(order: seq<string>, bodies: map<string, seq<string>>, s: string)
    requires s !in order
    ensures Unparse(order + [s], bodies[s := []]) == Unparse(order, bodies) + [HeadingOf(s)]
  {
    SumSlices(order, [s]);
    UnparseOther(order, bodies, s, []);
    SumOfEmpty(Unparse(order, bodies) + [HeadingOf(s)]);
  }

  lemma UnparseAdd(order: seq<string>, bodies: map<string, seq<string>>, line: string)
    requires order != [] && order[|order| - 1] in bodies && order[|order| - 1] !in order[..|order| - 1]
    ensures var s := order[|order| - 1];
            Unparse(order, bodies[s := bodies[s] + [line]]) == Unparse(order, bodies) + [line]
  {
    var s := order[|order| - 1];
    UnparseOther(order[..|order| - 1], bodies, s, bodies[s] + [line]);
    SumAssoc(Unparse(order[..|order| - 1], bodies) + [HeadingOf(s)], bodies[s], [line]);
  }

  // While nothing is wrong, the section that is open is the last one.
  ghost predicate LastIsOpen(p: Parse) {
    if p.order == [] then p.current == "" else p.current == p.order[|p.order| - 1]
  }

  ghost predicate Faultless(p: Parse) { Wellformed(p) && LastIsOpen(p) && p.problems == [] }

  // One faultless step adds its line at the end, or skips a blank one at the start.
  ghost predicate Grows(p: Parse, q: Parse, line: string) {
    && Wellformed(q) && LastIsOpen(q)
    && (Unparse(q.order, q.bodies) == Unparse(p.order, p.bodies) + [line]
        || (p.order == q.order == [] && Blank(line)))
  }

  lemma LastIsNew(order: seq<string>)
    requires order != [] && forall i, j | 0 <= i < j < |order| :: order[i] != order[j]
    ensures order[|order| - 1] !in order[..|order| - 1]
  {
  }

  lemma AddGrows(p: Parse, line: string, number: nat)
    requires Faultless(p) && AddLine(p, line, number).problems == []
    ensures Grows(p, AddLine(p, line, number), line)
  {
    if p.order != [] {
      LastIsNew(p.order);
      assert p.current in p.order;
      UnparseAdd(p.order, p.bodies, line);
      AddKeepsForm(p, line);
    } else {
      NoSectionYet(p, line, number);
    }
  }

  lemma NoSectionYet(p: Parse, line: string, number: nat)
    requires Faultless(p) && AddLine(p, line, number).problems == [] && p.order == []
    ensures AddLine(p, line, number) == p && Blank(line)
  {
  }

  lemma AddKeepsForm(p: Parse, line: string)
    requires Wellformed(p) && LastIsOpen(p) && p.current in p.bodies
    ensures var q := p.(bodies := p.bodies[p.current := p.bodies[p.current] + [line]]); Wellformed(q) && LastIsOpen(q)
  {
  }

  lemma OpenKeepsForm(p: Parse, section: string)
    requires Wellformed(p) && section in SECTIONS && section !in p.bodies && section != ""
    ensures Wellformed(Opened(p, section)) && LastIsOpen(Opened(p, section))
  {
    var q := Opened(p, section);
    forall s
      ensures s in q.order <==> s in p.order || s == section
    {
      InSum(p.order, section, s);
    }
    forall i, j | 0 <= i < j < |q.order|
      ensures q.order[i] != q.order[j]
    {
      assert q.order[i] == p.order[i] && p.order[i] in p.order;
    }
  }

  lemma InSum<T>(s: seq<T>, last: T, x: T)
    ensures x in s + [last] <==> x in s || x == last
  {
  }

  lemma OpenGrows(p: Parse, section: string, number: nat)
    requires Faultless(p) && section != "" && OpenSection(p, section, number).problems == []
    ensures Grows(p, OpenSection(p, section, number), HeadingOf(section))
  {
    UnparseOpen(p.order, p.bodies, section);
    OpenKeepsForm(p, section);
  }

  lemma StepGrows(p: Parse, raw: string, number: nat)
    requires Faultless(p) && Step(p, raw, number).problems == []
    ensures Grows(p, Step(p, raw, number), ReadLine(p, raw))
  {
    var line := RStrip(raw);
    if IsFence(line) {
      AddGrows(p.(fenced := !p.fenced), line, number);
    } else if !p.fenced && HeadingTitle(line) != "" {
      OpenGrows(p, HeadingTitle(line), number);
    } else {
      AddGrows(p, line, number);
    }
  }

  lemma StepKeepsProblems(p: Parse, raw: string, number: nat)
    ensures Step(p, raw, number).problems == [] ==> p.problems == []
  {
  }

  // The parser loses nothing of a fragment it has no fault to find with: the text is
  // some blank lines and then every heading with its body, in order.
  lemma {:induction false} ParseIsLossless(lines: seq<string>) returns (blanks: seq<string>)
    requires ParseLines(lines).problems == []
    ensures AllBlank(blanks) && Faultless(ParseLines(lines))
    ensures ReadLines(lines) == blanks + Unparse(ParseLines(lines).order, ParseLines(lines).bodies)
  {
    if lines == [] {
      blanks := [];
    } else {
      var init, raw := lines[..|lines| - 1], lines[|lines| - 1];
      var p := ParseLines(init);
      StepKeepsProblems(p, raw, |lines|);
      blanks := ParseIsLossless(init);
      StepGrows(p, raw, |lines|);
      var text, now := Unparse(p.order, p.bodies), ReadLine(p, raw);
      SumAssoc(blanks, text, [now]);
      SumOfEmpty(blanks);
      SumOfEmpty(blanks + [now]);
      var q := ParseLines(lines);
      if Unparse(q.order, q.bodies) != text + [now] {
        blanks := blanks + [now];
      }
    }
  }

  lemma {:induction false} NoEmptySections(order: seq<string>, bodies: map<string, seq<string>>)
    requires EmptySections(order, bodies) == []
    ensures forall s | s in order && s in bodies :: Trim(bodies[s]) != []
  {
    if order != [] {
      NoEmptySections(order[..|order| - 1], bodies);
      SplitLast(order);
    }
  }

  // What the fold may rely on.
  lemma AcceptedHasEntries(lines: seq<string>, nameOk: bool)
    requires AllProblems(lines, nameOk) == []
    ensures var sections := Trimmed(ParseLines(lines).bodies);
            sections != map[] && forall s | s in sections :: s in SECTIONS && Entries(sections[s])
  {
    var p := ParseLines(lines);
    ParseIsWellformed(lines);
    NoEmptySections(p.order, p.bodies);
    forall s | s in p.bodies
      ensures Entries(Trim(p.bodies[s]))
    {
      TrimMeaning(p.bodies[s]);
    }
    assert p.order != [];
    assert p.order[0] in p.order;
    assert p.order[0] in Trimmed(p.bodies);
  }
}
