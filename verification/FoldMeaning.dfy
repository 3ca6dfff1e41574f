// What the fold means: read back, every section holds its fragments' entries and
// then what it held before; nothing else of the changelog changes.
module FoldMeaning {
  import opened Sequences
  import opened Text
  import opened Fragments
  import opened ChangelogFold

  // ---------- Reading a section back ----------

  // The lines up to the next heading.
  function Span(lines: seq<string>): seq<string> {
    if lines == [] || HeadingLike(lines[0]) then [] else [lines[0]] + Span(lines[1..])
  }

  // What stands under the first heading of a section.
  function Under(body: seq<string>, section: string): seq<string> {
    if body == [] then []
    else if body[0] == HeadingOf(section) then Span(body[1..])
    else Under(body[1..], section)
  }

  // The entries of a section of Unreleased.
  function Section(lines: seq<string>, section: string): seq<string>
    requires UNRELEASED in lines
  {
    Trim(Under(Body(lines), section))
  }

  // Entries above entries, a blank line apart.
  function Merge(bodies: seq<seq<string>>, held: seq<string>): seq<string> {
    if bodies == [] then held
    else if held == [] then Block(bodies)[..|Block(bodies)| - 1]
    else Block(bodies) + held
  }

  predicate NoHeadings(lines: seq<string>) { forall i | 0 <= i < |lines| :: !HeadingLike(lines[i]) }

  ghost predicate PlainBodies(bodies: seq<seq<string>>) {
    forall i | 0 <= i < |bodies| :: Entries(bodies[i]) && NoHeadings(bodies[i])
  }

  // ---------- Spans ----------

  lemma HeadingIsNotBlank(line: string)
    ensures HeadingLike(line) ==> !Blank(line)
  {
    if HeadingLike(line) {
      assert line[0] == '#';
    }
  }

  lemma BlanksAreNoHeadings(lines: seq<string>)
    requires AllBlank(lines)
    ensures NoHeadings(lines)
  {
    forall i | 0 <= i < |lines|
      ensures !HeadingLike(lines[i])
    {
      HeadingIsNotBlank(lines[i]);
    }
  }

  lemma {:induction false} SpanOfPlain(a: seq<string>, b: seq<string>)
    requires NoHeadings(a)
    ensures Span(a + b) == a + Span(b)
  {
    if a == [] {
      SumOfEmpty(b);
      SumOfEmpty(Span(b));
    } else {
      TailOfSum(a, b);
      SpanOfPlain(a[1..], b);
      SplitFirst(a);
      SumAssoc([a[0]], a[1..], Span(b));
    }
  }

  // A span ends at a heading, whatever follows it.
  lemma {:induction false} SpanStops(a: seq<string>, heading: string, b: seq<string>, c: seq<string>)
    requires HeadingLike(heading)
    ensures Span(a + ([heading] + b)) == Span(a + ([heading] + c))
  {
    if a == [] {
      SumOfEmpty([heading] + b);
      SumOfEmpty([heading] + c);
    } else {
      TailOfSum(a, [heading] + b);
      TailOfSum(a, [heading] + c);
      SpanStops(a[1..], heading, b, c);
    }
  }

  lemma {:induction false} SpanHasNoHeadings(lines: seq<string>)
    ensures NoHeadings(Span(lines)) && Span(lines) <= lines
  {
    if lines != [] && !HeadingLike(lines[0]) {
      SpanHasNoHeadings(lines[1..]);
    }
  }

  lemma {:induction false} UnderHasNoHeadings(body: seq<string>, section: string)
    ensures NoHeadings(Under(body, section))
  {
    if body != [] {
      if body[0] == HeadingOf(section) {
        SpanHasNoHeadings(body[1..]);
      } else {
        UnderHasNoHeadings(body[1..], section);
      }
    }
  }

  // ---------- Trimming ----------

  lemma {:induction false} DropBlankSum(a: seq<string>, b: seq<string>)
    ensures AllBlank(a) ==> DropBlank(a + b) == DropBlank(b)
    ensures !AllBlank(a) ==> DropBlank(a + b) == DropBlank(a) + b
  {
    if a == [] {
      SumOfEmpty(b);
    } else {
      TailOfSum(a, b);
      DropBlankSum(a[1..], b);
      if Blank(a[0]) {
        assert AllBlank(a) <==> AllBlank(a[1..]) by {
          SplitFirst(a);
          if AllBlank(a[1..]) {
            assert forall i | 1 <= i < |a| :: a[i] == a[1..][i - 1];
          }
        }
      }
    }
  }

  lemma {:induction false} DropBlankEndSum(a: seq<string>, b: seq<string>)
    requires AllBlank(b)
    ensures DropBlankEnd(a + b) == DropBlankEnd(a)
    decreases |b|
  {
    if b == [] {
      SumOfEmpty(a);
    } else {
      var init, last := b[..|b| - 1], b[|b| - 1];
      SplitLast(b);
      SumAssoc(a, init, [last]);
      SumSlices(a + init, [last]);
      DropBlankEndSum(a, init);
    }
  }

  // Blank lines at the ends do not count.
  lemma TrimAround(front: seq<string>, a: seq<string>, back: seq<string>)
    requires AllBlank(front) && AllBlank(back)
    ensures Trim(front + a + back) == Trim(a)
  {
    SumAssoc(front, a, back);
    DropBlankSum(front, a + back);
    DropBlankSum(a, back);
    if AllBlank(a) {
      DropBlankMeaning(back);
      DropBlankMeaning(a);
    } else {
      DropBlankEndSum(DropBlank(a), back);
    }
  }

  lemma TrimOfEntries(a: seq<string>)
    requires a == [] || Entries(a)
    ensures Trim(a) == a
  {
  }

  lemma TrimAfterBlock(block: seq<string>, a: seq<string>)
    requires block != [] && !Blank(block[0])
    requires a == [] || !Blank(a[0])
    ensures Trim(block + a) == if Trim(a) == [] then DropBlankEnd(block) else block + Trim(a)
  {
    assert DropBlank(block + a) == block + a;
    TrimMeaning(a);
    if a == [] {
      SumOfEmpty(block);
    } else {
      DropEndAfter(block, a);
    }
  }

  lemma {:induction false} DropEndAfter(a: seq<string>, b: seq<string>)
    requires !AllBlank(b)
    ensures DropBlankEnd(a + b) == a + DropBlankEnd(b)
    decreases |b|
  {
    var init, last := b[..|b| - 1], b[|b| - 1];
    SplitLast(b);
    SumAssoc(a, init, [last]);
    SumSlices(a + init, [last]);
    AllBlankSnoc(init, last);
    if Blank(last) {
      DropEndAfter(a, init);
    }
  }

  lemma AllBlankSnoc(init: seq<string>, last: string)
    ensures AllBlank(init + [last]) <==> AllBlank(init) && Blank(last)
  {
    var all := init + [last];
    assert all[|init|] == last && forall i | 0 <= i < |init| :: all[i] == init[i];
  }

  // ---------- Blocks ----------

  lemma {:induction false} BlockMeaning(bodies: seq<seq<string>>)
    requires PlainBodies(bodies)
    ensures NoHeadings(Block(bodies))
    ensures bodies != [] ==> |Block(bodies)| > 1 && !Blank(Block(bodies)[0])
    ensures bodies != [] ==> Block(bodies)[|Block(bodies)| - 1] == "" && !Blank(Block(bodies)[|Block(bodies)| - 2])
    decreases |bodies|
  {
    if bodies != [] {
      var init, last := bodies[..|bodies| - 1], bodies[|bodies| - 1];
      BlockMeaning(init);
      assert bodies[|bodies| - 1] in bodies;
      BlockMore(Block(init), last);
    }
  }

  lemma BlockMore(block: seq<string>, entries: seq<string>)
    requires NoHeadings(block) && (block != [] ==> !Blank(block[0])) && Entries(entries) && NoHeadings(entries)
    ensures var more := block + entries + [""];
            NoHeadings(more) && |more| > 1 && !Blank(more[0]) &&
            more[|more| - 1] == "" && !Blank(more[|more| - 2])
  {
    var more := block + entries + [""];
    assert more[|more| - 2] == entries[|entries| - 1];
    forall i | 0 <= i < |more|
      ensures !HeadingLike(more[i])
    {
      if i < |block| {
        assert more[i] == block[i];
      } else if i < |more| - 1 {
        assert more[i] == entries[i - |block|];
      }
    }
  }

  lemma MergeIsTrim(bodies: seq<seq<string>>, blanks: seq<string>, rest: seq<string>)
    requires PlainBodies(bodies) && bodies != [] && AllBlank(blanks)
    requires rest == [] || !Blank(rest[0])
    ensures Trim(blanks + Block(bodies) + rest) == Merge(bodies, Trim(blanks + rest))
  {
    var block := Block(bodies);
    BlockMeaning(bodies);
    SumAssoc(blanks, block, rest);
    TrimAround(blanks, block + rest, []);
    SumOfEmpty(blanks + (block + rest));
    TrimAround(blanks, rest, []);
    SumOfEmpty(blanks + rest);
    TrimAfterBlock(block, rest);
    SplitLast(block);
    DropBlankEndSum(block[..|block| - 1], [""]);
  }

  // ---------- One section folded ----------

  lemma SectionNames(a: string, b: string)
    requires a in SECTIONS && b in SECTIONS && a != b
    ensures HeadingOf(a) != HeadingOf(b)
  {
    assert HeadingOf(a)[4..] == a && HeadingOf(b)[4..] == b;
  }

  lemma HeadingOfIsHeading(s: string)
    ensures HeadingLike(HeadingOf(s)) && IsSection(HeadingOf(s)) && !IsTop(HeadingOf(s))
  {
    assert HeadingOf(s)[2] == '#';
  }

  // Lines without headings hide no section.
  lemma {:induction false} UnderSkips(a: seq<string>, b: seq<string>, s: string)
    requires forall i | 0 <= i < |a| :: a[i] != HeadingOf(s)
    ensures Under(a + b, s) == Under(b, s)
  {
    if a == [] {
      SumOfEmpty(b);
    } else {
      TailOfSum(a, b);
      UnderSkips(a[1..], b, s);
    }
  }

  lemma UnderHeading(a: seq<string>, b: seq<string>, s: string)
    requires forall i | 0 <= i < |a| :: a[i] != HeadingOf(s)
    ensures Under(a + ([HeadingOf(s)] + b), s) == Span(b)
  {
    UnderSkips(a, [HeadingOf(s)] + b, s);
    TailOfSum([HeadingOf(s)], b);
    assert [HeadingOf(s)][1..] == [];
    SumOfEmpty(b);
  }

  // What a section ahead of another one's heading holds does not depend on what
  // comes after that heading.
  lemma {:induction false} UnderAhead(a: seq<string>, heading: string, b: seq<string>, c: seq<string>, s: string)
    requires HeadingLike(heading) && heading != HeadingOf(s)
    requires Under(b, s) == Under(c, s)
    ensures Under(a + ([heading] + b), s) == Under(a + ([heading] + c), s)
  {
    if a == [] {
      SumOfEmpty([heading] + b);
      SumOfEmpty([heading] + c);
      TailOfSum([heading], b);
      TailOfSum([heading], c);
      assert [heading][1..] == [];
      SumOfEmpty(b);
      SumOfEmpty(c);
    } else {
      TailOfSum(a, [heading] + b);
      TailOfSum(a, [heading] + c);
      if a[0] == HeadingOf(s) {
        SpanStops(a[1..], heading, b, c);
      } else {
        UnderAhead(a[1..], heading, b, c, s);
      }
    }
  }

  lemma NoSuchHeading(lines: seq<string>, s: string)
    requires NoHeadings(lines)
    ensures forall i | 0 <= i < |lines| :: lines[i] != HeadingOf(s)
  {
    HeadingOfIsHeading(s);
  }

  // A section that exists: its entries go between its heading and what it held.
  lemma FoundShape(body: seq<string>, section: string, block: seq<string>)
    returns (front: seq<string>, blanks: seq<string>, rest: seq<string>)
    requires FindLine(body, HeadingOf(section)) < |body|
    ensures body == front + ([HeadingOf(section)] + (blanks + rest))
    ensures FoldBody(body, section, block) == front + ([HeadingOf(section)] + ((blanks + block) + rest))
    ensures AllBlank(blanks) && (rest == [] || !Blank(rest[0]))
    ensures forall i | 0 <= i < |front| :: front[i] != HeadingOf(section)
  {
    var found, top := FoundPlace(body, section);
    front, blanks, rest := body[..found], body[found + 1..top], body[top..];
    PutShape(body, found, top, block);
    FoundFold(body, section, block, top);
  }

  lemma FoundPlace(body: seq<string>, section: string) returns (found: nat, top: nat)
    requires FindLine(body, HeadingOf(section)) < |body|
    ensures found < top <= |body| && body[found] == HeadingOf(section)
    ensures forall i | 0 <= i < found :: body[i] != HeadingOf(section)
    ensures (forall k | found + 1 <= k < top :: Blank(body[k])) && (top < |body| ==> !Blank(body[top]))
    ensures Place(body, section) == top && Lead(body, section) == []
  {
    found := FindLine(body, HeadingOf(section));
    top := SkipBlank(body, found + 1);
  }

  lemma FoundFold(body: seq<string>, section: string, block: seq<string>, top: nat)
    requires Place(body, section) == top && Lead(body, section) == []
    ensures FoldBody(body, section, block) == Put(body, top, [], block)
  {
  }

  lemma PutShape(body: seq<string>, found: nat, top: nat, block: seq<string>)
    requires found < top <= |body| && (top < |body| ==> !Blank(body[top]))
    requires forall k | found + 1 <= k < top :: Blank(body[k])
    ensures body == body[..found] + ([body[found]] + (body[found + 1..top] + body[top..]))
    ensures Put(body, top, [], block) ==
            body[..found] + ([body[found]] + ((body[found + 1..top] + block) + body[top..]))
    ensures AllBlank(body[found + 1..top]) && (top < |body| ==> !Blank(body[top..][0]))
  {
    CutInThree(body, found, top);
    SpliceInThree(body[..found], body[found], body[found + 1..top], block, body[top..]);
    BlankSlice(body, found + 1, top);
    PutBeforeText(body, top, block);
  }

  lemma BlankSlice(lines: seq<string>, i: nat, j: nat)
    requires i <= j <= |lines| && forall k | i <= k < j :: Blank(lines[k])
    ensures AllBlank(lines[i..j])
  {
  }

  lemma PutBeforeText(body: seq<string>, top: nat, block: seq<string>)
    requires top <= |body| && (top < |body| ==> !Blank(body[top]))
    ensures Put(body, top, [], block) == body[..top] + block + body[top..]
    ensures top < |body| ==> !Blank(body[top..][0])
  {
    StaysWhole(block, body, top);
    SumOfEmpty(body[..top]);
  }

  lemma StaysWhole(block: seq<string>, body: seq<string>, top: nat)
    requires top <= |body| && (top < |body| ==> !Blank(body[top]))
    ensures Fitted(block, body[top..]) == block
    ensures top < |body| ==> !Blank(body[top..][0])
  {
    if top < |body| {
      assert body[top..][0] == body[top];
    }
  }

  lemma FoldFound(body: seq<string>, section: string, bodies: seq<seq<string>>, s: string)
    requires section in SECTIONS && s in SECTIONS && PlainBodies(bodies) && bodies != []
    requires FindLine(body, HeadingOf(section)) < |body|
    ensures Trim(Under(FoldBody(body, section, Block(bodies)), s))
         == if s == section then Merge(bodies, Trim(Under(body, s))) else Trim(Under(body, s))
  {
    var block := Block(bodies);
    var front, blanks, rest := FoundShape(body, section, block);
    HeadingOfIsHeading(section);
    BlockMeaning(bodies);
    BlanksAreNoHeadings(blanks);
    SumAssoc(blanks, block, rest);
    if s == section {
      UnderHeading(front, blanks + rest, s);
      UnderHeading(front, blanks + block + rest, s);
      SpanOfPlain(blanks, rest);
      SpanOfPlain(blanks, block + rest);
      SpanOfPlain(block, rest);
      SumAssoc(blanks, block, Span(rest));
      SpanHasNoHeadings(rest);
      MergeIsTrim(bodies, blanks, Span(rest));
    } else {
      SectionNames(s, section);
      NoSuchHeading(blanks, s);
      NoSuchHeading(block, s);
      UnderSkips(blanks, rest, s);
      UnderSkips(blanks, block + rest, s);
      UnderSkips(block, rest, s);
      UnderAhead(front, HeadingOf(section), blanks + block + rest, blanks + rest, s);
    }
  }

  lemma CutInThree(body: seq<string>, i: nat, j: nat)
    requires i < j <= |body|
    ensures body == body[..i] + ([body[i]] + (body[i + 1..j] + body[j..]))
    ensures body[..j] == body[..i] + ([body[i]] + body[i + 1..j])
  {
  }

  lemma SpliceInThree(front: seq<string>, heading: string, blanks: seq<string>, block: seq<string>, rest: seq<string>)
    ensures front + ([heading] + blanks) + block + rest == front + ([heading] + (blanks + block + rest))
  {
  }

  // ---------- A section created ----------

  // What stands behind a new section: blank lines and then a heading, if anything.
  lemma NewAtMeaning(body: seq<string>, section: string) returns (blanks: seq<string>, rest: seq<string>)
    ensures body[NewAt(body, section)..] == blanks + rest && AllBlank(blanks)
    ensures rest == [] || (rest[0] in LaterHeadings(section) && HeadingLike(rest[0]))
  {
    var later := FindAny(body, LaterHeadings(section));
    var at := NewAt(body, section);
    blanks, rest := body[at..later], body[later..];
    assert body[at..] == blanks + rest;
    if rest != [] {
      var i :| 0 <= i < |SECTIONS| && rest[0] == HeadingOf(SECTIONS[i]);
      HeadingOfIsHeading(SECTIONS[i]);
    }
  }

  // A span that runs into blank lines before a heading or the end.
  lemma {:induction false} SpanIntoBlanks(a: seq<string>, blanks: seq<string>, rest: seq<string>)
    requires AllBlank(blanks) && (rest == [] || HeadingLike(rest[0]))
    ensures Trim(Span(a + (blanks + rest))) == Trim(Span(a))
  {
    BlanksAreNoHeadings(blanks);
    if forall i | 0 <= i < |a| :: !HeadingLike(a[i]) {
      SpanOfPlain(a, blanks + rest);
      SpanOfPlain(blanks, rest);
      SpanOfPlain(a, []);
      SumOfEmpty(a);
      SumOfEmpty(blanks);
      TrimAround([], a, blanks);
    } else {
      SpanEndsInside(a, blanks + rest);
    }
  }

  lemma {:induction false} SpanEndsInside(a: seq<string>, b: seq<string>)
    requires !NoHeadings(a)
    ensures Span(a + b) == Span(a)
  {
    TailOfSum(a, b);
    if !HeadingLike(a[0]) {
      SplitFirst(a);
      SpanEndsInside(a[1..], b);
    }
  }

  // Sections ahead of the new one keep what they held, up to blank lines; sections
  // behind it are found where they were.
  lemma {:induction false} UnderAround(a: seq<string>, lead: seq<string>, blanks: seq<string>,
                                       rest: seq<string>, s: string)
    requires AllBlank(blanks) && (rest == [] || HeadingLike(rest[0]))
    requires |lead| >= 2 && lead[0] == "" && HeadingLike(lead[1])
    requires forall i | 0 <= i < |lead| :: lead[i] != HeadingOf(s)
    ensures Trim(Under(a + (lead + (blanks + rest)), s)) == Trim(Under(a + (blanks + rest), s))
  {
    if a == [] {
      SumOfEmpty(lead + (blanks + rest));
      SumOfEmpty(blanks + rest);
      UnderSkips(lead, blanks + rest, s);
    } else {
      TailOfSum(a, lead + (blanks + rest));
      TailOfSum(a, blanks + rest);
      if a[0] == HeadingOf(s) {
        SpanIntoBlanks(a[1..], blanks, rest);
        assert lead + (blanks + rest) == [""] + (lead[1..] + (blanks + rest));
        assert AllBlank([""]);
        SpanIntoBlanks(a[1..], [""], lead[1..] + (blanks + rest));
      } else {
        UnderAround(a[1..], lead, blanks, rest, s);
      }
    }
  }

  lemma CreatedShape(body: seq<string>, section: string, block: seq<string>)
    requires FindLine(body, HeadingOf(section)) == |body|
    ensures FoldBody(body, section, block) ==
            body[..NewAt(body, section)] +
            ((["", HeadingOf(section), ""] + Fitted(block, body[NewAt(body, section)..])) +
            body[NewAt(body, section)..])
  {
    var at := NewAt(body, section);
    var lead, fitted := ["", HeadingOf(section), ""], Fitted(block, body[at..]);
    SumAssoc(body[..at], lead, fitted);
    SumAssoc(body[..at], lead + fitted, body[at..]);
  }

  lemma LeadHides(section: string, block: seq<string>, s: string)
    requires section in SECTIONS && s in SECTIONS && s != section && NoHeadings(block)
    ensures forall i | 0 <= i < |["", HeadingOf(section), ""] + block| ::
              (["", HeadingOf(section), ""] + block)[i] != HeadingOf(s)
  {
    SectionNames(s, section);
    NoSuchHeading(block, s);
    var lead := ["", HeadingOf(section), ""] + block;
    forall i | 0 <= i < |lead|
      ensures lead[i] != HeadingOf(s)
    {
      HeadingOfIsHeading(s);
      assert i >= 3 ==> lead[i] == block[i - 3];
    }
  }

  lemma FoldCreated(body: seq<string>, section: string, bodies: seq<seq<string>>, s: string)
    requires section in SECTIONS && s in SECTIONS && PlainBodies(bodies) && bodies != []
    requires FindLine(body, HeadingOf(section)) == |body|
    ensures Trim(Under(FoldBody(body, section, Block(bodies)), s))
         == if s == section then Merge(bodies, Trim(Under(body, s))) else Trim(Under(body, s))
  {
    var at := NewAt(body, section);
    var blanks, rest := NewAtMeaning(body, section);
    CutAt(body, at);
    CreatedShape(body, section, Block(bodies));
    if s == section {
      CreatedIsMerge(body, body[..at], section, bodies, Fitted(Block(bodies), body[at..]), blanks, rest);
    } else {
      CreatedElsewhere(body[..at], section, bodies, Fitted(Block(bodies), body[at..]), blanks, rest, s);
    }
  }

  lemma CreatedIsMerge(body: seq<string>, a: seq<string>, section: string, bodies: seq<seq<string>>, block: seq<string>,
                       blanks: seq<string>, rest: seq<string>)
    requires PlainBodies(bodies) && bodies != [] && AllBlank(blanks) && (rest == [] || HeadingLike(rest[0]))
    requires block == Block(bodies) || block == Block(bodies)[..|Block(bodies)| - 1]
    requires FindLine(body, HeadingOf(section)) == |body| && a <= body
    ensures Trim(Under(a + ((["", HeadingOf(section), ""] + block) + (blanks + rest)), section)) ==
            Merge(bodies, Trim(Under(body, section)))
  {
    CreatedHolds(a, section, bodies, block, blanks, rest);
    UnderSkips(body, [], section);
    SumOfEmpty(body);
  }

  lemma CreatedElsewhere(a: seq<string>, section: string, bodies: seq<seq<string>>, block: seq<string>,
                         blanks: seq<string>, rest: seq<string>, s: string)
    requires section in SECTIONS && s in SECTIONS && s != section && PlainBodies(bodies) && bodies != []
    requires block == Block(bodies) || block == Block(bodies)[..|Block(bodies)| - 1]
    requires AllBlank(blanks) && (rest == [] || HeadingLike(rest[0]))
    ensures Trim(Under(a + ((["", HeadingOf(section), ""] + block) + (blanks + rest)), s)) ==
            Trim(Under(a + (blanks + rest), s))
  {
    BlockMeaning(bodies);
    HeadingOfIsHeading(section);
    LeadHides(section, block, s);
    UnderAround(a, ["", HeadingOf(section), ""] + block, blanks, rest, s);
  }

  lemma Regroup<T>(a: seq<T>, x: T, h: T, y: T, block: seq<T>, tail: seq<T>)
    ensures a + (([x, h, y] + block) + tail) == (a + [x]) + ([h] + ([y] + (block + tail)))
  {
  }

  lemma CreatedHolds(a: seq<string>, section: string, bodies: seq<seq<string>>, block: seq<string>,
                     blanks: seq<string>, rest: seq<string>)
    requires PlainBodies(bodies) && bodies != [] && AllBlank(blanks) && (rest == [] || HeadingLike(rest[0]))
    requires block == Block(bodies) || block == Block(bodies)[..|Block(bodies)| - 1]
    requires forall i | 0 <= i < |a| :: a[i] != HeadingOf(section)
    ensures Trim(Under(a + ((["", HeadingOf(section), ""] + block) + (blanks + rest)), section)) == Merge(bodies, [])
  {
    var heading := HeadingOf(section);
    BlockMeaning(bodies);
    HeadingOfIsHeading(section);
    Regroup(a, "", heading, "", block, blanks + rest);
    UnderHeading(a + [""], [""] + (block + (blanks + rest)), section);
    BlanksAreNoHeadings(blanks);
    SpanOfPlain([""], block + (blanks + rest));
    SpanOfPlain(block, blanks + rest);
    SpanOfPlain(blanks, rest);
    SumOfEmpty(blanks);
    SumAssoc([""], block, blanks);
    TrimAround([""], block, blanks);
    TrimmedBlock(bodies);
  }

  // With or without its last blank line, a block is its entries.
  lemma TrimmedBlock(bodies: seq<seq<string>>)
    requires PlainBodies(bodies) && bodies != []
    ensures Trim(Block(bodies)) == Merge(bodies, [])
    ensures Trim(Block(bodies)[..|Block(bodies)| - 1]) == Merge(bodies, [])
  {
    BlockMeaning(bodies);
    SplitLast(Block(bodies));
    var core := Block(bodies)[..|Block(bodies)| - 1];
    TrimOfEntries(core);
    TrimAround([], core, [""]);
    SumOfEmpty(core);
  }

  // Folding one section changes what that section holds, and only that.
  lemma FoldBodyMeaning(body: seq<string>, section: string, bodies: seq<seq<string>>, s: string)
    requires section in SECTIONS && s in SECTIONS && PlainBodies(bodies) && bodies != []
    ensures Trim(Under(FoldBody(body, section, Block(bodies)), s))
         == if s == section then Merge(bodies, Trim(Under(body, s))) else Trim(Under(body, s))
  {
    if FindLine(body, HeadingOf(section)) < |body| {
      FoldFound(body, section, bodies, s);
    } else {
      FoldCreated(body, section, bodies, s);
    }
  }

  // ---------- The whole changelog ----------

  lemma {:induction false} FindLineInFront(a: seq<string>, b: seq<string>, target: string)
    requires FindLine(a, target) < |a|
    ensures FindLine(a + b, target) == FindLine(a, target)
  {
    TailOfSum(a, b);
    if a[0] != target {
      FindLineInFront(a[1..], b, target);
    }
  }

  lemma {:induction false} FindTopBehind(a: seq<string>, b: seq<string>)
    requires forall i | 0 <= i < |a| :: !IsTop(a[i])
    ensures FindTop(a + b) == |a| + FindTop(b)
  {
    if a == [] {
      SumOfEmpty(b);
    } else {
      TailOfSum(a, b);
      FindTopBehind(a[1..], b);
    }
  }

  // A changelog whose Unreleased body is replaced by one without release headings.
  lemma NewBody(lines: seq<string>, body: seq<string>)
    requires UNRELEASED in lines && forall i | 0 <= i < |body| :: !IsTop(body[i])
    ensures var r := Before(lines) + (body + Released(lines));
            UNRELEASED in r && Before(r) == Before(lines) && Body(r) == body && Released(r) == Released(lines)
  {
    var before, released := Before(lines), Released(lines);
    var r := before + (body + released);
    assert before[Start(lines)] == UNRELEASED;
    FindIsLast(lines);
    FindLineInFront(before, body + released, UNRELEASED);
    assert r[Start(lines)] == UNRELEASED;
    SumSlices(before, body + released);
    FindTopBehind(body, released);
    SumSlices(body, released);
  }

  lemma FindIsLast(lines: seq<string>)
    requires UNRELEASED in lines
    ensures FindLine(Before(lines), UNRELEASED) == Start(lines)
  {
    var before := Before(lines);
    var n := FindLine(before, UNRELEASED);
    assert before[Start(lines)] == UNRELEASED;
  }

  ghost predicate NoTop(lines: seq<string>) { forall i | 0 <= i < |lines| :: !IsTop(lines[i]) }

  lemma BodyHasNoTops(lines: seq<string>, section: string, bodies: seq<seq<string>>)
    requires UNRELEASED in lines && PlainBodies(bodies) && bodies != []
    ensures NoTop(FoldBody(Body(lines), section, Block(bodies)))
  {
    BlockMeaning(bodies);
    HeadingOfIsHeading(section);
    assert NoTop(Body(lines));
    SplicedNoTop(Body(lines), Place(Body(lines), section), Lead(Body(lines), section), Block(bodies));
  }

  lemma SplicedNoTop(body: seq<string>, i: nat, lead: seq<string>, block: seq<string>)
    requires i <= |body| && NoTop(body) && NoTop(lead) && NoHeadings(block)
    ensures NoTop(Put(body, i, lead, block))
  {
    FittedNoTop(block, body[i..]);
    CutsNoTop(body, i);
    NoTops(body[..i], lead, []);
    SumOfEmpty(body[..i] + lead);
    NoTops(body[..i] + lead, Fitted(block, body[i..]), body[i..]);
  }

  lemma CutsNoTop(body: seq<string>, i: nat)
    requires i <= |body| && NoTop(body)
    ensures NoTop(body[..i]) && NoTop(body[i..])
  {
  }

  lemma FittedNoTop(block: seq<string>, rest: seq<string>)
    requires NoHeadings(block)
    ensures NoTop(Fitted(block, rest))
  {
    forall i | 0 <= i < |Fitted(block, rest)|
      ensures !IsTop(Fitted(block, rest)[i])
    {
      assert !HeadingLike(block[i]);
    }
  }

  lemma NoTops(a: seq<string>, b: seq<string>, c: seq<string>)
    requires NoTop(a) && NoTop(b) && NoTop(c)
    ensures NoTop(a + b + c)
  {
  }

  // Every fragment is an accepted one.
  ghost predicate AcceptedAll(frags: seq<Fragment>) {
    forall f | 0 <= f < |frags| :: forall s | s in frags[f] :: s in SECTIONS && Entries(frags[f][s])
  }

  // No entry, fenced or not, starts a line as a heading does.
  ghost predicate PlainAll(frags: seq<Fragment>) {
    forall f | 0 <= f < |frags| :: forall s | s in frags[f] :: NoHeadings(frags[f][s])
  }

  lemma {:induction false} BodiesArePlain(frags: seq<Fragment>, section: string)
    requires AcceptedAll(frags) && PlainAll(frags)
    ensures PlainBodies(BodiesFor(frags, section))
  {
    if frags != [] {
      BodiesArePlain(frags[..|frags| - 1], section);
    }
  }

  // Read back, every section is its fragments' entries above what it held.
  ghost predicate FoldIsMerge(lines: seq<string>, frags: seq<Fragment>)
    requires UNRELEASED in lines
  {
    forall s | s in SECTIONS ::
      Section(Folded(lines, frags, SECTIONS), s) == Merge(BodiesFor(frags, s), Section(lines, s))
  }

  lemma FoldSectionMeaning(lines: seq<string>, section: string, bodies: seq<seq<string>>, s: string)
    requires UNRELEASED in lines && section in SECTIONS && s in SECTIONS && PlainBodies(bodies)
    ensures var r := FoldSection(lines, section, bodies);
            && UNRELEASED in r && Before(r) == Before(lines) && Released(r) == Released(lines)
            && Section(r, s) == if s == section then Merge(bodies, Section(lines, s)) else Section(lines, s)
  {
    if bodies != [] {
      BodyHasNoTops(lines, section, bodies);
      NewBody(lines, FoldBody(Body(lines), section, Block(bodies)));
      FoldBodyMeaning(Body(lines), section, bodies, s);
    }
  }

  ghost predicate SomeSections(names: seq<string>) {
    && (forall i | 0 <= i < |names| :: names[i] in SECTIONS)
    && (forall i, j | 0 <= i < j < |names| :: names[i] != names[j])
  }

  lemma {:induction false} FoldedMeaning(lines: seq<string>, frags: seq<Fragment>, names: seq<string>, s: string)
    requires UNRELEASED in lines && AcceptedAll(frags) && PlainAll(frags) && SomeSections(names) && s in SECTIONS
    ensures var r := Folded(lines, frags, names);
            && Before(r) == Before(lines) && Released(r) == Released(lines)
            && Section(r, s) == if s in names then Merge(BodiesFor(frags, s), Section(lines, s)) else Section(lines, s)
  {
    if names != [] {
      var init, last := names[..|names| - 1], names[|names| - 1];
      SplitLast(names);
      FoldedMeaning(lines, frags, init, s);
      BodiesArePlain(frags, last);
      FoldSectionMeaning(Folded(lines, frags, init), last, BodiesFor(frags, last), s);
    }
  }

  lemma SectionsDiffer()
    ensures SomeSections(SECTIONS)
  {
  }

  lemma {:induction false} EntryIsMerged(bodies: seq<seq<string>>, held: seq<string>, b: nat, i: nat)
    requires b < |bodies| && i < |bodies[b]| && bodies[b][i] != ""
    ensures bodies[b][i] in Merge(bodies, held)
  {
    EntryIsInBlock(bodies, b, i);
  }

  lemma {:induction false} EntryIsInBlock(bodies: seq<seq<string>>, b: nat, i: nat)
    requires b < |bodies| && i < |bodies[b]|
    ensures bodies[b][i] in Block(bodies)[..|Block(bodies)| - 1]
    decreases |bodies|
  {
    var init, last := bodies[..|bodies| - 1], bodies[|bodies| - 1];
    SumSlices(Block(init) + last, [""]);
    assert Block(bodies)[..|Block(bodies)| - 1] == Block(init) + last;
    if b < |init| {
      EntryIsInBlock(init, b, i);
    } else {
      assert (Block(init) + last)[|Block(init)| + i] == bodies[b][i];
    }
  }

  lemma {:induction false} FragmentIsABody(frags: seq<Fragment>, f: nat, section: string) returns (b: nat)
    requires f < |frags| && section in frags[f] && frags[f][section] != []
    ensures b < |BodiesFor(frags, section)| && BodiesFor(frags, section)[b] == frags[f][section]
    decreases |frags|
  {
    var init := BodiesFor(frags[..|frags| - 1], section);
    if f == |frags| - 1 {
      b := |init|;
    } else {
      b := FragmentIsABody(frags[..|frags| - 1], f, section);
    }
  }

  // The fold is a merge of what is read before and after it, exactly when no entry
  // holds a line that the changelog would take for a heading.
  lemma FoldIsMergeIff(lines: seq<string>, frags: seq<Fragment>)
    requires UNRELEASED in lines && AcceptedAll(frags)
    ensures FoldIsMerge(lines, frags) <==> PlainAll(frags)
  {
    if PlainAll(frags) {
      forall s | s in SECTIONS
        ensures Section(Folded(lines, frags, SECTIONS), s) == Merge(BodiesFor(frags, s), Section(lines, s))
      {
        SectionsDiffer();
        FoldedMeaning(lines, frags, SECTIONS, s);
      }
    } else {
      HeadingBreaksMerge(lines, frags);
    }
  }

  lemma HeadingBreaksMerge(lines: seq<string>, frags: seq<Fragment>)
    requires UNRELEASED in lines && AcceptedAll(frags) && !PlainAll(frags)
    ensures !FoldIsMerge(lines, frags)
  {
    var f :| 0 <= f < |frags| && exists s | s in frags[f] :: !NoHeadings(frags[f][s]);
    var s :| s in frags[f] && !NoHeadings(frags[f][s]);
    var i :| 0 <= i < |frags[f][s]| && HeadingLike(frags[f][s][i]);
    var b := FragmentIsABody(frags, f, s);
    var read := Section(Folded(lines, frags, SECTIONS), s);
    EntryIsMerged(BodiesFor(frags, s), Section(lines, s), b, i);
    UnderHasNoHeadings(Body(Folded(lines, frags, SECTIONS)), s);
    TrimmedHasNoHeadings(Under(Body(Folded(lines, frags, SECTIONS)), s));
    assert frags[f][s][i] !in read;
  }

  lemma TrimmedHasNoHeadings(lines: seq<string>)
    requires NoHeadings(lines)
    ensures NoHeadings(Trim(lines))
  {
    DropBlankHasNoHeadings(lines);
    DropBlankEndMeaning(DropBlank(lines));
  }

  lemma {:induction false} DropBlankHasNoHeadings(lines: seq<string>)
    requires NoHeadings(lines)
    ensures NoHeadings(DropBlank(lines))
  {
    if lines != [] && Blank(lines[0]) {
      DropBlankHasNoHeadings(lines[1..]);
    }
  }

  // What the parser lets through is all the fold asks for.
  lemma {:induction false} SourcesAreAccepted(sources: seq<Source>)
    requires Refusals(sources) == []
    ensures AcceptedAll(FragmentsOf(sources))
  {
    if sources != [] {
      var last := sources[|sources| - 1];
      SourcesAreAccepted(sources[..|sources| - 1]);
      AcceptedHasEntries(last.lines, last.nameOk);
    }
  }

  // Of fragment files without problems, folding and reading is reading and merging,
  // exactly when no entry holds a line that the changelog would take for a heading.
  lemma AssembledIsMergeIff(lines: seq<string>, sources: seq<Source>)
    requires UNRELEASED in lines && Refusals(sources) == []
    ensures FoldIsMerge(lines, FragmentsOf(sources)) <==> PlainAll(FragmentsOf(sources))
  {
    SourcesAreAccepted(sources);
    FoldIsMergeIff(lines, FragmentsOf(sources));
  }

  function Fenced(line: string): seq<string> { ["### Added", "```", line, "```"] }

  // A heading inside a code block is no problem to the parser ...
  lemma FencedHeadingIsAccepted(line: string)
    requires HeadingLike(line) && RStrip(line) == line
    ensures AllProblems(Fenced(line), true) == []
    ensures Trimmed(ParseLines(Fenced(line)).bodies) == map["Added" := ["```", line, "```"]]
  {
    var block := ["```", line, "```"];
    var p := Added(block, false);
    FencedParse(line);
    FenceStays();
    TrimOfEntries(block);
    OneSection("Added", p.bodies);
    assert Trimmed(p.bodies) == map["Added" := block];
  }

  lemma OneSection(section: string, bodies: map<string, seq<string>>)
    requires section in bodies && Trim(bodies[section]) != []
    ensures EmptySections([section], bodies) == []
  {
    assert [section][..0] == [];
    assert EmptySections([section][..0], bodies) == [];
  }

  lemma ParseMore(lines: seq<string>, raw: string)
    ensures ParseLines(lines + [raw]) == Step(ParseLines(lines), raw, |lines| + 1)
  {
    SumSlices(lines, [raw]);
  }

  lemma FourLines(a: string, b: string, c: string, d: string)
    ensures ParseLines([a, b, c, d]) == Step(Step(Step(Step(EMPTY, a, 1), b, 2), c, 3), d, 4)
  {
    ParseMore([], a);
    ParseMore([a], b);
    ParseMore([a, b], c);
    ParseMore([a, b, c], d);
    assert [] + [a] == [a] && [a] + [b] == [a, b];
    assert [a, b] + [c] == [a, b, c] && [a, b, c] + [d] == [a, b, c, d];
  }

  lemma FencedParse(line: string)
    requires HeadingLike(line) && RStrip(line) == line
    ensures ParseLines(Fenced(line)) == Added(["```", line, "```"], false)
  {
    FenceStays();
    HeadingIsNoFence(line);
    AddedOpens();
    FourLines("### Added", "```", line, "```");
    AddedFence([], false, "```");
    AddedLine(["```"], line);
    AddedFence(["```", line], true, "```");
    ThreeLines("```", line, "```");
  }

  lemma ThreeLines(a: string, b: string, c: string)
    ensures [] + [a] == [a] && [a] + [b] == [a, b] && [a, b] + [c] == [a, b, c]
  {
  }

  // The parse of one section of entries.
  function Added(body: seq<string>, fenced: bool): Parse {
    Parse(["Added"], map["Added" := body], "Added", fenced, [])
  }

  lemma AddedFence(body: seq<string>, fenced: bool, line: string)
    requires IsFence(line) && RStrip(line) == line
    ensures forall n: nat :: Step(Added(body, fenced), line, n) == Added(body + [line], !fenced)
  {
    var m := map["Added" := body];
    assert m["Added" := body + [line]] == map["Added" := body + [line]];
  }

  lemma AddedLine(body: seq<string>, line: string)
    requires !IsFence(line) && RStrip(line) == line
    ensures forall n: nat :: Step(Added(body, true), line, n) == Added(body + [line], true)
  {
    var m := map["Added" := body];
    assert m["Added" := body + [line]] == map["Added" := body + [line]];
  }

  lemma HeadingIsNoFence(line: string)
    requires HeadingLike(line)
    ensures !IsFence(line)
  {
    assert line[0] == '#' && LStrip(line) == line;
  }

  lemma AddedOpens()
    ensures Step(EMPTY, "### Added", 1) == Added([], false)
  {
    var line := "### Added";
    assert line[|line| - 1] == 'd' && RStrip(line) == line;
    assert line[0] == '#' && LStrip(line) == line;
    assert line[3..] == " " + "Added";
    StripSpaced("Added");
    assert SECTIONS[0] == "Added";
  }

  lemma FenceStays()
    ensures RStrip("```") == "```" && IsFence("```") && !Blank("```")
  {
    assert "```"[2] == '`' && "```"[0] == '`';
    assert LStrip("```") == "```";
  }

  // ... and is one to the fold, which then is no merge.
  lemma FencedHeadingFails(lines: seq<string>, line: string)
    requires UNRELEASED in lines && HeadingLike(line) && RStrip(line) == line
    ensures Refusals([Source(true, Fenced(line))]) == []
    ensures !FoldIsMerge(lines, FragmentsOf([Source(true, Fenced(line))]))
  {
    var source := Source(true, Fenced(line));
    FencedHeadingIsAccepted(line);
    OneSource(source);
    assert FragmentsOf([source])[0]["Added"][1] == line;
    AssembledIsMergeIff(lines, [source]);
  }

  lemma OneSource(source: Source)
    requires AllProblems(source.lines, source.nameOk) == []
    ensures Refusals([source]) == []
    ensures FragmentsOf([source]) == [Trimmed(ParseLines(source.lines).bodies)]
  {
    assert [source][..0] == [];
    assert FragmentsOf([source][..0]) == [];
  }

  // What is before the body, and the released sections, of any changelog of this form.
  ghost predicate Surrounds(lines: seq<string>, r: seq<string>, mid: seq<string>)
    requires UNRELEASED in lines
  {
    UNRELEASED in r && Before(r) == Before(lines) && r == Before(lines) + (mid + Released(lines))
  }

  lemma StartStays(lines: seq<string>, rest: seq<string>)
    requires UNRELEASED in lines
    ensures var r := Before(lines) + rest;
            UNRELEASED in r && Before(r) == Before(lines) && After(r) == rest
  {
    var r := Before(lines) + rest;
    FindIsLast(lines);
    FindLineInFront(Before(lines), rest, UNRELEASED);
    SumSlices(Before(lines), rest);
    assert r[Start(lines)] == UNRELEASED;
  }

  // The first release heading is at the old ones or before them.
  lemma ReleasedGrows(rest: seq<string>, released: seq<string>)
    requires released == [] || IsTop(released[0])
    ensures FindTop(rest + released) <= |rest|
    ensures (rest + released)[FindTop(rest + released)..] == rest[FindTop(rest + released)..] + released
  {
    TopAtMost(rest, released);
    DropOfSum(rest, released, FindTop(rest + released));
  }

  lemma {:induction false} TopAtMost(rest: seq<string>, released: seq<string>)
    requires released == [] || IsTop(released[0])
    ensures FindTop(rest + released) <= |rest|
  {
    if rest == [] {
      SumOfEmpty(released);
    } else {
      TailOfSum(rest, released);
      TopAtMost(rest[1..], released);
    }
  }

  lemma {:induction false} SurroundsOnce(lines: seq<string>, r: seq<string>, mid: seq<string>, section: string,
                                         bodies: seq<seq<string>>)
    returns (mid': seq<string>)
    requires UNRELEASED in lines && Surrounds(lines, r, mid)
    ensures Surrounds(lines, FoldSection(r, section, bodies), mid')
  {
    if bodies == [] {
      mid' := mid;
    } else {
      StartStays(lines, mid + Released(lines));
      ReleasedGrows(mid, Released(lines));
      var folded := FoldBody(Body(r), section, Block(bodies));
      var extra := mid[FindTop(mid + Released(lines))..];
      mid' := folded + extra;
      SumAssoc(folded, extra, Released(lines));
      StartStays(lines, mid' + Released(lines));
    }
  }

  // Whatever the fragments hold, what is before Unreleased stays, and the released
  // sections stay at the end, line by line. A heading among the entries can only cut
  // Unreleased short; without one, the released sections are read as before.
  lemma {:induction false} OutsideIsKept(lines: seq<string>, frags: seq<Fragment>, names: seq<string>)
    returns (mid: seq<string>)
    requires UNRELEASED in lines
    ensures Surrounds(lines, Folded(lines, frags, names), mid)
    ensures AcceptedAll(frags) && PlainAll(frags) && SomeSections(names) ==>
              Released(Folded(lines, frags, names)) == Released(lines)
  {
    if names == [] {
      mid := Body(lines);
      Parts(lines);
    } else {
      var init, last := names[..|names| - 1], names[|names| - 1];
      mid := OutsideIsKept(lines, frags, init);
      mid := SurroundsOnce(lines, Folded(lines, frags, init), mid, last, BodiesFor(frags, last));
    }
    if AcceptedAll(frags) && PlainAll(frags) && SomeSections(names) {
      assert "Added" == SECTIONS[0];
      FoldedMeaning(lines, frags, names, "Added");
    }
  }

  // ---------- Nothing is removed ----------

  // `kept` is `whole` with lines left out: line i of it is line places[i] of `whole`.
  ghost predicate Embeds(kept: seq<string>, whole: seq<string>, places: seq<nat>) {
    && |places| == |kept|
    && (forall i | 0 <= i < |kept| :: places[i] < |whole| && whole[places[i]] == kept[i])
    && (forall i, j | 0 <= i < j < |kept| :: places[i] < places[j])
  }

  lemma SpliceEmbeds(a: seq<string>, block: seq<string>, b: seq<string>) returns (places: seq<nat>)
    ensures Embeds(a + b, a + block + b, places)
  {
    places := seq(|a| + |b|, i requires 0 <= i => if i < |a| then i else i + |block|);
  }

  lemma EmbedsThrough(a: seq<string>, b: seq<string>, c: seq<string>, f: seq<nat>, g: seq<nat>) returns (h: seq<nat>)
    requires Embeds(a, b, f) && Embeds(b, c, g)
    ensures Embeds(a, c, h)
  {
    h := seq(|a|, i requires 0 <= i < |a| => g[f[i]]);
  }

  lemma FoldSectionEmbeds(lines: seq<string>, section: string, bodies: seq<seq<string>>) returns (places: seq<nat>)
    requires UNRELEASED in lines
    ensures Embeds(lines, FoldSection(lines, section, bodies), places)
  {
    if bodies == [] {
      places := seq(|lines|, i requires 0 <= i => i);
    } else {
      var body := Body(lines);
      var missing := FindLine(body, HeadingOf(section)) == |body|;
      var i := if missing then NewAt(body, section) else SkipBlank(body, FindLine(body, HeadingOf(section)) + 1);
      var lead := if missing then ["", HeadingOf(section), ""] else [];
      var block := lead + Fitted(Block(bodies), body[i..]);
      Parts(lines);
      CutAt(body, i);
      PutMiddle(Before(lines), body[..i], [], body[i..], Released(lines));
      PutMiddle(Before(lines), body[..i], block, body[i..], Released(lines));
      SumOfEmpty(Before(lines) + body[..i]);
      SumOfEmpty(body[..i]);
      SumAssoc(body[..i], lead, Fitted(Block(bodies), body[i..]));
      places := SpliceEmbeds(Before(lines) + body[..i], block, body[i..] + Released(lines));
    }
  }

  // Every line of the changelog is still there, in order.
  lemma {:induction false} OldLinesAreKept(lines: seq<string>, frags: seq<Fragment>, names: seq<string>)
    returns (places: seq<nat>)
    requires UNRELEASED in lines
    ensures Embeds(lines, Folded(lines, frags, names), places)
    decreases |names|
  {
    if names == [] {
      places := seq(|lines|, i requires 0 <= i => i);
    } else {
      var init, last := names[..|names| - 1], names[|names| - 1];
      var f := OldLinesAreKept(lines, frags, init);
      var before := Folded(lines, frags, init);
      var g := FoldSectionEmbeds(before, last, BodiesFor(frags, last));
      places := EmbedsThrough(lines, before, Folded(lines, frags, names), f, g);
    }
  }
}
