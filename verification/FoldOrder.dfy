// The fold keeps the sections of Unreleased in canonical order, each once.
module FoldOrder {
  import opened Sequences
  import opened Text
  import opened Fragments
  import opened ChangelogFold
  import opened FoldMeaning

  // The place of a section heading in the canonical order; |SECTIONS| for other lines.
  function Rank(line: string): nat {
    if "### " <= line then FindLine(SECTIONS, line[4..]) else |SECTIONS|
  }

  predicate Known(line: string) { Rank(line) < |SECTIONS| }

  ghost predicate Canonical(body: seq<string>) {
    forall i, j | 0 <= i < j < |body| && Known(body[i]) && Known(body[j]) :: Rank(body[i]) < Rank(body[j])
  }

  lemma RankOfHeading(s: string)
    requires s in SECTIONS
    ensures Rank(HeadingOf(s)) == FindLine(SECTIONS, s) < |SECTIONS|
  {
    SumSlices("### ", s);
    var i :| 0 <= i < |SECTIONS| && SECTIONS[i] == s;
  }

  lemma HeadingOfRank(line: string)
    requires Known(line)
    ensures line == HeadingOf(SECTIONS[Rank(line)])
  {
    CutAt(line, 4);
  }

  lemma {:induction false} FindsEach(i: nat)
    requires i < |SECTIONS|
    ensures FindLine(SECTIONS, SECTIONS[i]) == i
  {
    SectionsDiffer();
    var n := FindLine(SECTIONS, SECTIONS[i]);
    assert n <= i;
  }

  // The later headings are the known lines of a higher rank.
  lemma LaterIsHigher(section: string, line: string)
    requires section in SECTIONS
    ensures line in LaterHeadings(section) <==> Known(line) && FindLine(SECTIONS, section) < Rank(line)
  {
    if line in LaterHeadings(section) {
      var i :| 0 <= i < |SECTIONS| && FindLine(SECTIONS, section) < i && line == HeadingOf(SECTIONS[i]);
      FindsEach(i);
      RankOfHeading(SECTIONS[i]);
    }
    if Known(line) && FindLine(SECTIONS, section) < Rank(line) {
      HeadingOfRank(line);
    }
  }

  lemma PlainIsUnknown(lines: seq<string>)
    requires NoHeadings(lines)
    ensures forall i | 0 <= i < |lines| :: !Known(lines[i])
  {
    forall i | 0 <= i < |lines|
      ensures !Known(lines[i])
    {
      assert !IsSection(lines[i]);
    }
  }

  // Where a line stood before `block` was put behind `a`.
  function Unspliced(a: seq<string>, block: seq<string>, i: nat): int {
    if i < |a| then i else i - |block|
  }

  lemma SplicedAt<T>(a: seq<T>, block: seq<T>, b: seq<T>, i: nat)
    requires i < |a| + |block| + |b|
    ensures i < |a| ==> (a + block + b)[i] == (a + b)[i] == a[i]
    ensures |a| <= i < |a| + |block| ==> (a + block + b)[i] == block[i - |a|]
    ensures |a| + |block| <= i ==> (a + block + b)[i] == (a + b)[i - |block|] == b[i - |block| - |a|]
  {
  }

  lemma InOrder(lines: seq<string>, i: int, j: int)
    requires Canonical(lines) && 0 <= i < j < |lines| && Known(lines[i]) && Known(lines[j])
    ensures Rank(lines[i]) < Rank(lines[j])
  {
  }

  // Putting lines without known headings anywhere keeps the order.
  lemma PlainSplice(a: seq<string>, block: seq<string>, b: seq<string>)
    requires Canonical(a + b) && forall i | 0 <= i < |block| :: !Known(block[i])
    ensures Canonical(a + block + b)
  {
    var was, r := a + b, a + block + b;
    forall i, j | 0 <= i < j < |r| && Known(r[i]) && Known(r[j])
      ensures Rank(r[i]) < Rank(r[j])
    {
      SplicedAt(a, block, b, i);
      SplicedAt(a, block, b, j);
      InOrder(was, Unspliced(a, block, i), Unspliced(a, block, j));
    }
  }

  ghost predicate AllBelow(lines: seq<string>, rank: nat) {
    forall i | 0 <= i < |lines| && Known(lines[i]) :: Rank(lines[i]) < rank
  }

  ghost predicate AllAbove(lines: seq<string>, rank: nat) {
    forall i | 0 <= i < |lines| && Known(lines[i]) :: rank < Rank(lines[i])
  }

  lemma BelowAt(lines: seq<string>, rank: nat, i: nat)
    requires AllBelow(lines, rank) && i < |lines| && Known(lines[i])
    ensures Rank(lines[i]) < rank
  {
  }

  lemma AboveAt(lines: seq<string>, rank: nat, i: nat)
    requires AllAbove(lines, rank) && i < |lines| && Known(lines[i])
    ensures rank < Rank(lines[i])
  {
  }

  // So does putting a heading between lower and higher ones.
  lemma HeadingSplice(a: seq<string>, heading: string, b: seq<string>)
    requires Canonical(a + b) && AllBelow(a, Rank(heading)) && AllAbove(b, Rank(heading))
    ensures Canonical(a + [heading] + b)
  {
    var r := a + [heading] + b;
    forall i, j | 0 <= i < j < |r| && Known(r[i]) && Known(r[j])
      ensures Rank(r[i]) < Rank(r[j])
    {
      HeadingSpliceAt(a, heading, b, r, i, j);
    }
  }

  lemma HeadingSpliceAt(a: seq<string>, heading: string, b: seq<string>, r: seq<string>, i: nat, j: nat)
    requires Canonical(a + b) && AllBelow(a, Rank(heading)) && AllAbove(b, Rank(heading))
    requires r == a + [heading] + b && i < j < |r| && Known(r[i]) && Known(r[j])
    ensures Rank(r[i]) < Rank(r[j])
  {
    AroundHeading(a, heading, b, r, i);
    AroundHeading(a, heading, b, r, j);
    if i == |a| {
      AboveAt(b, Rank(heading), j - 1 - |a|);
    } else if j == |a| {
      BelowAt(a, Rank(heading), i);
    } else {
      InOrder(a + b, Unspliced(a, [heading], i), Unspliced(a, [heading], j));
    }
  }

  lemma AroundHeading(a: seq<string>, heading: string, b: seq<string>, r: seq<string>, i: nat)
    requires r == a + [heading] + b && i < |r|
    ensures i == |a| ==> r[i] == heading
    ensures i < |a| ==> r[i] == a[i]
    ensures i > |a| ==> r[i] == b[i - 1 - |a|]
    ensures i != |a| ==> 0 <= Unspliced(a, [heading], i) < |a + b| && r[i] == (a + b)[Unspliced(a, [heading], i)]
  {
    SplicedAt(a, [heading], b, i);
  }

  lemma SameFind(lines: seq<string>, x: string, y: string)
    requires FindLine(lines, x) == FindLine(lines, y) < |lines|
    ensures x == y
  {
  }

  lemma SameRank(line: string, section: string)
    requires section in SECTIONS && Known(line) && Rank(line) == FindLine(SECTIONS, section)
    ensures line == HeadingOf(section)
  {
    SameFind(SECTIONS, line[4..], section);
    CutAt(line, 4);
  }

  // The place of a new section is between the lower and the higher ones.
  lemma LowerBefore(body: seq<string>, section: string, i: nat)
    requires section in SECTIONS && FindLine(body, HeadingOf(section)) == |body|
    requires i < NewAt(body, section) && Known(body[i])
    ensures Rank(body[i]) < Rank(HeadingOf(section))
  {
    var line := body[i];
    assert line != HeadingOf(section) && line !in LaterHeadings(section);
    RankOfHeading(section);
    LaterIsHigher(section, line);
    if Rank(line) == FindLine(SECTIONS, section) {
      SameRank(line, section);
    }
  }

  lemma KnownIsNotBlank(line: string)
    ensures Known(line) ==> !Blank(line)
  {
    HeadingIsNotBlank(line);
  }

  lemma HigherBehind(body: seq<string>, section: string, i: nat)
    requires section in SECTIONS && Canonical(body)
    requires NewAt(body, section) <= i < |body| && Known(body[i])
    ensures Rank(HeadingOf(section)) < Rank(body[i])
  {
    var later := FindAny(body, LaterHeadings(section));
    RankOfHeading(section);
    KnownIsNotBlank(body[i]);
    assert later <= i;
    LaterIsHigher(section, body[later]);
  }

  lemma AllBelowNew(body: seq<string>, section: string)
    requires section in SECTIONS && FindLine(body, HeadingOf(section)) == |body|
    ensures AllBelow(body[..NewAt(body, section)], Rank(HeadingOf(section)))
  {
    forall i | 0 <= i < NewAt(body, section) && Known(body[i])
      ensures Rank(body[i]) < Rank(HeadingOf(section))
    {
      LowerBefore(body, section, i);
    }
  }

  lemma AllAboveSlice(lines: seq<string>, at: nat, rank: nat)
    requires at <= |lines| && forall i | at <= i < |lines| && Known(lines[i]) :: rank < Rank(lines[i])
    ensures AllAbove(lines[at..], rank)
  {
  }

  lemma AllAboveNew(body: seq<string>, section: string)
    requires section in SECTIONS && Canonical(body)
    ensures AllAbove(body[NewAt(body, section)..], Rank(HeadingOf(section)))
  {
    forall i | NewAt(body, section) <= i < |body| && Known(body[i])
      ensures Rank(HeadingOf(section)) < Rank(body[i])
    {
      HigherBehind(body, section, i);
    }
    AllAboveSlice(body, NewAt(body, section), Rank(HeadingOf(section)));
  }

  lemma FittedIsPlain(block: seq<string>, rest: seq<string>)
    requires NoHeadings(block)
    ensures NoHeadings(Fitted(block, rest))
  {
  }

  lemma CreateKeepsOrder(body: seq<string>, section: string, block: seq<string>)
    requires section in SECTIONS && Canonical(body) && FindLine(body, HeadingOf(section)) == |body|
    requires NoHeadings(block)
    ensures Canonical(FoldBody(body, section, block))
  {
    var at := NewAt(body, section);
    assert Canonical(body[..at] + body[at..]) by { CutAt(body, at); }
    AllBelowNew(body, section);
    AllAboveNew(body, section);
    FittedIsPlain(block, body[at..]);
    InsertKeepsOrder(body[..at], HeadingOf(section), Fitted(block, body[at..]), body[at..]);
    CreatedShape(body, section, block);
  }

  lemma InsertKeepsOrder(a: seq<string>, heading: string, block: seq<string>, b: seq<string>)
    requires Canonical(a + b) && AllBelow(a, Rank(heading)) && AllAbove(b, Rank(heading))
    requires NoHeadings(block)
    ensures Canonical(a + ((["", heading, ""] + block) + b))
  {
    PlainIsUnknown(block);
    HeadingSplice(a, heading, b);
    SpliceTwice(a, [""], [heading], [""] + block, b);
    Regather(a, "", heading, "", block, b);
  }

  lemma SpliceTwice(a: seq<string>, x: seq<string>, heading: seq<string>, y: seq<string>, b: seq<string>)
    requires Canonical(a + heading + b)
    requires (forall i | 0 <= i < |x| :: !Known(x[i])) && forall i | 0 <= i < |y| :: !Known(y[i])
    ensures Canonical((a + x) + heading + y + b)
  {
    SumAssoc(a, heading, b);
    PlainSplice(a, x, heading + b);
    SumAssoc(a + x, heading, b);
    PlainSplice((a + x) + heading, y, b);
  }

  lemma Regather<T>(a: seq<T>, x: T, h: T, y: T, block: seq<T>, tail: seq<T>)
    ensures a + (([x, h, y] + block) + tail) == (a + [x]) + [h] + ([y] + block) + tail
  {
  }

  lemma PutKeepsOrder(body: seq<string>, at: nat, block: seq<string>)
    requires at <= |body| && NoHeadings(block) && Canonical(body)
    ensures Canonical(Put(body, at, [], block))
  {
    FittedIsPlain(block, body[at..]);
    PlainIsUnknown(Fitted(block, body[at..]));
    CutAt(body, at);
    SumOfEmpty(body[..at]);
    PlainSplice(body[..at], Fitted(block, body[at..]), body[at..]);
  }

  lemma FoldKeepsOrder(body: seq<string>, section: string, bodies: seq<seq<string>>)
    requires section in SECTIONS && PlainBodies(bodies) && bodies != [] && Canonical(body)
    ensures Canonical(FoldBody(body, section, Block(bodies)))
  {
    BlockMeaning(bodies);
    if FindLine(body, HeadingOf(section)) < |body| {
      PutKeepsOrder(body, Place(body, section), Block(bodies));
    } else {
      CreateKeepsOrder(body, section, Block(bodies));
    }
  }

  // Folding every section keeps the order.
  lemma {:induction false} OrderIsKept(lines: seq<string>, frags: seq<Fragment>, names: seq<string>)
    requires UNRELEASED in lines && AcceptedAll(frags) && PlainAll(frags) && SomeSections(names)
    requires Canonical(Body(lines))
    ensures Canonical(Body(Folded(lines, frags, names)))
  {
    if names != [] {
      var init, last := names[..|names| - 1], names[|names| - 1];
      SplitLast(names);
      OrderIsKept(lines, frags, init);
      var before, bodies := Folded(lines, frags, init), BodiesFor(frags, last);
      BodiesArePlain(frags, last);
      if bodies != [] {
        BodyHasNoTops(before, last, bodies);
        NewBody(before, FoldBody(Body(before), last, Block(bodies)));
        FoldKeepsOrder(Body(before), last, bodies);
      }
    }
  }
}
