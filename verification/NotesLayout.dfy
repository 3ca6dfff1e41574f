// How a text is laid out, told from its lines alone, and what each part of it comes out
// as: the one way to read a text that `transform` takes.
module NotesLayout {
  import opened Characters
  import opened Sequences
  import opened Text
  import opened ReleaseNotes
  import opened NotesBlocks
  import opened NotesKept

  // ---------- Kinds of line ----------

  // Up to six hashes at column 0, and then a space or nothing.
  ghost predicate TitleTo(line: string, n: int) {
    1 <= n <= 6 && n <= |line| && (forall i | 0 <= i < n :: line[i] == '#') && (n < |line| ==> IsSpace(line[n]))
  }

  ghost predicate TitleLine(line: string) { exists n :: TitleTo(line, n) }

  // Digits of any script, a stop and a space.
  ghost predicate NumberedTo(line: string, n: int) {
    0 < n && n + 1 < |line| && (forall i | 0 <= i < n :: IsDecimal(line[i])) && line[n] == '.' && IsSpace(line[n + 1])
  }

  ghost predicate BulletLine(line: string) { "- " <= line || "* " <= line || exists n :: NumberedTo(line, n) }

  ghost predicate QuotedTo(line: string, n: int) { 0 <= n < |line| && Blank(line[..n]) && line[n] == '>' }

  ghost predicate QuotedLine(line: string) { exists n :: QuotedTo(line, n) }

  // Two spaces or a tab ahead of text that is no quotation.
  ghost predicate WrappedLine(line: string) { ("  " <= line || "\t" <= line) && !QuotedLine(line) }

  ghost predicate TextLine(line: string) {
    line != "" && RStrip(line) == line && !("```" <= line) && !TitleLine(line) && !BulletLine(line)
  }

  lemma {:induction false} LevelIs(line: string, n: nat)
    requires n <= |line| && (forall i | 0 <= i < n :: line[i] == '#') && (n < |line| ==> line[n] != '#')
    ensures Level(line) == n
  {
    if n > 0 {
      LevelIs(line[1..], n - 1);
    }
  }

  lemma TitleIff(line: string)
    ensures IsHeading(line) <==> TitleLine(line)
  {
    LevelMeaning(line);
    if IsHeading(line) {
      assert TitleTo(line, Level(line));
    }
    if n :| TitleTo(line, n) {
      LevelIs(line, n);
    }
  }

  lemma {:induction false} DigitsAre(line: string, n: nat)
    requires n < |line| && (forall i | 0 <= i < n :: IsDecimal(line[i])) && !IsDecimal(line[n])
    ensures Digits(line) == n
  {
    if n > 0 {
      DigitsAre(line[1..], n - 1);
    }
  }

  lemma {:induction false} DigitsMeaning(line: string)
    ensures Digits(line) <= |line| && forall i | 0 <= i < Digits(line) :: IsDecimal(line[i])
  {
    if line != "" && IsDecimal(line[0]) {
      DigitsMeaning(line[1..]);
    }
  }

  lemma StopIsNoDigit()
    ensures !IsDecimal('.')
  {
    if IsDecimal('.') {
      DecimalIsHigh('.');
    }
  }

  lemma BulletIff(line: string)
    ensures IsListItem(line) <==> BulletLine(line)
  {
    DigitsMeaning(line);
    StopIsNoDigit();
    var n := Digits(line);
    if n > 0 && n + 1 < |line| && line[n] == '.' && IsSpace(line[n + 1]) {
      assert NumberedTo(line, n);
    }
    if m :| NumberedTo(line, m) {
      DigitsAre(line, m);
    }
  }

  lemma {:induction false} LStripAt(s: string, n: nat)
    requires n < |s| && Blank(s[..n]) && !IsSpace(s[n])
    ensures LStrip(s) == s[n..]
  {
    if n > 0 {
      assert s[0] == s[..n][0];
      assert s[1..][..n - 1] == s[..n][1..];
      LStripAt(s[1..], n - 1);
    }
  }

  lemma {:induction false} LStripFinds(s: string) returns (n: nat)
    ensures n <= |s| && Blank(s[..n]) && LStrip(s) == s[n..]
  {
    n := 0;
    if s != "" && IsSpace(s[0]) {
      var m := LStripFinds(s[1..]);
      n := m + 1;
      assert s[..n] == [s[0]] + s[1..][..m];
    }
  }

  lemma QuotedIff(line: string)
    ensures IsBlockquote(line) <==> QuotedLine(line)
  {
    var n := LStripFinds(line);
    if IsBlockquote(line) {
      assert line[n] == LStrip(line)[0];
      assert QuotedTo(line, n);
    }
    if m :| QuotedTo(line, m) {
      LStripAt(line, m);
    }
  }

  lemma KindsOf(line: string)
    ensures IsHeading(line) <==> TitleLine(line)
    ensures IsListItem(line) <==> BulletLine(line)
    ensures IsBlockquote(line) <==> QuotedLine(line)
    ensures IsContinuation(line) <==> WrappedLine(line)
  {
    TitleIff(line);
    BulletIff(line);
    QuotedIff(line);
  }

  // ---------- Layouts ----------

  // The parts of a text: code between fences, headings, bullets with the lines they are
  // wrapped over, and paragraphs.
  ghost predicate WellMade(b: Block, fenced: bool) {
    match b
    case Empty => !fenced
    case Fence(line) => "```" <= line && RStrip(line) == line
    case Raw(line) => fenced && !("```" <= RStrip(line))
    case Heading(line) => !fenced && RStrip(line) == line && TitleLine(line)
    case Item(lines) =>
      && !fenced && lines != [] && RStrip(lines[0]) == lines[0] && BulletLine(lines[0])
      && forall i | 0 < i < |lines| :: TextLine(lines[i]) && WrappedLine(lines[i])
    case Para(lines) => !fenced && lines != [] && forall i | 0 <= i < |lines| :: TextLine(lines[i])
  }

  // What would be more of the part before it is no part of its own.
  ghost predicate Apart(a: Block, b: Block) {
    b.Para? ==> !a.Para? && !(a.Item? && b.lines != [] && WrappedLine(b.lines[0]))
  }

  ghost predicate LaidOut(blocks: seq<Block>, fenced: bool)
    decreases |blocks|
  {
    blocks != [] ==>
      && WellMade(blocks[0], fenced) && (|blocks| > 1 ==> Apart(blocks[0], blocks[1]))
      && LaidOut(blocks[1..], if blocks[0].Fence? then !fenced else fenced)
  }

  predicate FencedBy(b: Block, fenced: bool) { if b.Fence? then !fenced else fenced }

  ghost predicate MayClose(open: Open, b: Block) {
    match open
    case Closed => true
    case InPara(lines) => Apart(Para(lines), b)
    case InItem(lines) => Apart(Item(lines), b)
  }

  // ---------- A layout is read as it is ----------

  lemma NotBoth(line: string)
    ensures TitleLine(line) || BulletLine(line) ==> line != "" && !("```" <= line)
    ensures !(TitleLine(line) && BulletLine(line))
  {
    TitleIff(line);
    BulletIff(line);
    LevelMeaning(line);
    if IsListItem(line) {
      ItemFirst(line);
    }
  }

  // A part of one line, read while another part is open.
  lemma ReadOneLine(b: Block, fenced: bool, open: Open)
    requires WellMade(b, fenced) && !b.Item? && !b.Para? && (fenced ==> open.Closed?)
    ensures |SourceOf(b)| == 1
    ensures Read(SourceOf(b)[0], fenced, open) == Step(Close(open) + [b], FencedBy(b, fenced), Closed)
  {
    SumOfEmpty([b]);
    if b.Heading? {
      NotBoth(b.line);
      TitleIff(b.line);
    }
  }

  lemma ReadBullet(line: string, open: Open)
    requires RStrip(line) == line && BulletLine(line)
    ensures Read(line, false, open) == Step(Close(open), false, InItem([line]))
  {
    NotBoth(line);
    KindsOf(line);
  }

  lemma ReadWrapped(line: string, lines: seq<string>)
    requires TextLine(line) && WrappedLine(line)
    ensures Read(line, false, InItem(lines)) == Step([], false, InItem(lines + [line]))
  {
    KindsOf(line);
  }

  lemma ReadProse(line: string, open: Open)
    requires TextLine(line) && (open.InItem? ==> !WrappedLine(line))
    ensures Read(line, false, open) ==
            if open.InPara? then Step([], false, InPara(open.lines + [line]))
            else Step(Close(open), false, InPara([line]))
  {
    KindsOf(line);
  }

  // Reading on from a line.
  lemma ReadOn(line: string, rest: seq<string>, fenced: bool, open: Open, step: Step)
    requires step == Read(line, fenced, open)
    ensures Blocks([line] + rest, fenced, open) == step.blocks + Blocks(rest, step.fenced, step.open)
  {
    TailOfSum([line], rest);
    assert [line][1..] == [];
    SumOfEmpty(rest);
  }

  // The lines a bullet is wrapped over join it ...
  lemma {:induction false} ReadItemTail(start: seq<string>, tail: seq<string>, rest: seq<string>)
    requires forall i | 0 <= i < |tail| :: TextLine(tail[i]) && WrappedLine(tail[i])
    ensures Blocks(tail + rest, false, InItem(start)) == Blocks(rest, false, InItem(start + tail))
    decreases |tail|
  {
    if tail == [] {
      SumOfEmpty(rest);
      SumOfEmpty(start);
    } else {
      SplitFirst(tail);
      SumAssoc([tail[0]], tail[1..], rest);
      ReadWrapped(tail[0], start);
      ReadOn(tail[0], tail[1..] + rest, false, InItem(start), Step([], false, InItem(start + [tail[0]])));
      SumOfEmpty(Blocks(tail[1..] + rest, false, InItem(start + [tail[0]])));
      ReadItemTail(start + [tail[0]], tail[1..], rest);
      SumAssoc(start, [tail[0]], tail[1..]);
    }
  }

  // ... and the lines of a paragraph the one before.
  lemma {:induction false} ReadParaTail(start: seq<string>, tail: seq<string>, rest: seq<string>)
    requires forall i | 0 <= i < |tail| :: TextLine(tail[i])
    ensures Blocks(tail + rest, false, InPara(start)) == Blocks(rest, false, InPara(start + tail))
    decreases |tail|
  {
    if tail == [] {
      SumOfEmpty(rest);
      SumOfEmpty(start);
    } else {
      SplitFirst(tail);
      SumAssoc([tail[0]], tail[1..], rest);
      ReadProse(tail[0], InPara(start));
      ReadOn(tail[0], tail[1..] + rest, false, InPara(start), Step([], false, InPara(start + [tail[0]])));
      SumOfEmpty(Blocks(tail[1..] + rest, false, InPara(start + [tail[0]])));
      ReadParaTail(start + [tail[0]], tail[1..], rest);
      SumAssoc(start, [tail[0]], tail[1..]);
    }
  }

  lemma ReadItem(lines: seq<string>, rest: seq<string>, open: Open)
    requires WellMade(Item(lines), false)
    ensures Blocks(lines + rest, false, open) == Close(open) + Blocks(rest, false, InItem(lines))
  {
    SplitFirst(lines);
    SumAssoc([lines[0]], lines[1..], rest);
    ReadBullet(lines[0], open);
    ReadOn(lines[0], lines[1..] + rest, false, open, Step(Close(open), false, InItem([lines[0]])));
    forall i | 0 <= i < |lines[1..]|
      ensures TextLine(lines[1..][i]) && WrappedLine(lines[1..][i])
    {
      assert lines[1..][i] == lines[i + 1];
    }
    ReadItemTail([lines[0]], lines[1..], rest);
  }

  lemma ReadPara(lines: seq<string>, rest: seq<string>, open: Open)
    requires WellMade(Para(lines), false) && MayClose(open, Para(lines))
    ensures Blocks(lines + rest, false, open) == Close(open) + Blocks(rest, false, InPara(lines))
  {
    SplitFirst(lines);
    SumAssoc([lines[0]], lines[1..], rest);
    ReadProse(lines[0], open);
    ReadOn(lines[0], lines[1..] + rest, false, open, Step(Close(open), false, InPara([lines[0]])));
    ReadParaTail([lines[0]], lines[1..], rest);
  }

  // Every layout is what its lines are read as.
  lemma {:induction false} LayoutIsRead(blocks: seq<Block>, fenced: bool, open: Open)
    requires LaidOut(blocks, fenced) && (fenced ==> open.Closed?) && (blocks != [] ==> MayClose(open, blocks[0]))
    ensures Blocks(Sources(blocks), fenced, open) == Close(open) + blocks
    decreases |blocks|
  {
    if blocks == [] {
      SumOfEmpty(Close(open));
    } else {
      var b, rest := blocks[0], blocks[1..];
      SplitFirst(blocks);
      match b
      case Item(lines) =>
        ReadItem(lines, Sources(rest), open);
        LayoutIsRead(rest, false, InItem(lines));
      case Para(lines) =>
        ReadPara(lines, Sources(rest), open);
        LayoutIsRead(rest, false, InPara(lines));
      case _ =>
        ReadOneLine(b, fenced, open);
        ReadOn(SourceOf(b)[0], Sources(rest), fenced, open, Step(Close(open) + [b], FencedBy(b, fenced), Closed));
        LayoutIsRead(rest, FencedBy(b, fenced), Closed);
        SumOfEmpty(rest);
        SumAssoc(Close(open), [b], rest);
    }
  }

  // ---------- Every text has a layout ----------

  ghost predicate OpenWell(open: Open, fenced: bool) {
    match open
    case Closed => true
    case InPara(lines) => WellMade(Para(lines), fenced)
    case InItem(lines) => WellMade(Item(lines), fenced)
  }

  // The part that is open comes first, perhaps longer than it is now.
  ghost predicate Continues(open: Open, blocks: seq<Block>) {
    match open
    case Closed => true
    case InPara(lines) => blocks != [] && blocks[0].Para? && lines <= blocks[0].lines
    case InItem(lines) => blocks != [] && blocks[0].Item? && lines <= blocks[0].lines
  }

  lemma PutBefore(b: Block, rest: seq<Block>, fenced: bool)
    requires WellMade(b, fenced) && LaidOut(rest, FencedBy(b, fenced)) && (rest != [] ==> Apart(b, rest[0]))
    ensures LaidOut([b] + rest, fenced)
  {
    TailOfSum([b], rest);
    assert [b][1..] == [];
    SumOfEmpty(rest);
  }

  lemma CloseBefore(open: Open, rest: seq<Block>, fenced: bool)
    requires OpenWell(open, fenced) && LaidOut(rest, fenced) && (rest != [] ==> MayClose(open, rest[0]))
    ensures LaidOut(Close(open) + rest, fenced) && Continues(open, Close(open) + rest)
  {
    SumOfEmpty(rest);
    if !open.Closed? {
      PutBefore(Close(open)[0], rest, fenced);
      assert Close(open) == [Close(open)[0]];
    }
  }

  // A line that is a part of its own.
  ghost predicate StandsAlone(raw: string, fenced: bool) {
    IsFence(RStrip(raw)) || fenced || RStrip(raw) == "" || IsHeading(RStrip(raw))
  }

  lemma PartOf(raw: string, fenced: bool, open: Open) returns (b: Block)
    requires StandsAlone(raw, fenced) && (fenced ==> open.Closed?)
    ensures WellMade(b, fenced) && !b.Item? && !b.Para?
    ensures Read(raw, fenced, open) == Step(Close(open) + [b], FencedBy(b, fenced), Closed)
  {
    var line := RStrip(raw);
    RStripMeaning(line);
    TitleIff(line);
    SumOfEmpty([Raw(raw)]);
    b := if IsFence(line) then Fence(line) else if fenced then Raw(raw)
         else if line == "" then Empty else Heading(line);
    RStripTwice(raw);
  }

  lemma {:induction false} BlocksAreLaidOut(lines: seq<string>, fenced: bool, open: Open)
    requires OpenWell(open, fenced) && (fenced ==> open.Closed?)
    ensures LaidOut(Blocks(lines, fenced, open), fenced) && Continues(open, Blocks(lines, fenced, open))
    decreases |lines|, 1
  {
    if lines == [] {
      CloseBefore(open, [], fenced);
      SumOfEmpty(Close(open));
    } else if StandsAlone(lines[0], fenced) {
      var b := PartOf(lines[0], fenced, open);
      ThenOneLine(lines, b, fenced, open);
    } else {
      RStripTwice(lines[0]);
      ThenText(lines, RStrip(lines[0]), open);
    }
  }

  lemma {:induction false} ThenOneLine(lines: seq<string>, b: Block, fenced: bool, open: Open)
    requires lines != [] && OpenWell(open, fenced) && (fenced ==> open.Closed?)
    requires WellMade(b, fenced) && !b.Item? && !b.Para?
    requires Read(lines[0], fenced, open) == Step(Close(open) + [b], FencedBy(b, fenced), Closed)
    ensures LaidOut(Blocks(lines, fenced, open), fenced) && Continues(open, Blocks(lines, fenced, open))
    decreases |lines|, 0
  {
    var rest := Blocks(lines[1..], FencedBy(b, fenced), Closed);
    BlocksAreLaidOut(lines[1..], FencedBy(b, fenced), Closed);
    PutBefore(b, rest, fenced);
    CloseBefore(open, [b] + rest, fenced);
    SumAssoc(Close(open), [b], rest);
  }

  lemma {:induction false} ThenText(lines: seq<string>, line: string, open: Open)
    requires lines != [] && OpenWell(open, false) && line == RStrip(lines[0]) && RStrip(line) == line
    requires line != "" && !IsFence(line) && !IsHeading(line)
    ensures LaidOut(Blocks(lines, false, open), false) && Continues(open, Blocks(lines, false, open))
    decreases |lines|, 0
  {
    var step := ReadText(line, open);
    var rest := Blocks(lines[1..], false, step.open);
    TextOpensWell(line, open);
    BlocksAreLaidOut(lines[1..], false, step.open);
    KindsOf(line);
    if step.blocks == Close(open) {
      CloseBefore(open, rest, false);
    }
    if step.blocks == [] {
      SumOfEmpty(rest);
    }
  }

  lemma TextOpensWell(line: string, open: Open)
    requires OpenWell(open, false) && RStrip(line) == line && line != "" && !IsFence(line) && !IsHeading(line)
    ensures OpenWell(ReadText(line, open).open, false)
  {
    KindsOf(line);
  }

  lemma ReadNormal(raw: string, fenced: bool, open: Open)
    ensures Read(NormalLine(raw, fenced), fenced, open) == Read(raw, fenced, open)
  {
    RStripTwice(raw);
  }

  lemma NormalFirst(lines: seq<string>, fenced: bool, open: Open)
    requires lines != []
    ensures Normal(lines, fenced) ==
            [NormalLine(lines[0], fenced)] + Normal(lines[1..], Read(lines[0], fenced, open).fenced)
  {
  }

  lemma {:induction false} BlocksOfNormal(lines: seq<string>, fenced: bool, open: Open)
    ensures Blocks(Normal(lines, fenced), fenced, open) == Blocks(lines, fenced, open)
    decreases |lines|
  {
    if lines != [] {
      var step := Read(lines[0], fenced, open);
      NormalFirst(lines, fenced, open);
      ReadNormal(lines[0], fenced, open);
      ReadOn(NormalLine(lines[0], fenced), Normal(lines[1..], step.fenced), fenced, open, step);
      BlocksOfNormal(lines[1..], step.fenced, step.open);
    }
  }

  // The blocks a text is read as are its one layout.
  lemma LayoutIff(lines: seq<string>, blocks: seq<Block>)
    ensures blocks == Blocks(lines, false, Closed) <==>
              LaidOut(blocks, false) && Sources(blocks) == Normal(lines, false)
  {
    if blocks == Blocks(lines, false, Closed) {
      BlocksAreLaidOut(lines, false, Closed);
      BlocksAreTheText(lines, false, Closed);
      SumOfEmpty(Normal(lines, false));
    }
    if LaidOut(blocks, false) && Sources(blocks) == Normal(lines, false) {
      LayoutIsRead(blocks, false, Closed);
      BlocksOfNormal(lines, false, Closed);
      SumOfEmpty(blocks);
    }
  }

  // ---------- Wrapped lines as one ----------

  // The lines that hold text, without the spaces around it.
  function Pieces(lines: seq<string>): seq<string> {
    if lines == [] then [] else (if Blank(lines[0]) then [] else [Strip(lines[0])]) + Pieces(lines[1..])
  }

  // The wrap point of a hyphenated word.
  predicate EndsInHyphen(piece: string) {
    |piece| >= 2 && piece[|piece| - 1] == '-' && IsWord(piece[|piece| - 2])
  }

  // The pieces in order, a space between two, and none where a word goes on.
  function OneLine(pieces: seq<string>): string {
    if pieces == [] then ""
    else if |pieces| == 1 then pieces[0]
    else pieces[0] + (if EndsInHyphen(pieces[0]) then "" else " ") + OneLine(pieces[1..])
  }

  ghost predicate Texts(pieces: seq<string>) { forall i | 0 <= i < |pieces| :: pieces[i] != "" && Tight(pieces[i]) }

  lemma {:induction false} OneLineMore(pieces: seq<string>, last: string)
    requires pieces != []
    ensures OneLine(pieces + [last]) ==
            OneLine(pieces) + (if EndsInHyphen(pieces[|pieces| - 1]) then "" else " ") + last
  {
    TailOfSum(pieces, [last]);
    if |pieces| == 1 {
      assert pieces[1..] + [last] == [last];
    } else {
      var first, gap := pieces[0], if EndsInHyphen(pieces[0]) then "" else " ";
      var next := if EndsInHyphen(pieces[|pieces| - 1]) then "" else " ";
      OneLineMore(pieces[1..], last);
      SumAssoc(first + gap, OneLine(pieces[1..]) + next, last);
      SumAssoc(first + gap, OneLine(pieces[1..]), next);
    }
  }

  lemma HyphenOfSum(a: string, gap: string, last: string)
    requires last != "" && (gap == " " || (gap == "" && a != "" && a[|a| - 1] == '-'))
    ensures EndsInHyphen(a + gap + last) <==> EndsInHyphen(last)
  {
    var all := a + gap + last;
    assert all[|all| - 1] == last[|last| - 1];
    if |last| >= 2 {
      assert all[|all| - 2] == last[|last| - 2];
    } else {
      assert all[|all| - 2] == if gap == " " then ' ' else '-';
    }
  }

  // The last piece decides whether the word goes on.
  lemma {:induction false} HyphenOfLast(pieces: seq<string>)
    requires pieces != [] && Texts(pieces)
    ensures var line, last := OneLine(pieces), pieces[|pieces| - 1];
            line != "" && line[|line| - 1] == last[|last| - 1]
    ensures EndsInHyphen(OneLine(pieces)) <==> EndsInHyphen(pieces[|pieces| - 1])
  {
    if |pieces| > 1 {
      var init, last := pieces[..|pieces| - 1], pieces[|pieces| - 1];
      SplitLast(pieces);
      HyphenOfLast(init);
      OneLineMore(init, last);
      HyphenOfSum(OneLine(init), if EndsInHyphen(init[|init| - 1]) then "" else " ", last);
    }
  }

  lemma {:induction false} PiecesMore(lines: seq<string>, last: string)
    ensures Pieces(lines + [last]) == Pieces(lines) + (if Blank(last) then [] else [Strip(last)])
  {
    if lines == [] {
      SumOfEmpty([last]);
      assert [last][1..] == [];
      SumOfEmpty(if Blank(last) then [] else [Strip(last)]);
    } else {
      TailOfSum(lines, [last]);
      PiecesMore(lines[1..], last);
      SumAssoc(if Blank(lines[0]) then [] else [Strip(lines[0])], Pieces(lines[1..]),
               if Blank(last) then [] else [Strip(last)]);
    }
  }

  // Joining is putting the pieces into one line.
  lemma {:induction false} JoinIsOneLine(lines: seq<string>)
    ensures JoinLines(lines) == OneLine(Pieces(lines)) && Texts(Pieces(lines))
  {
    if lines != [] {
      var init, last := lines[..|lines| - 1], lines[|lines| - 1];
      SplitLast(lines);
      JoinIsOneLine(init);
      PiecesMore(init, last);
      StripMeaning(last);
      GlueOnto(Pieces(init), last);
    }
  }

  lemma GlueOnto(pieces: seq<string>, last: string)
    requires Texts(pieces)
    ensures var more := pieces + (if Blank(last) then [] else [Strip(last)]);
            Glue(OneLine(pieces), Strip(last)) == OneLine(more) && Texts(more)
  {
    StripMeaning(last);
    if Blank(last) {
      SumOfEmpty(pieces);
    } else if pieces == [] {
      SumOfEmpty([Strip(last)]);
    } else {
      HyphenOfLast(pieces);
      OneLineMore(pieces, Strip(last));
      SumOfEmpty(OneLine(pieces));
      SumAssoc(OneLine(pieces), " ", Strip(last));
    }
  }

  // ---------- What a part comes out as ----------

  // A heading of hashes, spaces and a known title is set again with the title's emoji
  // before it ...
  lemma KnownHeading(hashes: string, gap: string, title: string)
    requires 1 <= |hashes| <= 6 && (forall i | 0 <= i < |hashes| :: hashes[i] == '#')
    requires gap != "" && Blank(gap) && SectionEmoji(title) != ""
    ensures RewriteHeading(hashes + (gap + title)) == hashes + (" " + (SectionEmoji(title) + (" " + title)))
  {
    var line := hashes + (gap + title);
    SectionTitles(title);
    GapFirst(hashes, gap, title);
    LevelIs(line, |hashes|);
    SumSlices(hashes, gap + title);
    StripAfterGap(gap, title);
  }

  lemma GapFirst(hashes: string, gap: string, title: string)
    requires gap != "" && Blank(gap)
    ensures var line := hashes + (gap + title);
            |line| > |hashes| && IsSpace(line[|hashes|]) && forall i | 0 <= i < |hashes| :: line[i] == hashes[i]
  {
    assert (hashes + (gap + title))[|hashes|] == gap[0];
  }

  lemma StripAfterGap(gap: string, title: string)
    requires Blank(gap) && title != "" && Tight(title)
    ensures Strip(gap + title) == title
  {
    SumSlices(gap, title);
    LStripAt(gap + title, |gap|);
    StripMeaning(title);
  }

  // ... which are these eight ...
  lemma SectionTable(title: string)
    ensures SectionEmoji("Added") == "\U{2728}" && SectionEmoji("Changed") == "\U{1F527}"
    ensures SectionEmoji("Fixed") == "\U{1F41B}" && SectionEmoji("Removed") == "\U{1F5D1}\U{FE0F}"
    ensures SectionEmoji("Deprecated") == "\U{26A0}\U{FE0F}" && SectionEmoji("Security") == "\U{1F512}"
    ensures SectionEmoji("Migrations") == "\U{1F5C3}\U{FE0F}" && SectionEmoji("Breaking") == "\U{1F4A5}"
    ensures SectionEmoji(title) != "" <==>
              title in {"Added", "Changed", "Fixed", "Removed", "Deprecated", "Security", "Migrations", "Breaking"}
  {
  }

  // ... and any other heading is left alone.
  lemma OtherHeading(line: string)
    requires IsHeading(line) && SectionEmoji(Title(line)) == ""
    ensures RewriteHeading(line) == line
  {
  }

  // A line without its quote marker and the one space behind that.
  lemma UnmarkedIs(line: string, n: nat)
    requires QuotedTo(line, n)
    ensures StripQuoteMarker(line) == if n + 1 < |line| && IsSpace(line[n + 1]) then line[n + 2..] else line[n + 1..]
  {
    LStripAt(line, n);
  }

  // Prose: a paragraph that is not wholly a quotation.
  ghost predicate ProseAt(blocks: seq<Block>, i: int) {
    0 <= i < |blocks| && blocks[i].Para? && exists k :: 0 <= k < |blocks[i].lines| && !QuotedLine(blocks[i].lines[k])
  }

  // A heading that opens a section.
  ghost predicate SectionAt(blocks: seq<Block>, i: int) {
    0 <= i < |blocks| && blocks[i].Heading? && "###" <= blocks[i].line
  }

  // The first prose, when no section is opened before it.
  ghost predicate SummaryAt(blocks: seq<Block>, i: int) {
    ProseAt(blocks, i) && forall j | 0 <= j < i :: !ProseAt(blocks, j) && !SectionAt(blocks, j)
  }

  ghost function ShownAs(blocks: seq<Block>, i: nat): seq<string>
    requires i < |blocks|
  {
    match blocks[i]
    case Empty => [""]
    case Fence(line) => [line]
    case Raw(line) => [line]
    case Heading(line) => [RewriteHeading(line)]
    case Item(lines) => [OneLine(Pieces(lines))]
    case Para(lines) =>
      if ProseAt(blocks, i) then
        (if SummaryAt(blocks, i) then [HIGHLIGHTS, ""] else []) + [OneLine(Pieces(lines))]
      else if Pieces(Unquoted(lines)) == [] then []
      else ["> " + OneLine(Pieces(Unquoted(lines)))]
  }

  ghost function AllShown(blocks: seq<Block>, n: nat): seq<string>
    requires n <= |blocks|
  {
    if n == 0 then [] else AllShown(blocks, n - 1) + ShownAs(blocks, n - 1)
  }

  lemma SectionLevel(line: string)
    ensures Level(line) >= 3 <==> "###" <= line
  {
    LevelMeaning(line);
    if "###" <= line {
      assert line[0] == '#' && line[1] == '#' && line[2] == '#';
    }
  }

  lemma ProseIff(blocks: seq<Block>, i: nat)
    requires i < |blocks| && blocks[i].Para?
    ensures ProseAt(blocks, i) <==> !WhollyQuoted(blocks[i].lines)
  {
    forall k | 0 <= k < |blocks[i].lines|
      ensures IsBlockquote(blocks[i].lines[k]) <==> QuotedLine(blocks[i].lines[k])
    {
      QuotedIff(blocks[i].lines[k]);
    }
  }

  lemma {:induction false} PiecesNone(lines: seq<string>)
    ensures Pieces(lines) == [] <==> forall i | 0 <= i < |lines| :: Blank(lines[i])
  {
    if lines != [] {
      PiecesNone(lines[1..]);
      FirstOrRest(lines);
      assert forall i | 0 < i < |lines| :: lines[i] == lines[1..][i - 1];
    }
  }

  lemma NoLineNoPieces(lines: seq<string>)
    ensures OneLine(Pieces(lines)) == "" <==> Pieces(lines) == []
  {
    JoinIsOneLine(lines);
    if Pieces(lines) != [] {
      HyphenOfLast(Pieces(lines));
    }
  }

  lemma ProseHasPieces(lines: seq<string>)
    requires WellMade(Para(lines), false)
    ensures OneLine(Pieces(lines)) != ""
  {
    NoLineNoPieces(lines);
    PiecesNone(lines);
    RStripMeaning(lines[0]);
  }

  // Whether the summary is still to come.
  ghost predicate NoneYet(blocks: seq<Block>, n: nat) {
    forall j | 0 <= j < n :: !ProseAt(blocks, j) && !SectionAt(blocks, j)
  }

  lemma NoneYetMore(blocks: seq<Block>, n: nat)
    ensures NoneYet(blocks, n + 1) <==> NoneYet(blocks, n) && !ProseAt(blocks, n) && !SectionAt(blocks, n)
  {
  }

  lemma BlockIsShown(blocks: seq<Block>, i: nat)
    requires i < |blocks| && (blocks[i].Para? ==> WellMade(blocks[i], false))
    ensures RenderBlock(blocks[i], NoneYet(blocks, i)) == ShownAs(blocks, i)
    ensures StillDue(blocks[i], NoneYet(blocks, i)) <==> NoneYet(blocks, i + 1)
  {
    NoneYetMore(blocks, i);
    match blocks[i]
    case Heading(line) => SectionLevel(line);
    case Item(lines) => JoinIsOneLine(lines);
    case Para(lines) =>
      ProseIff(blocks, i);
      JoinIsOneLine(lines);
      JoinIsOneLine(Unquoted(lines));
      NoLineNoPieces(Unquoted(lines));
      ProseHasPieces(lines);
    case _ =>
  }

  lemma {:induction false} ParasAreWellMade(blocks: seq<Block>, fenced: bool, i: nat)
    requires LaidOut(blocks, fenced) && i < |blocks| && blocks[i].Para?
    ensures WellMade(blocks[i], false)
    decreases |blocks|
  {
    if i > 0 {
      ParasAreWellMade(blocks[1..], FencedBy(blocks[0], fenced), i - 1);
    }
  }

  lemma {:induction false} AllIsShown(blocks: seq<Block>, n: nat)
    requires LaidOut(blocks, false) && n <= |blocks|
    ensures Render(blocks[..n], true) == AllShown(blocks, n)
    ensures DueAfter(blocks[..n], true) <==> NoneYet(blocks, n)
  {
    if n > 0 {
      var i := n - 1;
      AllIsShown(blocks, i);
      TakeMore(blocks, i);
      RenderSum(blocks[..i], [blocks[i]], true);
      RenderOne(blocks[i], DueAfter(blocks[..i], true));
      if blocks[i].Para? {
        ParasAreWellMade(blocks, false, i);
      }
      BlockIsShown(blocks, i);
    }
  }

  // What a text comes out as: the parts of its layout, one after the other.
  lemma TransformedIs(lines: seq<string>, blocks: seq<Block>)
    requires LaidOut(blocks, false) && Sources(blocks) == Normal(lines, false)
    ensures Transformed(lines) == TrimEnd(AllShown(blocks, |blocks|))
  {
    LayoutIff(lines, blocks);
    AllIsShown(blocks, |blocks|);
    TakeAll(blocks);
  }

  // ---------- Texts of one part ----------

  lemma SourcesOfOne(b: Block)
    ensures Sources([b]) == SourceOf(b)
  {
    assert [b][1..] == [];
    SumOfEmpty(SourceOf(b));
  }

  function Trimmed(lines: seq<string>): (r: seq<string>)
    ensures |r| == |lines|
  {
    seq(|lines|, i requires 0 <= i < |lines| => RStrip(lines[i]))
  }

  lemma {:induction false} NormalOfText(lines: seq<string>)
    requires forall i | 0 <= i < |lines| :: !("```" <= RStrip(lines[i]))
    ensures Normal(lines, false) == Trimmed(lines)
  {
    if lines != [] {
      NormalOfText(lines[1..]);
      assert Trimmed(lines) == [RStrip(lines[0])] + Trimmed(lines[1..]);
    }
  }

  lemma {:induction false} LStripMore(s: string, c: char)
    requires IsSpace(c)
    ensures LStrip(s + [c]) == if Blank(s) then "" else LStrip(s) + [c]
  {
    if s == "" {
      SumOfEmpty([c]);
      assert [c][1..] == "";
    } else {
      TailOfSum(s, [c]);
      if IsSpace(s[0]) {
        LStripMore(s[1..], c);
        assert Blank(s) <==> Blank(s[1..]) by {
          SplitFirst(s);
          if Blank(s[1..]) {
            assert forall i | 0 < i < |s| :: s[i] == s[1..][i - 1];
          }
        }
      }
    }
  }

  lemma {:induction false} StripOfRStrip(s: string)
    ensures Strip(RStrip(s)) == Strip(s)
  {
    if s != "" && IsSpace(s[|s| - 1]) {
      var init, last := s[..|s| - 1], s[|s| - 1];
      SplitLast(s);
      StripOfRStrip(init);
      LStripMore(init, last);
      LStripMeaning(init);
      SumSlices(LStrip(init), [last]);
    }
  }

  lemma {:induction false} PiecesOfTrimmed(lines: seq<string>)
    ensures Pieces(Trimmed(lines)) == Pieces(lines)
  {
    if lines != [] {
      assert Trimmed(lines)[1..] == Trimmed(lines[1..]);
      PiecesOfTrimmed(lines[1..]);
      StripOfRStrip(lines[0]);
      RStripMeaning(lines[0]);
    }
  }

  lemma KeptAtEnd(init: seq<string>, last: string)
    requires last != ""
    ensures TrimEnd(init + [last]) == init + [last]
  {
    SumSlices(init, [last]);
  }

  lemma OnePart(blocks: seq<Block>)
    requires |blocks| == 1
    ensures AllShown(blocks, 1) == ShownAs(blocks, 0)
  {
    assert AllShown(blocks, 0) == [];
    SumOfEmpty(ShownAs(blocks, 0));
  }

  // What an indented line keeps of its kind without the spaces behind it.
  lemma WrappedIsText(line: string)
    requires WrappedLine(line) && !Blank(line)
    ensures TextLine(RStrip(line)) && WrappedLine(RStrip(line))
  {
    var s := RStrip(line);
    RStripMeaning(line);
    RStripTwice(line);
    KindsOf(s);
    if IsListItem(s) {
      ItemFirst(s);
    }
    assert s[0] == line[0];
    if "  " <= line {
      SecondStays(line);
    }
    QuotedPrefix(s, line);
  }

  lemma QuotedPrefix(s: string, line: string)
    requires s <= line
    ensures QuotedLine(s) ==> QuotedLine(line)
  {
    if n :| QuotedTo(s, n) {
      assert line[..n] == s[..n] && QuotedTo(line, n);
    }
  }

  lemma SecondStays(line: string)
    requires "  " <= line && !Blank(line)
    ensures "  " <= RStrip(line)
  {
    var s := RStrip(line);
    RStripMeaning(line);
    assert IsSpace(line[0]) && |s| != 1;
    assert s[1] == line[1];
  }

  // A bullet and the lines it is wrapped over, by two spaces or a tab, are one line.
  lemma BulletIsOneLine(first: string, more: seq<string>)
    requires BulletLine(RStrip(first)) && forall i | 0 <= i < |more| :: WrappedLine(more[i]) && !Blank(more[i])
    ensures Transformed([first] + more) == [OneLine(Pieces([first] + more))]
  {
    var lines := [first] + more;
    var text := Trimmed(lines);
    BulletLayout(first, more);
    SourcesOfOne(Item(text));
    NormalOfText(lines);
    TransformedIs(lines, [Item(text)]);
    OnePart([Item(text)]);
    PiecesOfTrimmed(lines);
    BulletHasText(first, more);
    KeptAtEnd([], OneLine(Pieces(lines)));
    SumOfEmpty([OneLine(Pieces(lines))]);
  }

  lemma BulletLayout(first: string, more: seq<string>)
    requires BulletLine(RStrip(first)) && forall i | 0 <= i < |more| :: WrappedLine(more[i]) && !Blank(more[i])
    ensures var lines := [first] + more;
            LaidOut([Item(Trimmed(lines))], false) && forall i | 0 <= i < |lines| :: !("```" <= RStrip(lines[i]))
  {
    var lines := [first] + more;
    var text := Trimmed(lines);
    NotBoth(RStrip(first));
    RStripTwice(first);
    forall i | 0 < i < |lines|
      ensures TextLine(text[i]) && WrappedLine(text[i])
    {
      assert lines[i] == more[i - 1];
      WrappedIsText(lines[i]);
    }
    forall i | 0 <= i < |lines|
      ensures !("```" <= RStrip(lines[i]))
    {
      assert text[i] == RStrip(lines[i]);
    }
    assert [Item(text)][1..] == [];
  }

  lemma BulletHasText(first: string, more: seq<string>)
    requires BulletLine(RStrip(first))
    ensures OneLine(Pieces([first] + more)) != ""
  {
    NotBoth(RStrip(first));
    RStripMeaning(first);
    NoLineNoPieces([first] + more);
    PiecesNone([first] + more);
    assert ([first] + more)[0] == first;
  }

  // Lines of prose, line `i` of which is no quotation, are one line, under the Highlights
  // heading as they come first.
  lemma ProseIsOneLine(lines: seq<string>, i: nat)
    requires i < |lines| && !QuotedLine(RStrip(lines[i]))
    requires forall k | 0 <= k < |lines| :: TextLine(RStrip(lines[k]))
    ensures Transformed(lines) == [HIGHLIGHTS, ""] + [OneLine(Pieces(lines))]
  {
    ProseIsShown(lines);
    ProseHasText(lines);
    SummaryAlone([Para(Trimmed(lines))], Trimmed(lines), i);
    PiecesOfTrimmed(lines);
    KeptAtEnd([HIGHLIGHTS, ""], OneLine(Pieces(lines)));
  }

  lemma ProseHasText(lines: seq<string>)
    requires lines != [] && forall i | 0 <= i < |lines| :: TextLine(RStrip(lines[i]))
    ensures OneLine(Pieces(lines)) != ""
  {
    ParaLayout(Trimmed(lines));
    ProseHasPieces(Trimmed(lines));
    PiecesOfTrimmed(lines);
  }

  lemma ProseIsShown(lines: seq<string>)
    requires lines != [] && forall i | 0 <= i < |lines| :: TextLine(RStrip(lines[i]))
    ensures Transformed(lines) == TrimEnd(ShownAs([Para(Trimmed(lines))], 0))
  {
    ParaLayout(Trimmed(lines));
    SourcesOfOne(Para(Trimmed(lines)));
    NormalOfText(lines);
    TransformedIs(lines, [Para(Trimmed(lines))]);
    OnePart([Para(Trimmed(lines))]);
  }

  lemma ParaLayout(lines: seq<string>)
    requires lines != [] && forall i | 0 <= i < |lines| :: TextLine(lines[i])
    ensures LaidOut([Para(lines)], false) && WellMade(Para(lines), false)
  {
    assert [Para(lines)][1..] == [];
  }

  lemma SummaryAlone(blocks: seq<Block>, lines: seq<string>, i: nat)
    requires blocks == [Para(lines)] && i < |lines| && !QuotedLine(lines[i])
    ensures ShownAs(blocks, 0) == [HIGHLIGHTS, ""] + [OneLine(Pieces(lines))]
  {
    assert ProseAt(blocks, 0);
    assert SummaryAt(blocks, 0);
  }
}
