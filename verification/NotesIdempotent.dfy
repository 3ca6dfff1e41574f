// The formatter's claim that running it twice changes nothing, and exactly when
// that is so.
module NotesIdempotent {
  import opened Characters
  import opened Sequences
  import opened Text
  import opened ReleaseNotes
  import opened NotesBlocks

  // ---------- What the blocks of a text look like ----------

  predicate Prose(line: string) {
    line != "" && RStrip(line) == line && !IsFence(line) && !IsHeading(line) && !IsListItem(line)
  }

  predicate ItemStart(line: string) {
    line != "" && RStrip(line) == line && IsListItem(line) && !IsFence(line) && !IsHeading(line)
  }

  ghost predicate FitsHere(b: Block, fenced: bool, afterPara: bool) {
    match b
    case Empty => !fenced
    case Fence(line) => IsFence(line) && RStrip(line) == line
    case Raw(line) => fenced && !IsFence(RStrip(line))
    case Heading(line) => !fenced && line != "" && RStrip(line) == line && IsHeading(line)
    case Item(lines) => !fenced && lines != [] && ItemStart(lines[0])
    case Para(lines) => !fenced && !afterPara && lines != [] && forall i | 0 <= i < |lines| :: Prose(lines[i])
  }

  predicate FencedAfter(b: Block, fenced: bool) { if b.Fence? then !fenced else fenced }

  // Two paragraphs never touch, and a verbatim line is no fence.
  ghost predicate Shape(blocks: seq<Block>, fenced: bool, afterPara: bool)
    decreases |blocks|
  {
    blocks == [] ||
    (FitsHere(blocks[0], fenced, afterPara) && Shape(blocks[1..], FencedAfter(blocks[0], fenced), blocks[0].Para?))
  }

  lemma PutFirst(b: Block, rest: seq<Block>, fenced: bool, afterPara: bool)
    requires FitsHere(b, fenced, afterPara) && Shape(rest, FencedAfter(b, fenced), b.Para?)
    ensures Shape([b] + rest, fenced, afterPara)
  {
    TailOfSum([b], rest);
    assert [b][1..] == [];
    SumOfEmpty(rest);
  }

  ghost predicate OpenShape(open: Open, fenced: bool) {
    match open
    case Closed => true
    case InPara(lines) => FitsHere(Para(lines), fenced, false)
    case InItem(lines) => FitsHere(Item(lines), fenced, false)
  }

  // A block that may follow anything, put behind the one being closed.
  lemma CloseFirst(open: Open, rest: seq<Block>, fenced: bool, afterPara: bool)
    requires OpenShape(open, fenced) && (afterPara ==> open.InItem?)
    requires Shape(rest, fenced, open.InPara?)
    ensures Shape(Close(open) + rest, fenced, afterPara)
  {
    SumOfEmpty(rest);
    if !open.Closed? {
      PutFirst(Close(open)[0], rest, fenced, afterPara);
      assert Close(open) == [Close(open)[0]];
    }
  }

  lemma {:induction false} BlocksShape(lines: seq<string>, fenced: bool, open: Open, afterPara: bool)
    requires OpenShape(open, fenced) && (afterPara ==> open.InItem?)
    ensures Shape(Blocks(lines, fenced, open), fenced, afterPara)
    decreases |lines|, 1
  {
    if lines == [] {
      CloseFirst(open, [], fenced, afterPara);
      SumOfEmpty(Close(open));
    } else {
      var line := RStrip(lines[0]);
      RStripMeaning(lines[0]);
      RStripMeaning(line);
      var step := Read(lines[0], fenced, open);
      var rest := Blocks(lines[1..], step.fenced, step.open);
      if IsFence(line) {
        ThenBlock(lines, Fence(line), fenced, open, afterPara);
      } else if fenced {
        BlocksShape(lines[1..], true, open, false);
        PutFirst(Raw(lines[0]), rest, true, false);
      } else if line == "" {
        ThenBlock(lines, Empty, fenced, open, afterPara);
      } else if IsHeading(line) {
        ThenBlock(lines, Heading(line), fenced, open, afterPara);
      } else if IsListItem(line) {
        BlocksShape(lines[1..], false, step.open, open.InPara?);
        CloseFirst(open, rest, fenced, afterPara);
      } else if open.InItem? && IsContinuation(line) {
        BlocksShape(lines[1..], false, step.open, afterPara);
        SumOfEmpty(rest);
      } else {
        BlocksShape(lines[1..], false, step.open, false);
        CloseFirst(if open.InItem? then open else Closed, rest, fenced, afterPara);
        SumOfEmpty(rest);
      }
    }
  }

  lemma {:induction false} ThenBlock(lines: seq<string>, b: Block, fenced: bool, open: Open, afterPara: bool)
    requires lines != [] && OpenShape(open, fenced) && (afterPara ==> open.InItem?)
    requires Read(lines[0], fenced, open) == Step(Close(open) + [b], FencedAfter(b, fenced), Closed)
    requires FitsHere(b, fenced, false) && !b.Para?
    ensures Shape(Blocks(lines, fenced, open), fenced, afterPara)
    decreases |lines|, 0
  {
    var rest := Blocks(lines[1..], FencedAfter(b, fenced), Closed);
    BlocksShape(lines[1..], FencedAfter(b, fenced), Closed, false);
    PutFirst(b, rest, fenced, open.InPara?);
    CloseFirst(open, [b] + rest, fenced, afterPara);
    SumAssoc(Close(open), [b], rest);
  }

  // ---------- Reading a transformed line again ----------

  predicate Unindented(line: string) { line == "" || !IsSpace(line[0]) }

  // A line that ends whatever came before it.
  predicate Breaks(line: string) {
    RStrip(line) == line && (line == "" || IsFence(line) || IsHeading(line) || IsListItem(line))
  }

  lemma TightLine(line: string)
    requires Tight(line)
    ensures RStrip(line) == line && Strip(line) == line && LStrip(line) == line
  {
    LStripMeaning(line);
    RStripMeaning(line);
    StripMeaning(line);
  }

  lemma {:induction false} DigitsOfPrefix(p: string, s: string)
    requires p <= s && Digits(p) < |p|
    ensures Digits(s) == Digits(p)
  {
    if p != "" && IsDecimal(p[0]) {
      DigitsOfPrefix(p[1..], s[1..]);
    }
  }

  lemma {:induction false} DigitsBound(p: string)
    ensures Digits(p) <= |p|
    ensures Digits(p) > 0 ==> IsDecimal(p[0])
  {
    if p != "" && IsDecimal(p[0]) {
      DigitsBound(p[1..]);
    }
  }

  // What starts with a list item is one.
  lemma ItemOfPrefix(p: string, s: string)
    requires ItemStart(p) && p <= s && Tight(s)
    ensures ItemStart(s) && !IsSpace(s[0])
  {
    TightLine(s);
    ItemFirst(p);
    DigitsBound(p);
    if Digits(p) < |p| {
      DigitsOfPrefix(p, s);
    }
    assert s[0] == p[0];
    assert Level(s) == 0;
  }

  lemma ItemIsUnindented(line: string)
    requires ItemStart(line)
    ensures Tight(line)
  {
    RStripMeaning(line);
    ItemFirst(line);
  }

  lemma JoinedItem(lines: seq<string>)
    requires lines != [] && ItemStart(lines[0])
    ensures ItemStart(JoinLines(lines)) && Tight(JoinLines(lines))
  {
    ItemIsUnindented(lines[0]);
    JoinStartsWithFirst(lines);
    JoinLinesMeaning(lines);
    ItemOfPrefix(lines[0], JoinLines(lines));
  }

  lemma HeadingAgain(line: string)
    requires line != "" && RStrip(line) == line && IsHeading(line)
    ensures var again := RewriteHeading(line);
            again != "" && RStrip(again) == again && IsHeading(again) && !IsFence(again) && again[0] == '#'
  {
    RewriteHeadingOnce(line);
    var again := RewriteHeading(line);
    HashIsNoFence(again);
    if again != line {
      var title := Title(line);
      SectionTitles(title);
      EndsInTitle(line[..Level(line)], SectionEmoji(title), title);
      EndsInText(again);
    }
  }

  lemma HashIsNoFence(line: string)
    requires IsHeading(line)
    ensures line != "" && line[0] == '#' && !IsFence(line)
  {
    LevelMeaning(line);
  }

  lemma EndsInTitle(hashes: string, emoji: string, title: string)
    requires title != ""
    ensures var heading := hashes + (" " + (emoji + (" " + title))); heading[|heading| - 1] == title[|title| - 1]
  {
  }

  lemma EndsInText(line: string)
    requires line != "" && !IsSpace(line[|line| - 1])
    ensures RStrip(line) == line
  {
  }

  lemma ReadHeading(hashes: string, title: string)
    requires 1 <= |hashes| <= 6 && forall i | 0 <= i < |hashes| :: hashes[i] == '#'
    requires title != "" && Tight(title)
    ensures Level(hashes + (" " + title)) == |hashes| && Title(hashes + (" " + title)) == title
    ensures IsHeading(hashes + (" " + title)) && Tight(hashes + (" " + title))
  {
    LevelOfSum(hashes, " " + title);
    SumSlices(hashes, " " + title);
    StripSpaced(title);
  }

  lemma HighlightsAgain()
    ensures Tight(HIGHLIGHTS) && RStrip(HIGHLIGHTS) == HIGHLIGHTS && !IsFence(HIGHLIGHTS)
    ensures Level(HIGHLIGHTS) == 3 && IsHeading(HIGHLIGHTS) && RewriteHeading(HIGHLIGHTS) == HIGHLIGHTS
  {
    var title := "\U{1F680} Highlights";
    assert Tight(title) && HIGHLIGHTS == "###" + (" " + title);
    ReadHeading("###", title);
    TightLine(HIGHLIGHTS);
    assert title[0] as int > 127;
  }

  // The joined text of an unquoted paragraph is seen again as one of three things.
  function Single(line: string): Block {
    if IsHeading(line) then Heading(line) else if IsListItem(line) then Item([line]) else Para([line])
  }

  predicate ProsePara(b: Block) { b.Para? && !WhollyQuoted(b.lines) }

  lemma ProseHasText(lines: seq<string>)
    requires lines != [] && forall i | 0 <= i < |lines| :: Prose(lines[i])
    ensures JoinLines(lines) != "" && Tight(JoinLines(lines))
  {
    JoinLinesMeaning(lines);
    RStripMeaning(lines[0]);
  }

  // How a rendered block is read: one block a line.
  function Twice(b: Block, due: bool): seq<Block> {
    match b
    case Heading(line) => [Heading(RewriteHeading(line))]
    case Item(lines) => [Item([JoinLines(lines)])]
    case Para(lines) =>
      if WhollyQuoted(lines) then (if QuoteText(lines) == "" then [] else [Para(["> " + QuoteText(lines)])])
      else if JoinLines(lines) == "" then []
      else (if due then [Heading(HIGHLIGHTS), Empty] else []) + [Single(JoinLines(lines))]
    case _ => [b]
  }

  // The first line of what follows is not indented, and after a paragraph it is
  // no further prose.
  ghost predicate GoodHead(lines: seq<string>, afterPara: bool) {
    lines != [] ==> Unindented(lines[0]) && (afterPara ==> Breaks(lines[0]))
  }

  lemma QuoteLine(text: string)
    requires text != "" && Tight(text)
    ensures Tight("> " + text) && Prose("> " + text) && IsBlockquote("> " + text)
    ensures StripQuoteMarker("> " + text) == text
  {
    var line := "> " + text;
    TightLine(line);
    assert line[2..] == text;
    NoItem(line);
    assert Level(line) == 0;
  }

  lemma NoItem(line: string)
    requires line != "" && (IsSpace(line[0]) || line[0] in "#>`")
    ensures !IsListItem(line)
  {
    if IsListItem(line) {
      ItemFirst(line);
    }
  }

  lemma {:induction false} HeadOfRendered(blocks: seq<Block>, due: bool, afterPara: bool)
    requires Shape(blocks, false, afterPara)
    ensures GoodHead(Render(blocks, due), afterPara)
    decreases |blocks|
  {
    if blocks != [] {
      var b := blocks[0];
      var rest := Render(blocks[1..], StillDue(b, due));
      match b
      case Empty =>
      case Fence(line) =>
      case Heading(line) => HeadingAgain(line);
      case Item(lines) => JoinedItem(lines);
      case Para(lines) =>
        ProseHasText(lines);
        if WhollyQuoted(lines) {
          HeadOfRendered(blocks[1..], StillDue(b, due), true);
          SumOfEmpty(rest);
        } else {
          assert Unindented(HIGHLIGHTS);
        }
    }
  }

  // ---------- The second pass ----------

  lemma FirstLine(line: string, rest: seq<string>, fenced: bool, open: Open)
    ensures var step := Read(line, fenced, open);
            Blocks([line] + rest, fenced, open) == step.blocks + Blocks(rest, step.fenced, step.open)
  {
    TailOfSum([line], rest);
    assert [line][1..] == [];
    SumOfEmpty(rest);
  }

  // What is open when a line that ends it comes along is closed there.
  lemma ClosesBefore(open: Open, rest: seq<string>)
    requires GoodHead(rest, open.InPara?)
    ensures Blocks(rest, false, open) == Close(open) + Blocks(rest, false, Closed)
  {
    SumOfEmpty(Close(open));
    if rest != [] {
      ReadCloses(rest[0], open);
      var now, later := Read(rest[0], false, Closed), Read(rest[0], false, open);
      SumAssoc(Close(open), now.blocks, Blocks(rest[1..], later.fenced, later.open));
    }
  }

  lemma ReadCloses(raw: string, open: Open)
    requires GoodHead([raw], open.InPara?)
    ensures var now, later := Read(raw, false, Closed), Read(raw, false, open);
            later == Step(Close(open) + now.blocks, now.fenced, now.open)
  {
    RStripMeaning(raw);
    SumOfEmpty(Close(open));
    assert [raw][0] == raw;
  }

  lemma ReadSingle(line: string)
    requires line != "" && Tight(line) && !IsFence(line)
    ensures Read(line, false, Closed) ==
            if IsHeading(line) then Step([Heading(line)], false, Closed)
            else Step([], false, if IsListItem(line) then InItem([line]) else InPara([line]))
  {
    TightLine(line);
    SumOfEmpty([Heading(line)]);
  }

  lemma SingleAgain(line: string, rest: seq<string>)
    requires line != "" && Tight(line) && !IsFence(line) && GoodHead(rest, true)
    ensures Blocks([line] + rest, false, Closed) == [Single(line)] + Blocks(rest, false, Closed)
  {
    ReadSingle(line);
    var step := Read(line, false, Closed);
    FirstLine(line, rest, false, Closed);
    ClosesBefore(step.open, rest);
    SumOfEmpty(Blocks(rest, false, step.open));
  }

  lemma ItemAgain(line: string, rest: seq<string>)
    requires ItemStart(line) && GoodHead(rest, false)
    ensures Blocks([line] + rest, false, Closed) == [Item([line])] + Blocks(rest, false, Closed)
  {
    FirstLine(line, rest, false, Closed);
    SumOfEmpty(Blocks(rest, false, InItem([line])));
    ClosesBefore(InItem([line]), rest);
  }

  lemma HeadingLines(heading: string, rest: seq<string>)
    requires heading != "" && Tight(heading) && IsHeading(heading) && !IsFence(heading)
    ensures Blocks([heading, ""] + rest, false, Closed) == [Heading(heading), Empty] + Blocks(rest, false, Closed)
  {
    assert [heading, ""] == [heading] + [""];
    SumAssoc([heading], [""], rest);
    FirstLine(heading, [""] + rest, false, Closed);
    FirstLine("", rest, false, Closed);
    ReadSingle(heading);
    assert Read("", false, Closed) == Step([Empty], false, Closed);
    assert [Heading(heading), Empty] == [Heading(heading)] + [Empty];
    SumAssoc([Heading(heading)], [Empty], Blocks(rest, false, Closed));
  }

  lemma ProseAgain(line: string, rest: seq<string>, due: bool)
    requires line != "" && Tight(line) && !IsFence(line) && GoodHead(rest, true)
    ensures Blocks((if due then [HIGHLIGHTS, ""] else []) + [line] + rest, false, Closed)
         == (if due then [Heading(HIGHLIGHTS), Empty] else []) + [Single(line)] + Blocks(rest, false, Closed)
  {
    SingleAgain(line, rest);
    if due {
      HighlightsAgain();
      HeadingLines(HIGHLIGHTS, [line] + rest);
      SumAssoc([HIGHLIGHTS, ""], [line], rest);
      SumAssoc([Heading(HIGHLIGHTS), Empty], [Single(line)], Blocks(rest, false, Closed));
    } else {
      SumOfEmpty([line]);
      SumOfEmpty([Single(line)]);
    }
  }

  lemma QuoteAgain(lines: seq<string>, rest: seq<string>, due: bool)
    requires WhollyQuoted(lines) && GoodHead(rest, true)
    ensures Blocks(RenderBlock(Para(lines), due) + rest, false, Closed) ==
            Twice(Para(lines), due) + Blocks(rest, false, Closed)
  {
    JoinLinesMeaning(Unquoted(lines));
    if QuoteText(lines) == "" {
      SumOfEmpty(rest);
      SumOfEmpty(Blocks(rest, false, Closed));
    } else {
      QuoteLine(QuoteText(lines));
      SingleAgain("> " + QuoteText(lines), rest);
    }
  }

  // The lines of one block are read as the same block again, or nearly.
  lemma ReadTwice(b: Block, rest: seq<string>, due: bool, fenced: bool)
    requires FitsHere(b, fenced, false)
    requires ProsePara(b) ==> !IsFence(JoinLines(b.lines))
    requires !FencedAfter(b, fenced) ==> GoodHead(rest, b.Para?)
    ensures Blocks(RenderBlock(b, due) + rest, fenced, Closed) ==
            Twice(b, due) + Blocks(rest, FencedAfter(b, fenced), Closed)
  {
    match b
    case Empty => FirstLine("", rest, false, Closed);
    case Fence(line) => FirstLine(line, rest, fenced, Closed);
    case Raw(line) => FirstLine(line, rest, true, Closed);
    case Heading(line) =>
      HeadingAgain(line);
      FirstLine(RewriteHeading(line), rest, false, Closed);
    case Item(lines) =>
      JoinedItem(lines);
      ItemAgain(JoinLines(lines), rest);
    case Para(lines) =>
      ProseHasText(lines);
      if WhollyQuoted(lines) {
        QuoteAgain(lines, rest, due);
      } else {
        ProseAgain(JoinLines(lines), rest, due);
      }
  }

  // ---------- Exactly when the second pass changes nothing ----------

  // A joined paragraph that is seen again as a section heading gets an emoji, and
  // one seen again as a quotation gets its marker set.
  predicate Steady(text: string) {
    && !TakesEmoji(text)
    && (">" <= text ==> |text| > 2 && text[1] == ' ' && !IsSpace(text[2]))
  }

  predicate SteadyBlock(b: Block) { ProsePara(b) ==> Steady(JoinLines(b.lines)) }

  lemma {:induction false} InkHas(lines: seq<string>, i: nat, c: char)
    requires i < |lines| && c in Ink(lines[i])
    ensures c in InkOf(lines)
  {
    if i < |lines| - 1 {
      InkHas(lines[..|lines| - 1], i, c);
    }
  }

  // Some line of an unquoted paragraph starts with something else than a marker.
  lemma ProseIsNoMarker(lines: seq<string>)
    requires !WhollyQuoted(lines) && forall i | 0 <= i < |lines| :: Prose(lines[i])
    ensures JoinLines(lines) != ">" && !(">" <= JoinLines(lines) && Blank(JoinLines(lines)[1..]))
  {
    var i :| 0 <= i < |lines| && !IsBlockquote(lines[i]);
    LStripMeaning(lines[i]);
    RStripMeaning(lines[i]);
    InkOfLStrip(lines[i]);
    var c := LStrip(lines[i])[0];
    assert Ink(LStrip(lines[i])) == [c] + Ink(LStrip(lines[i])[1..]);
    InkHas(lines, i, c);
    JoinLinesMeaning(lines);
    var text := JoinLines(lines);
    assert c in Ink(text);
    if ">" <= text && Blank(text[1..]) {
      MarkerAlone(text);
      assert false;
    }
  }

  lemma MarkerAlone(text: string)
    requires ">" <= text && Blank(text[1..])
    ensures Ink(text) == ">"
  {
    InkOfBlank(text[1..]);
    SumOfEmpty(">");
  }

  lemma MarkerHides(text: string)
    requires Tight(text) && ">" <= text
    ensures Blank(StripQuoteMarker(text)) ==> |text| == 1
  {
    TightLine(text);
    var inside := StripQuoteMarker(text);
    assert inside != "" ==> inside[|inside| - 1] == text[|text| - 1];
  }

  lemma QuotedAgain(text: string)
    requires Tight(text) && ">" <= text && !Blank(text[1..])
    ensures QuoteText([text]) != ""
    ensures "> " + QuoteText([text]) == text <==> |text| > 2 && text[1] == ' ' && !IsSpace(text[2])
  {
    var inside := StripQuoteMarker(text);
    TightLine(text);
    assert Unquoted([text]) == [inside];
    JoinOne(inside);
    StripMeaning(inside);
    LStripMeaning(inside);
    RStripMeaning(LStrip(inside));
    MarkerHides(text);
    if |text| > 2 && text[1] == ' ' && !IsSpace(text[2]) {
      assert inside == text[2..] && Tight(inside);
      assert text == "> " + inside;
    }
  }

  // What is shown of a single line, and that it is one line.
  lemma SingleShown(text: string)
    requires text != "" && Tight(text) && !IsFence(text) && !(">" <= text && Blank(text[1..]))
    ensures |RenderBlock(Single(text), false)| == 1 && RenderBlock(Single(text), false)[0] != ""
    ensures RenderBlock(Single(text), false) == [text] <==> Steady(text)
  {
    if IsHeading(text) {
      SingleHeading(text);
    } else if IsListItem(text) {
      SingleItem(text);
    } else {
      SinglePara(text);
    }
  }

  lemma SingleItem(text: string)
    requires text != "" && Tight(text) && !IsHeading(text) && IsListItem(text)
    ensures JoinLines([text]) == text && !(">" <= text) && !TakesEmoji(text)
  {
    TightLine(text);
    JoinOne(text);
    ItemFirst(text);
  }

  lemma SinglePara(text: string)
    requires text != "" && Tight(text) && !IsHeading(text) && !IsListItem(text) && !(">" <= text && Blank(text[1..]))
    ensures var shown := RenderBlock(Para([text]), false);
            |shown| == 1 && shown[0] != "" && (shown == [text] <==> Steady(text))
  {
    if ">" <= text {
      QuotedAgain(text);
    } else {
      TightLine(text);
      JoinOne(text);
    }
  }

  lemma SingleHeading(text: string)
    requires text != "" && Tight(text) && IsHeading(text)
    ensures RewriteHeading(text) != "" && !(">" <= text)
    ensures RewriteHeading(text) == text <==> !TakesEmoji(text)
  {
    TightLine(text);
    RewriteHeadingOnce(text);
    HeadingAgain(text);
  }

  // Line for line what a block was rendered as, up to a steadiness.
  ghost predicate Mirrors(again: seq<string>, once: seq<string>, same: bool) {
    && |again| == |once|
    && (forall i | 0 <= i < |once| :: again[i] == "" <==> once[i] == "")
    && (again == once <==> same)
  }

  lemma RenderTwice(b: Block, due: bool, dueAgain: bool, fenced: bool)
    requires FitsHere(b, fenced, false)
    requires ProsePara(b) ==> !IsFence(JoinLines(b.lines))
    requires dueAgain ==> due
    ensures Mirrors(Render(Twice(b, due), dueAgain), RenderBlock(b, due), SteadyBlock(b))
    ensures DueAfter(Twice(b, due), dueAgain) ==> StillDue(b, due)
  {
    match b
    case Empty => RenderOne(b, dueAgain);
    case Fence(_) => RenderOne(b, dueAgain);
    case Raw(_) => RenderOne(b, dueAgain);
    case Heading(line) => HeadingTwice(line, due, dueAgain);
    case Item(lines) => ItemTwice(lines, due, dueAgain);
    case Para(lines) =>
      if WhollyQuoted(lines) {
        QuoteTwice(lines, due, dueAgain);
      } else {
        ProseTwice(lines, due, dueAgain);
      }
  }

  lemma HeadingTwice(line: string, due: bool, dueAgain: bool)
    requires line != "" && RStrip(line) == line && IsHeading(line) && (dueAgain ==> due)
    ensures Mirrors(Render(Twice(Heading(line), due), dueAgain), RenderBlock(Heading(line), due), true)
    ensures DueAfter(Twice(Heading(line), due), dueAgain) ==> StillDue(Heading(line), due)
  {
    RewriteHeadingOnce(line);
    RenderOne(Heading(RewriteHeading(line)), dueAgain);
  }

  lemma ItemTwice(lines: seq<string>, due: bool, dueAgain: bool)
    requires lines != [] && ItemStart(lines[0])
    ensures Mirrors(Render(Twice(Item(lines), due), dueAgain), RenderBlock(Item(lines), due), true)
    ensures DueAfter(Twice(Item(lines), due), dueAgain) == dueAgain
  {
    JoinedItem(lines);
    TightLine(JoinLines(lines));
    JoinOne(JoinLines(lines));
    RenderOne(Item([JoinLines(lines)]), dueAgain);
  }

  lemma QuoteTwice(lines: seq<string>, due: bool, dueAgain: bool)
    requires WhollyQuoted(lines)
    ensures Mirrors(Render(Twice(Para(lines), due), dueAgain), RenderBlock(Para(lines), due), true)
    ensures DueAfter(Twice(Para(lines), due), dueAgain) == dueAgain
  {
    var text := QuoteText(lines);
    JoinLinesMeaning(Unquoted(lines));
    if text != "" {
      QuoteLine(text);
      var again := Para(["> " + text]);
      RenderOne(again, dueAgain);
      assert Unquoted(again.lines) == [text];
      JoinOne(text);
      TightLine(text);
    }
  }

  lemma ProseTwice(lines: seq<string>, due: bool, dueAgain: bool)
    requires !WhollyQuoted(lines) && lines != [] && forall i | 0 <= i < |lines| :: Prose(lines[i])
    requires !IsFence(JoinLines(lines)) && (dueAgain ==> due)
    ensures Mirrors(Render(Twice(Para(lines), due), dueAgain), RenderBlock(Para(lines), due), Steady(JoinLines(lines)))
    ensures !DueAfter(Twice(Para(lines), due), dueAgain)
  {
    ProseHasText(lines);
    ProseIsNoMarker(lines);
    SingleShown(JoinLines(lines));
    if due {
      SummaryTwice(JoinLines(lines), dueAgain);
    } else {
      SumOfEmpty([Single(JoinLines(lines))]);
      SumOfEmpty([JoinLines(lines)]);
      RenderOne(Single(JoinLines(lines)), false);
    }
  }

  lemma SummaryTwice(text: string, dueAgain: bool)
    requires Mirrors(RenderBlock(Single(text), false), [text], Steady(text))
    ensures Mirrors(Render([Heading(HIGHLIGHTS), Empty] + [Single(text)], dueAgain),
                    [HIGHLIGHTS, ""] + [text], Steady(text))
    ensures !DueAfter([Heading(HIGHLIGHTS), Empty] + [Single(text)], dueAgain)
  {
    HighlightsAgain();
    LeadRendered(HIGHLIGHTS, Single(text), dueAgain);
    MirrorsSum([HIGHLIGHTS, ""], [HIGHLIGHTS, ""], RenderBlock(Single(text), false), [text], true, Steady(text));
  }

  lemma LeadRendered(heading: string, b: Block, due: bool)
    requires Level(heading) >= 3 && RewriteHeading(heading) == heading
    ensures Render([Heading(heading), Empty] + [b], due) == [heading, ""] + RenderBlock(b, false)
    ensures !DueAfter([Heading(heading), Empty] + [b], due)
  {
    var lead := [Heading(heading), Empty];
    RenderSum(lead, [b], due);
    assert lead[1..] == [Empty];
    RenderOne(Empty, false);
    RenderOne(b, false);
    assert Render(lead, due) == [heading] + [""];
  }

  lemma MirrorsSum(a: seq<string>, b: seq<string>, c: seq<string>, d: seq<string>, first: bool, rest: bool)
    requires Mirrors(a, b, first) && Mirrors(c, d, rest)
    ensures Mirrors(a + c, b + d, first && rest)
  {
    if a + c == b + d {
      SumSlices(a, c);
      SumSlices(b, d);
    }
  }

  ghost predicate NoFencedProse(blocks: seq<Block>) {
    forall i | 0 <= i < |blocks| && ProsePara(blocks[i]) :: !IsFence(JoinLines(blocks[i].lines))
  }

  ghost predicate AllSteady(blocks: seq<Block>) {
    forall i | 0 <= i < |blocks| :: SteadyBlock(blocks[i])
  }

  // An indented fence was taken for prose, and is one when it is read again.
  ghost predicate FencedProse(b: Block) { ProsePara(b) && IsFence(JoinLines(b.lines)) }

  ghost predicate NoFenceLine(lines: seq<string>) {
    forall i | 0 <= i < |lines| :: !IsFence(RStrip(lines[i]))
  }

  // The first fence line, or the length.
  function FirstFence(lines: seq<string>): (n: nat)
    ensures n <= |lines| && NoFenceLine(lines[..n])
    ensures n < |lines| ==> IsFence(RStrip(lines[n]))
  {
    if lines == [] || IsFence(RStrip(lines[0])) then 0
    else
      var n := FirstFence(lines[1..]);
      assert lines[..n + 1] == [lines[0]] + lines[1..][..n];
      n + 1
  }

  // Lines that are their own formatting, when read from inside code or outside.
  ghost predicate Settled(lines: seq<string>, fenced: bool)
    decreases |lines|
  {
    var n := FirstFence(lines);
    && (fenced || Render(Blocks(lines[..n], false, Closed), false) == lines[..n])
    && (n < |lines| ==> RStrip(lines[n]) == lines[n] && Settled(lines[n + 1..], !fenced))
  }

  // Read again, the first such fence opens a code block, and behind it code and text
  // change places: the text stays as it is, and so does code that is its own formatting.
  ghost predicate FenceIsHarmless(blocks: seq<Block>, due: bool)
    decreases |blocks|
  {
    blocks == [] ||
    var rest, dueNext := blocks[1..], StillDue(blocks[0], due);
    if FencedProse(blocks[0]) then Settled(Render(rest, dueNext), true) else FenceIsHarmless(rest, dueNext)
  }

  // The paragraphs before it are steady.
  ghost predicate SteadyToFence(blocks: seq<Block>)
    decreases |blocks|
  {
    blocks == [] || FencedProse(blocks[0]) || (SteadyBlock(blocks[0]) && SteadyToFence(blocks[1..]))
  }

  lemma {:induction false} WithoutFencedProse(blocks: seq<Block>, due: bool)
    requires NoFencedProse(blocks)
    ensures FenceIsHarmless(blocks, due) && (SteadyToFence(blocks) <==> AllSteady(blocks))
    decreases |blocks|
  {
    if blocks != [] {
      WithoutFencedProse(blocks[1..], StillDue(blocks[0], due));
      AllSteadyCons(blocks);
    }
  }

  function Raws(lines: seq<string>): seq<Block> { seq(|lines|, i requires 0 <= i < |lines| => Raw(lines[i])) }

  lemma {:induction false} RawsShown(lines: seq<string>, due: bool)
    ensures Render(Raws(lines), due) == lines
  {
    if lines != [] {
      RawsShown(lines[1..], due);
      assert Raws(lines)[1..] == Raws(lines[1..]);
      SplitFirst(lines);
    }
  }

  // What comes before a fence line is read without it.
  lemma {:induction false} BlocksToFence(a: seq<string>, tail: seq<string>, open: Open)
    requires NoFenceLine(a) && (tail == [] || IsFence(RStrip(tail[0])))
    ensures Blocks(a + tail, false, open) ==
            Blocks(a, false, open) + (if tail == [] then [] else Blocks(tail, false, Closed))
    decreases |a|
  {
    if a == [] {
      SumOfEmpty(tail);
      SumOfEmpty(Close(open));
      if tail != [] {
        var f, rest := Fence(RStrip(tail[0])), Blocks(tail[1..], true, Closed);
        SumAssoc(Close(open), [f], rest);
        SumOfEmpty([f]);
      }
    } else {
      TailOfSum(a, tail);
      var step := Read(a[0], false, open);
      BlocksToFence(a[1..], tail, step.open);
      SumAssoc(step.blocks, Blocks(a[1..], false, step.open), if tail == [] then [] else Blocks(tail, false, Closed));
    }
  }

  lemma {:induction false} RawToFence(a: seq<string>, tail: seq<string>)
    requires NoFenceLine(a)
    ensures Blocks(a + tail, true, Closed) == Raws(a) + Blocks(tail, true, Closed)
  {
    if a == [] {
      SumOfEmpty(tail);
      SumOfEmpty(Blocks(tail, true, Closed));
    } else {
      TailOfSum(a, tail);
      RawToFence(a[1..], tail);
      assert Raws(a)[1..] == Raws(a[1..]);
      SplitFirst(Raws(a));
      SumAssoc([Raw(a[0])], Raws(a[1..]), Blocks(tail, true, Closed));
    }
  }

  lemma {:induction false} NotDue(blocks: seq<Block>)
    ensures !DueAfter(blocks, false)
  {
    if blocks != [] {
      NotDue(blocks[1..]);
    }
  }

  // ---------- Formatting again never lengthens ----------

  lemma {:induction false} NotLonger(blocks: seq<Block>)
    ensures |Render(blocks, false)| <= |blocks|
  {
    if blocks != [] {
      NotLonger(blocks[1..]);
    }
  }

  lemma ReadIsOne(raw: string, fenced: bool, open: Open)
    ensures var step := Read(raw, fenced, open); |step.blocks| + |Close(step.open)| <= 1 + |Close(open)|
  {
  }

  lemma {:induction false} FewBlocks(lines: seq<string>, fenced: bool, open: Open)
    ensures |Blocks(lines, fenced, open)| <= |lines| + |Close(open)|
    decreases |lines|
  {
    if lines != [] {
      var step := Read(lines[0], fenced, open);
      ReadIsOne(lines[0], fenced, open);
      FewBlocks(lines[1..], step.fenced, step.open);
    }
  }

  // The lines as they come out when they are formatted again behind the summary.
  function Again(lines: seq<string>, fenced: bool): seq<string> { Render(Blocks(lines, fenced, Closed), false) }

  lemma AgainIsNotLonger(lines: seq<string>, fenced: bool)
    ensures |Again(lines, fenced)| <= |lines|
  {
    FewBlocks(lines, fenced, Closed);
    NotLonger(Blocks(lines, fenced, Closed));
  }

  lemma CancelSum<T>(x: seq<T>, y: seq<T>, a: seq<T>, b: seq<T>)
    requires |x| <= |a| && |y| <= |b|
    ensures x + y == a + b <==> x == a && y == b
  {
    if x + y == a + b {
      assert |x + y| == |a + b|;
      SumSlices(x, y);
      SumSlices(a, b);
    }
  }

  lemma FenceThen(tail: seq<string>, fenced: bool)
    requires tail != [] && IsFence(RStrip(tail[0]))
    ensures Again(tail, fenced) == [RStrip(tail[0])] + Again(tail[1..], !fenced)
  {
    var f, rest := Fence(RStrip(tail[0])), Blocks(tail[1..], !fenced, Closed);
    SumOfEmpty([f]);
    assert Blocks(tail, fenced, Closed) == [f] + rest;
    RenderSum([f], rest, false);
    RenderOne(f, false);
  }

  lemma AgainInParts(a: seq<string>, tail: seq<string>, fenced: bool)
    requires NoFenceLine(a) && (tail == [] || IsFence(RStrip(tail[0])))
    ensures Again(a + tail, fenced) == (if fenced then a else Again(a, false)) + Again(tail, fenced)
  {
    if fenced {
      RawToFence(a, tail);
      RawsShown(a, false);
      RenderSum(Raws(a), Blocks(tail, true, Closed), false);
      NotDue(Raws(a));
    } else {
      BlocksToFence(a, tail, Closed);
      SumOfEmpty(Blocks(a, false, Closed));
      RenderSum(Blocks(a, false, Closed), Blocks(tail, false, Closed), false);
      NotDue(Blocks(a, false, Closed));
    }
  }

  // Settled lines are those that come out as they are.
  lemma {:induction false} SettledIff(lines: seq<string>, fenced: bool)
    ensures Again(lines, fenced) == lines <==> Settled(lines, fenced)
    decreases |lines|
  {
    var n := FirstFence(lines);
    var a, tail := lines[..n], lines[n..];
    var head := if fenced then a else Again(a, false);
    CutAt(lines, n);
    AgainInParts(a, tail, fenced);
    AgainIsNotLonger(a, false);
    AgainIsNotLonger(tail, fenced);
    CancelSum(head, Again(tail, fenced), a, tail);
    if n < |lines| {
      DropOne(lines, n);
      FenceThen(tail, fenced);
      SettledIff(lines[n + 1..], !fenced);
      SplitFirst(tail);
      AgainIsNotLonger(tail[1..], !fenced);
      CancelSum([RStrip(tail[0])], Again(tail[1..], !fenced), [tail[0]], tail[1..]);
    } else {
      assert Again([], fenced) == [];
    }
  }

  lemma DropOne<T>(s: seq<T>, n: nat)
    requires n < |s|
    ensures s[n..][0] == s[n] && s[n..][1..] == s[n + 1..]
  {
  }

  lemma FenceAgain(text: string, rest: seq<string>, due: bool)
    requires text != "" && Tight(text) && IsFence(text)
    ensures Blocks((if due then [HIGHLIGHTS, ""] else []) + [text] + rest, false, Closed)
         == (if due then [Heading(HIGHLIGHTS), Empty] else []) + ([Fence(text)] + Blocks(rest, true, Closed))
  {
    TightLine(text);
    FirstLine(text, rest, false, Closed);
    assert Read(text, false, Closed) == Step([] + [Fence(text)], true, Closed);
    SumOfEmpty([Fence(text)]);
    if due {
      HighlightsAgain();
      HeadingLines(HIGHLIGHTS, [text] + rest);
      SumAssoc([HIGHLIGHTS, ""], [text], rest);
    } else {
      SumOfEmpty([text]);
      SumOfEmpty([Fence(text)] + Blocks(rest, true, Closed));
    }
  }

  lemma LeadThen(heading: string, tail: seq<Block>, due: bool)
    requires Level(heading) >= 3 && RewriteHeading(heading) == heading
    ensures Render([Heading(heading), Empty] + tail, due) == [heading, ""] + Render(tail, false)
  {
    var lead := [Heading(heading), Empty];
    RenderSum(lead, tail, due);
    assert lead[1..] == [Empty];
    RenderOne(Empty, false);
    assert Render(lead, due) == [heading] + [""];
  }

  lemma OpenShown(text: string, inner: seq<Block>)
    ensures Render([Fence(text)] + inner, false) == [text] + Render(inner, false)
  {
    RenderSum([Fence(text)], inner, false);
    RenderOne(Fence(text), false);
  }

  lemma FenceShown(text: string, inner: seq<Block>, due: bool, dueAgain: bool)
    requires dueAgain ==> due
    ensures Render((if due then [Heading(HIGHLIGHTS), Empty] else []) + ([Fence(text)] + inner), dueAgain)
         == (if due then [HIGHLIGHTS, ""] else []) + [text] + Render(inner, false)
  {
    OpenShown(text, inner);
    if due {
      HighlightsAgain();
      LeadThen(HIGHLIGHTS, [Fence(text)] + inner, dueAgain);
      SumAssoc([HIGHLIGHTS, ""], [text], Render(inner, false));
    } else {
      SumOfEmpty([Fence(text)] + inner);
      SumOfEmpty([text]);
    }
  }

  // Behind a fence that was taken for prose, code and text change places.
  lemma FenceTwice(b: Block, once: seq<string>, due: bool, dueAgain: bool)
    requires FitsHere(b, false, false) && FencedProse(b) && (dueAgain ==> due)
    ensures var again := Render(Blocks(RenderBlock(b, due) + once, false, Closed), dueAgain);
            again == RenderBlock(b, due) + Again(once, true)
  {
    var text := JoinLines(b.lines);
    ProseHasText(b.lines);
    FenceAgain(text, once, due);
    FenceShown(text, Blocks(once, true, Closed), due, dueAgain);
  }

  // Formatted again, a text never gets longer, and stays as it is exactly when it is
  // steady up to the first such fence, and settled behind it.
  lemma {:induction false} SecondPass(blocks: seq<Block>, fenced: bool, afterPara: bool, due: bool, dueAgain: bool)
    requires Shape(blocks, fenced, afterPara) && (dueAgain ==> due)
    ensures var again, once := Render(Blocks(Render(blocks, due), fenced, Closed), dueAgain), Render(blocks, due);
            |again| <= |once| && (again == once <==> SteadyToFence(blocks) && FenceIsHarmless(blocks, due))
    decreases |blocks|
  {
    if blocks != [] {
      var b, rest := blocks[0], blocks[1..];
      var fencedNext, dueNext := FencedAfter(b, fenced), StillDue(b, due);
      var once := Render(rest, dueNext);
      if FencedProse(b) {
        FenceTwice(b, once, due, dueAgain);
        AgainIsNotLonger(once, true);
        SettledIff(once, true);
        CancelSum(RenderBlock(b, due), Again(once, true), RenderBlock(b, due), once);
      } else {
        if !fencedNext {
          HeadOfRendered(rest, dueNext, b.Para?);
        }
        SecondStep(b, once, fenced, due, dueAgain);
        var dueAgainNext := DueAfter(Twice(b, due), dueAgain);
        SecondPass(rest, fencedNext, b.Para?, dueNext, dueAgainNext);
        CancelSum(Render(Twice(b, due), dueAgain), Render(Blocks(once, fencedNext, Closed), dueAgainNext),
                  RenderBlock(b, due), once);
      }
    }
  }

  lemma SecondStep(b: Block, once: seq<string>, fenced: bool, due: bool, dueAgain: bool)
    requires FitsHere(b, fenced, false) && !FencedProse(b) && (dueAgain ==> due)
    requires !FencedAfter(b, fenced) ==> GoodHead(once, b.Para?)
    ensures var dueAgainNext := DueAfter(Twice(b, due), dueAgain);
            && Render(Blocks(RenderBlock(b, due) + once, fenced, Closed), dueAgain) ==
                 Render(Twice(b, due), dueAgain) + Render(Blocks(once, FencedAfter(b, fenced), Closed), dueAgainNext)
            && (dueAgainNext ==> StillDue(b, due))
            && Mirrors(Render(Twice(b, due), dueAgain), RenderBlock(b, due), SteadyBlock(b))
  {
    ReadTwice(b, once, due, fenced);
    RenderTwice(b, due, dueAgain, fenced);
    RenderSum(Twice(b, due), Blocks(once, FencedAfter(b, fenced), Closed), dueAgain);
  }

  lemma AllSteadyCons(blocks: seq<Block>)
    requires blocks != []
    ensures AllSteady(blocks) <==> SteadyBlock(blocks[0]) && AllSteady(blocks[1..])
  {
  }

  // ---------- Trailing blank lines ----------

  lemma {:induction false} BlankLast(lines: seq<string>, fenced: bool, open: Open)
    requires fenced ==> open.Closed?
    ensures exists b :: (b == Empty || b == Raw("")) &&
              Blocks(lines + [""], fenced, open) == Blocks(lines, fenced, open) + [b]
    decreases |lines|
  {
    if lines == [] {
      SumOfEmpty([""]);
      FirstLine("", [], fenced, open);
      SumOfEmpty(Read("", fenced, open).blocks);
      assert [""] + [] == [""];
      if fenced {
        SumOfEmpty([Raw("")]);
        assert Blocks([""], fenced, open) == Blocks([], fenced, open) + [Raw("")];
      } else {
        assert Blocks([""], fenced, open) == Blocks([], fenced, open) + [Empty];
      }
    } else {
      TailOfSum(lines, [""]);
      var step := Read(lines[0], fenced, open);
      BlankLast(lines[1..], step.fenced, step.open);
      var rest := Blocks(lines[1..], step.fenced, step.open);
      var b :| (b == Empty || b == Raw("")) && Blocks(lines[1..] + [""], step.fenced, step.open) == rest + [b];
      SumAssoc(step.blocks, rest, [b]);
      assert Blocks(lines + [""], fenced, open) == Blocks(lines, fenced, open) + [b];
    }
  }

  // What `transform` makes of lines before it trims them.
  function Formatted(lines: seq<string>): seq<string> { Render(Blocks(lines, false, Closed), true) }

  lemma BlankLastStays(lines: seq<string>)
    ensures Formatted(lines + [""]) == Formatted(lines) + [""]
  {
    var blocks := Blocks(lines, false, Closed);
    BlankLast(lines, false, Closed);
    var b :| (b == Empty || b == Raw("")) && Blocks(lines + [""], false, Closed) == blocks + [b];
    RenderSum(blocks, [b], true);
    RenderOne(b, DueAfter(blocks, true));
  }

  // Blank lines at the end are no part of the question.
  lemma {:induction false} TrimmedAlike(lines: seq<string>)
    requires |Formatted(lines)| <= |lines|
    ensures |Formatted(TrimEnd(lines))| <= |TrimEnd(lines)|
    ensures Formatted(TrimEnd(lines)) == TrimEnd(lines) <==> Formatted(lines) == lines
  {
    if lines != [] && lines[|lines| - 1] == "" {
      var init := lines[..|lines| - 1];
      SplitLast(lines);
      BlankLastStays(init);
      CancelSum(Formatted(init), [""], init, [""]);
      TrimmedAlike(init);
    }
  }

  lemma {:induction false} TrimEndMeaning(lines: seq<string>)
    ensures TrimEnd(lines) <= lines && TrimEnd(TrimEnd(lines)) == TrimEnd(lines)
  {
    if lines != [] && lines[|lines| - 1] == "" {
      TrimEndMeaning(lines[..|lines| - 1]);
    }
  }

  // The lines a transformed text has: an empty text is one empty line.
  function Resplit(lines: seq<string>): seq<string> { if lines == [] then [""] else lines }

  lemma ResplitTransforms(lines: seq<string>)
    ensures Transformed(Resplit(lines)) == Transformed(lines)
  {
    if lines == [] {
      BlankLastStays([]);
      SumOfEmpty([""]);
      assert TrimEnd([""]) == [] by { assert [""][..0] == []; }
    }
  }

  // The formatter is idempotent on exactly the texts whose joined paragraphs are all
  // steady, up to the first indented fence that was taken for prose, and that are
  // settled behind it.
  lemma IdempotentIff(lines: seq<string>)
    ensures Transformed(Resplit(Transformed(lines))) == Transformed(lines) <==>
              SteadyToFence(Blocks(lines, false, Closed)) && FenceIsHarmless(Blocks(lines, false, Closed), true)
  {
    var once := Formatted(lines);
    var text := TrimEnd(once);
    BlocksShape(lines, false, Closed, false);
    SecondPass(Blocks(lines, false, Closed), false, false, true, true);
    TrimmedAlike(once);
    ResplitTransforms(text);
    TrimEndMeaning(once);
    TrimEndMeaning(Formatted(text));
  }

  // Where no indented fence was taken for prose.
  lemma IdempotentIffSteady(lines: seq<string>)
    requires NoFencedProse(Blocks(lines, false, Closed))
    ensures Transformed(Resplit(Transformed(lines))) == Transformed(lines) <==> AllSteady(Blocks(lines, false, Closed))
  {
    WithoutFencedProse(Blocks(lines, false, Closed), true);
    IdempotentIff(lines);
  }

  // ---------- Texts whose paragraphs are flush ----------

  // A paragraph is quoted on every line, or starts unindented with something that
  // is no quotation.
  ghost predicate FlushParagraphs(blocks: seq<Block>) {
    forall i | 0 <= i < |blocks| && ProsePara(blocks[i]) ::
      blocks[i].lines != [] && Tight(blocks[i].lines[0]) && !IsBlockquote(blocks[i].lines[0])
  }

  lemma FlushIsSteady(lines: seq<string>)
    requires lines != [] && Prose(lines[0]) && Tight(lines[0]) && !IsBlockquote(lines[0])
    ensures Steady(JoinLines(lines)) && !IsFence(JoinLines(lines))
  {
    var first, text := lines[0], JoinLines(lines);
    JoinStartsWithFirst(lines);
    TightLine(first);
    assert text[0] == first[0] != '>';
    LevelMeaning(first);
    if Level(first) < |first| {
      LevelOfPrefix(first, text);
    } else {
      LevelMeaning(text);
      LevelAtLeast(first, text);
    }
  }

  lemma {:induction false} LevelOfPrefix(p: string, s: string)
    requires p <= s && Level(p) < |p|
    ensures Level(s) == Level(p)
  {
    if p != "" && p[0] == '#' {
      LevelOfPrefix(p[1..], s[1..]);
    }
  }

  lemma {:induction false} LevelAtLeast(p: string, s: string)
    requires p <= s && Level(p) == |p|
    ensures Level(s) >= Level(p)
  {
    if p != "" {
      LevelAtLeast(p[1..], s[1..]);
    }
  }

  lemma {:induction false} ShapedPara(blocks: seq<Block>, fenced: bool, afterPara: bool, i: nat)
    requires Shape(blocks, fenced, afterPara) && i < |blocks| && blocks[i].Para?
    ensures blocks[i].lines != [] && forall j | 0 <= j < |blocks[i].lines| :: Prose(blocks[i].lines[j])
    decreases i
  {
    if i > 0 {
      ShapedPara(blocks[1..], FencedAfter(blocks[0], fenced), blocks[0].Para?, i - 1);
    }
  }

  // The documented claim, for the texts it is made for.
  lemma IdempotentWhenFlush(lines: seq<string>)
    requires FlushParagraphs(Blocks(lines, false, Closed))
    ensures Transformed(Resplit(Transformed(lines))) == Transformed(lines)
  {
    var blocks := Blocks(lines, false, Closed);
    BlocksShape(lines, false, Closed, false);
    forall i | 0 <= i < |blocks| && ProsePara(blocks[i])
      ensures Steady(JoinLines(blocks[i].lines)) && !IsFence(JoinLines(blocks[i].lines))
    {
      ShapedPara(blocks, false, false, i);
      FlushIsSteady(blocks[i].lines);
    }
    IdempotentIffSteady(lines);
  }

  // ---------- Where the claim fails ----------

  // An indented section heading is prose the first time and a heading the second.
  lemma IndentedHeadingFails(title: string)
    requires SectionEmoji(title) != ""
    ensures var lines := [" " + ("###" + (" " + title))];
            NoFencedProse(Blocks(lines, false, Closed)) &&
            Transformed(Resplit(Transformed(lines))) != Transformed(lines)
  {
    var text := "###" + (" " + title);
    SectionTitles(title);
    ReadHeading("###", title);
    IndentedIsProse(text);
    IdempotentIffSteady([" " + text]);
    assert !SteadyBlock(Blocks([" " + text], false, Closed)[0]);
  }

  // One indented line that is neither a fence nor a quotation is a paragraph.
  lemma IndentedIsProse(text: string)
    requires text != "" && Tight(text) && !IsFence(text) && text[0] != '>'
    ensures Blocks([" " + text], false, Closed) == [Para([" " + text])]
    ensures JoinLines([" " + text]) == text && ProsePara(Para([" " + text]))
    ensures NoFencedProse(Blocks([" " + text], false, Closed))
  {
    var raw := " " + text;
    StripSpaced(text);
    LStripSpaced(text);
    TightLine(text);
    RStripMeaning(raw);
    JoinOne(raw);
    NoItem(raw);
    assert Level(raw) == 0;
    assert Read(raw, false, Closed) == Step([], false, InPara([raw]));
    assert [raw][1..] == [];
    SumOfEmpty([Para([raw])]);
    assert Blocks([raw], false, Closed) == [Para([raw])];
  }

  // A paragraph of a quoted line and one that is not is prose the first time; joined,
  // it is a quotation the second time, and its marker is set.
  lemma HalfQuotedFails(word: string, line: string)
    requires word != "" && Tight(word) && Prose(line) && Tight(line) && !IsBlockquote(line)
    ensures var lines := [">" + word, line];
            NoFencedProse(Blocks(lines, false, Closed)) &&
            Transformed(Resplit(Transformed(lines))) != Transformed(lines)
  {
    var quoted := ">" + word;
    HalfQuotedIsProse(quoted, line);
    var para := Para([quoted, line]);
    assert ProsePara(para) by { assert !IsBlockquote(para.lines[1]); }
    var text := JoinLines([quoted, line]);
    assert text[0] == '>' && text[1] == word[0];
    IdempotentIffSteady([quoted, line]);
    assert !SteadyBlock(Blocks([quoted, line], false, Closed)[0]);
  }

  lemma HalfQuotedIsProse(quoted: string, line: string)
    requires |quoted| > 1 && quoted[0] == '>' && Tight(quoted) && Prose(line) && Tight(line)
    ensures Blocks([quoted, line], false, Closed) == [Para([quoted, line])]
    ensures JoinLines([quoted, line]) == Glue(quoted, line)
  {
    TwoLines(quoted, line);
    TwoJoined(quoted, line);
    ReadQuoted(quoted);
    assert Read(line, false, InPara([quoted])) == Step([], false, InPara([quoted, line]));
    assert Blocks([line], false, InPara([quoted])) == [] + Blocks([], false, InPara([quoted, line]));
  }

  lemma TwoJoined(a: string, b: string)
    requires Tight(a) && Tight(b)
    ensures JoinLines([a, b]) == Glue(a, b)
  {
    StripMeaning(a);
    StripMeaning(b);
    JoinOne(a);
    TwoLines(a, b);
    JoinLinesSnoc([a], b);
  }

  lemma ReadQuoted(quoted: string)
    requires quoted != "" && quoted[0] == '>' && Tight(quoted)
    ensures Read(quoted, false, Closed) == Step([], false, InPara([quoted]))
  {
    TightLine(quoted);
    NoItem(quoted);
    assert Level(quoted) == 0;
  }

  lemma TwoLines<T>(a: T, b: T)
    ensures [a, b][1..] == [b] && [b][1..] == [] && [a] + [b] == [a, b]
    ensures [a, b][..1] == [a]
  {
  }

  // An indented fence is prose the first time. The second time it opens a code block that
  // the next fence line closes, and what was code there is formatted.
  lemma IndentedFenceFails(a: string, b: string)
    requires Prose(a) && Tight(a) && Prose(b) && Tight(b)
    ensures var lines := [" " + FENCE, FENCE, a, b, FENCE];
            Transformed(Resplit(Transformed(lines))) != Transformed(lines)
  {
    var para, code := Para([" " + FENCE]), [a, b, FENCE];
    IndentedFenceBlocks(a, b);
    var blocks := [para, Fence(FENCE), Raw(a), Raw(b), Fence(FENCE)];
    FenceIsFence();
    JoinOne(" " + FENCE);
    StripSpaced(FENCE);
    assert ProsePara(para) by {
      LStripSpaced(FENCE);
      assert !IsBlockquote(para.lines[0]);
    }
    assert FencedProse(blocks[0]);
    CodeAgain(a, b);
    CodeRendered(blocks[1..], a, b);
    assert !FenceIsHarmless(blocks, true);
    IdempotentIff([" " + FENCE, FENCE, a, b, FENCE]);
  }

  lemma FenceIsFence()
    ensures FENCE != "" && Tight(FENCE) && IsFence(FENCE) && RStrip(FENCE) == FENCE && LStrip(FENCE) == FENCE
  {
    assert FENCE[0] == '`' && FENCE[2] == '`';
  }

  lemma ReadIndentedFence(indented: string)
    requires indented == " " + FENCE
    ensures Read(indented, false, Closed) == Step([], false, InPara([indented]))
    ensures Read(FENCE, false, InPara([indented])) == Step([Para([indented])] + [Fence(FENCE)], true, Closed)
    ensures Read(FENCE, true, Closed) == Step([Fence(FENCE)], false, Closed)
  {
    FenceIsFence();
    FenceBehindSpace(indented);
    assert Read(indented, false, Closed) == Step([], false, InPara([indented]));
    SumOfEmpty([Fence(FENCE)]);
  }

  lemma FenceBehindSpace(indented: string)
    requires indented == " " + FENCE
    ensures RStrip(indented) == indented != "" && !IsFence(indented)
    ensures !IsHeading(indented) && !IsListItem(indented)
  {
    NoItem(indented);
    assert Level(indented) == 0;
  }

  lemma ReadCode(line: string)
    requires Prose(line)
    ensures Read(line, true, Closed) == Step([Raw(line)], true, Closed)
  {
  }

  lemma FiveBlocks(a: Block, b: Block, c: Block, d: Block, e: Block)
    ensures [] + (([a] + [b]) + ([c] + ([d] + ([e] + [])))) == [a, b, c, d, e]
  {
  }

  lemma IndentedFenceBlocks(a: string, b: string)
    requires Prose(a) && Prose(b)
    ensures Blocks([" " + FENCE, FENCE, a, b, FENCE], false, Closed) ==
            [Para([" " + FENCE]), Fence(FENCE), Raw(a), Raw(b), Fence(FENCE)]
  {
    var indented := " " + FENCE;
    ReadIndentedFence(indented);
    ReadCode(a);
    ReadCode(b);
    ReadAll(indented, FENCE, a, b, FENCE);
    FiveBlocks(Para([indented]), Fence(FENCE), Raw(a), Raw(b), Fence(FENCE));
  }

  lemma ReadAll(a: string, b: string, c: string, d: string, e: string)
    ensures var s1 := Read(a, false, Closed);
            var s2 := Read(b, s1.fenced, s1.open);
            var s3 := Read(c, s2.fenced, s2.open);
            var s4 := Read(d, s3.fenced, s3.open);
            var s5 := Read(e, s4.fenced, s4.open);
            Blocks([a, b, c, d, e], false, Closed) ==
            s1.blocks + (s2.blocks + (s3.blocks + (s4.blocks + (s5.blocks + Close(s5.open)))))
  {
    var s1 := Read(a, false, Closed);
    var s2 := Read(b, s1.fenced, s1.open);
    var s3 := Read(c, s2.fenced, s2.open);
    var s4 := Read(d, s3.fenced, s3.open);
    FirstLine(a, [b, c, d, e], false, Closed);
    FirstLine(b, [c, d, e], s1.fenced, s1.open);
    FirstLine(c, [d, e], s2.fenced, s2.open);
    FirstLine(d, [e], s3.fenced, s3.open);
    FirstLine(e, [], s4.fenced, s4.open);
    assert [a] + [b, c, d, e] == [a, b, c, d, e] && [b] + [c, d, e] == [b, c, d, e] && [c] + [d, e] == [c, d, e];
    assert [d] + [e] == [d, e] && [e] + [] == [e];
  }

  lemma CodeRendered(blocks: seq<Block>, a: string, b: string)
    requires blocks == [Fence(FENCE), Raw(a), Raw(b), Fence(FENCE)]
    ensures Render(blocks, false) == [FENCE, a, b, FENCE]
  {
    FourLists(Fence(FENCE), Raw(a), Raw(b), Fence(FENCE));
    FourLists(FENCE, a, b, FENCE);
    RenderOne(Fence(FENCE), false);
    RenderCons(Raw(b), [Fence(FENCE)], false);
    RenderCons(Raw(a), [Raw(b), Fence(FENCE)], false);
    RenderCons(Fence(FENCE), [Raw(a), Raw(b), Fence(FENCE)], false);
  }

  // Two lines of code that read as prose are joined.
  lemma CodeAgain(a: string, b: string)
    requires Prose(a) && Prose(b)
    ensures !Settled([FENCE, a, b, FENCE], true)
  {
    var lines := [FENCE, a, b, FENCE];
    FenceIsFence();
    assert FirstFence(lines) == 0 && lines[1..] == [a, b, FENCE];
    TwoAreJoined(a, b);
    TwoThenFence(a, b, FENCE);
  }

  lemma TwoThenFence(a: string, b: string, fence: string)
    requires Prose(a) && Prose(b) && IsFence(RStrip(fence))
    ensures FirstFence([a, b, fence]) == 2 && [a, b, fence][..2] == [a, b]
  {
    assert [a, b, fence][1..] == [b, fence] && [b, fence][1..] == [fence];
    assert FirstFence([fence]) == 0;
    assert FirstFence([b, fence]) == 1;
  }

  lemma TwoAreJoined(a: string, b: string)
    requires Prose(a) && Prose(b)
    ensures Again([a, b], false) != [a, b]
  {
    TwoLines(a, b);
    assert Read(a, false, Closed) == Step([], false, InPara([a]));
    assert Read(b, false, InPara([a])) == Step([], false, InPara([a] + [b]));
    FirstLine(a, [b], false, Closed);
    FirstLine(b, [], false, InPara([a]));
    assert Blocks([a, b], false, Closed) == [Para([a] + [b])];
    NotLonger(Blocks([a, b], false, Closed));
  }
}
