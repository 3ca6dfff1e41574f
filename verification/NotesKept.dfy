// What the formatter keeps: every line ends up in exactly one block, and a block
// shows every character of its lines that is no space.
module NotesKept {
  import opened Sequences
  import opened Text
  import opened ReleaseNotes
  import opened NotesBlocks

  // ---------- Blocks hold the whole text ----------

  function SourceOf(b: Block): seq<string> {
    match b
    case Empty => [""]
    case Fence(line) => [line]
    case Raw(line) => [line]
    case Heading(line) => [line]
    case Item(lines) => lines
    case Para(lines) => lines
  }

  function Sources(blocks: seq<Block>): seq<string> {
    if blocks == [] then [] else SourceOf(blocks[0]) + Sources(blocks[1..])
  }

  // The text as read: trailing spaces count only inside a fence.
  function Normal(lines: seq<string>, fenced: bool): seq<string> {
    if lines == [] then []
    else
      var line := RStrip(lines[0]);
      if IsFence(line) then [line] + Normal(lines[1..], !fenced)
      else [if fenced then lines[0] else line] + Normal(lines[1..], fenced)
  }

  function OpenLines(open: Open): seq<string> { if open.Closed? then [] else open.lines }

  lemma {:induction false} SourcesSum(a: seq<Block>, b: seq<Block>)
    ensures Sources(a + b) == Sources(a) + Sources(b)
  {
    if a == [] {
      SumOfEmpty(b);
      SumOfEmpty(Sources(b));
    } else {
      TailOfSum(a, b);
      SourcesSum(a[1..], b);
      SumAssoc(SourceOf(a[0]), Sources(a[1..]), Sources(b));
    }
  }

  lemma CloseSources(open: Open, b: Block)
    ensures Sources(Close(open)) == OpenLines(open)
    ensures Sources(Close(open) + [b]) == OpenLines(open) + SourceOf(b)
  {
    SourcesSum(Close(open), [b]);
    assert [b][1..] == [];
    SumOfEmpty(SourceOf(b));
    SumOfEmpty(OpenLines(open));
    if !open.Closed? {
      assert Close(open)[1..] == [];
    }
  }

  function NormalLine(raw: string, fenced: bool): string {
    if fenced && !IsFence(RStrip(raw)) then raw else RStrip(raw)
  }

  lemma ReadSources(raw: string, fenced: bool, open: Open)
    requires fenced ==> open.Closed?
    ensures var step := Read(raw, fenced, open);
            Sources(step.blocks) + OpenLines(step.open) == OpenLines(open) + [NormalLine(raw, fenced)]
  {
    var line := RStrip(raw);
    if IsFence(line) {
      CloseSources(open, Fence(line));
      SumOfEmpty(Sources(Close(open) + [Fence(line)]));
    } else if fenced {
      CloseSources(Closed, Raw(raw));
      SumOfEmpty([Raw(raw)]);
      SumOfEmpty([raw]);
    } else if line == "" {
      CloseSources(open, Empty);
      SumOfEmpty(Sources(Close(open) + [Empty]));
    } else if IsHeading(line) {
      CloseSources(open, Heading(line));
      SumOfEmpty(Sources(Close(open) + [Heading(line)]));
    } else {
      TextSources(line, open);
    }
  }

  lemma TextSources(line: string, open: Open)
    ensures var step := ReadText(line, open);
            Sources(step.blocks) + OpenLines(step.open) == OpenLines(open) + [line]
  {
    CloseSources(open, Empty);
    SumOfEmpty(OpenLines(open) + [line]);
    SumOfEmpty([line]);
  }

  // No line is lost, doubled or moved by the cut into blocks.
  lemma {:induction false} BlocksAreTheText(lines: seq<string>, fenced: bool, open: Open)
    requires fenced ==> open.Closed?
    ensures Sources(Blocks(lines, fenced, open)) == OpenLines(open) + Normal(lines, fenced)
    decreases |lines|
  {
    if lines == [] {
      CloseSources(open, Empty);
      SumOfEmpty(OpenLines(open));
    } else {
      var step := Read(lines[0], fenced, open);
      var rest := Normal(lines[1..], step.fenced);
      BlocksAreTheText(lines[1..], step.fenced, step.open);
      SourcesSum(step.blocks, Blocks(lines[1..], step.fenced, step.open));
      ReadSources(lines[0], fenced, open);
      SumAssoc(Sources(step.blocks), OpenLines(step.open), rest);
      SumAssoc(OpenLines(open), [NormalLine(lines[0], fenced)], rest);
      assert Normal(lines, fenced) == [NormalLine(lines[0], fenced)] + rest;
    }
  }

  // ---------- Characters ----------

  // A block as shown, in pieces: what it was, and what was added for display.
  datatype Piece = Kept(text: string) | Added(text: string)

  function KeptLines(lines: seq<string>): seq<Piece> {
    seq(|lines|, i requires 0 <= i < |lines| => Kept(lines[i]))
  }

  function Pieces(b: Block, summary: bool): seq<Piece> {
    match b
    case Heading(line) =>
      var n := Level(line);
      if TakesEmoji(line) && n <= |line| then [Kept(line[..n]), Added(SectionEmoji(Title(line))), Kept(line[n..])]
      else [Kept(line)]
    case Para(lines) =>
      if WhollyQuoted(lines) then (if QuoteText(lines) == "" then [] else [Added(">")]) + KeptLines(Unquoted(lines))
      else (if summary && JoinLines(lines) != "" then [Added(HIGHLIGHTS)] else []) + KeptLines(lines)
    case _ => KeptLines(SourceOf(b))
  }

  function AllPieces(blocks: seq<Block>, summary: bool): seq<Piece> {
    if blocks == [] then [] else Pieces(blocks[0], summary) + AllPieces(blocks[1..], StillDue(blocks[0], summary))
  }

  function ShownInk(pieces: seq<Piece>): string {
    if pieces == [] then "" else ShownInk(pieces[..|pieces| - 1]) + Ink(pieces[|pieces| - 1].text)
  }

  function KeptInk(pieces: seq<Piece>): string {
    if pieces == [] then ""
    else
      var last := pieces[|pieces| - 1];
      KeptInk(pieces[..|pieces| - 1]) + (if last.Kept? then Ink(last.text) else "")
  }

  // Only these are ever added: the Highlights heading, a section's emoji, the one
  // marker a joined quotation keeps.
  ghost predicate IsDecoration(text: string) {
    text == HIGHLIGHTS || text == ">" || exists title :: text == SectionEmoji(title)
  }

  // A text without the quote markers of its wholly quoted paragraphs.
  function Content(b: Block): seq<string> {
    if b.Para? && WhollyQuoted(b.lines) then Unquoted(b.lines) else SourceOf(b)
  }

  function ContentInk(blocks: seq<Block>): string {
    if blocks == [] then "" else InkOf(Content(blocks[0])) + ContentInk(blocks[1..])
  }

  lemma {:induction false} InkOfSum(a: seq<string>, b: seq<string>)
    ensures InkOf(a + b) == InkOf(a) + InkOf(b)
    decreases |b|
  {
    if b == [] {
      SumOfEmpty(a);
      SumOfEmpty(InkOf(a));
    } else {
      var init, last := b[..|b| - 1], b[|b| - 1];
      SplitLast(b);
      SumAssoc(a, init, [last]);
      SumSlices(a + init, [last]);
      InkOfSum(a, init);
      SumAssoc(InkOf(a), InkOf(init), Ink(last));
    }
  }

  lemma {:induction false} PiecesSum(a: seq<Piece>, b: seq<Piece>)
    ensures ShownInk(a + b) == ShownInk(a) + ShownInk(b)
    ensures KeptInk(a + b) == KeptInk(a) + KeptInk(b)
    decreases |b|
  {
    if b == [] {
      SumOfEmpty(a);
      SumOfEmpty(ShownInk(a));
      SumOfEmpty(KeptInk(a));
    } else {
      var init, last := b[..|b| - 1], b[|b| - 1];
      SplitLast(b);
      SumAssoc(a, init, [last]);
      SumSlices(a + init, [last]);
      PiecesSum(a, init);
      SumAssoc(ShownInk(a), ShownInk(init), Ink(last.text));
      SumAssoc(KeptInk(a), KeptInk(init), if last.Kept? then Ink(last.text) else "");
    }
  }

  lemma OnePiece(p: Piece)
    ensures ShownInk([p]) == Ink(p.text)
    ensures KeptInk([p]) == if p.Kept? then Ink(p.text) else ""
  {
    assert [p][..0] == [];
    SumOfEmpty(Ink(p.text));
  }

  lemma {:induction false} KeptLinesInk(lines: seq<string>)
    ensures ShownInk(KeptLines(lines)) == InkOf(lines) == KeptInk(KeptLines(lines))
  {
    if lines != [] {
      assert KeptLines(lines)[..|lines| - 1] == KeptLines(lines[..|lines| - 1]);
      KeptLinesInk(lines[..|lines| - 1]);
    }
  }

  lemma OneLine(line: string)
    ensures InkOf([line]) == Ink(line)
  {
    assert [line][..0] == [];
    SumOfEmpty(Ink(line));
  }

  lemma ThreePieces(x: string, y: string, z: string)
    ensures ShownInk([Kept(x), Added(y), Kept(z)]) == Ink(x) + (Ink(y) + Ink(z))
    ensures KeptInk([Kept(x), Added(y), Kept(z)]) == Ink(x) + Ink(z)
  {
    var a, b, c := Kept(x), Added(y), Kept(z);
    assert [a, b, c] == [a] + ([b] + [c]);
    PiecesSum([a], [b] + [c]);
    PiecesSum([b], [c]);
    OnePiece(a);
    OnePiece(b);
    OnePiece(c);
    SumOfEmpty(Ink(z));
  }

  // A heading shows its line, and the emoji if it takes one.
  lemma HeadingInk(line: string, summary: bool)
    requires IsHeading(line)
    ensures ShownInk(Pieces(Heading(line), summary)) == InkOf(RenderBlock(Heading(line), summary))
    ensures KeptInk(Pieces(Heading(line), summary)) == Ink(line)
  {
    var n := Level(line);
    RewriteHeadingInk(line);
    OneLine(RewriteHeading(line));
    if TakesEmoji(line) {
      ThreePieces(line[..n], SectionEmoji(Title(line)), line[n..]);
      EmojiInk(Title(line));
      CutAt(line, n);
      InkSum(line[..n], line[n..]);
    } else {
      OnePiece(Kept(line));
    }
  }

  lemma MarkInk(text: string)
    ensures InkOf(["> " + text]) == Ink(">") + Ink(text)
  {
    OneLine("> " + text);
    assert "> " + text == ">" + (" " + text);
    InkSum(">", " " + text);
    InkAfterSpace(text);
  }

  lemma LeadInk(lead: string, text: string)
    ensures InkOf([lead, ""] + [text]) == Ink(lead) + Ink(text)
  {
    InkOfSum([lead, ""], [text]);
    InkOfSum([lead], [""]);
    assert [lead] + [""] == [lead, ""];
    OneLine(lead);
    OneLine("");
    OneLine(text);
    SumOfEmpty(Ink(lead));
  }

  lemma AddedThenKept(added: string, lines: seq<string>)
    ensures ShownInk([Added(added)] + KeptLines(lines)) == Ink(added) + InkOf(lines)
    ensures KeptInk([Added(added)] + KeptLines(lines)) == InkOf(lines)
    ensures ShownInk([] + KeptLines(lines)) == InkOf(lines) == KeptInk([] + KeptLines(lines))
  {
    PiecesSum([Added(added)], KeptLines(lines));
    OnePiece(Added(added));
    KeptLinesInk(lines);
    SumOfEmpty(KeptLines(lines));
    SumOfEmpty(InkOf(lines));
  }

  lemma QuoteInk(lines: seq<string>, summary: bool)
    requires WhollyQuoted(lines)
    ensures ShownInk(Pieces(Para(lines), summary)) == InkOf(RenderBlock(Para(lines), summary))
    ensures KeptInk(Pieces(Para(lines), summary)) == InkOf(Unquoted(lines))
  {
    JoinLinesMeaning(Unquoted(lines));
    AddedThenKept(">", Unquoted(lines));
    MarkInk(QuoteText(lines));
  }

  lemma ProseInk(lines: seq<string>, summary: bool)
    requires !WhollyQuoted(lines)
    ensures ShownInk(Pieces(Para(lines), summary)) == InkOf(RenderBlock(Para(lines), summary))
    ensures KeptInk(Pieces(Para(lines), summary)) == InkOf(lines)
  {
    var text := JoinLines(lines);
    JoinLinesMeaning(lines);
    AddedThenKept(HIGHLIGHTS, lines);
    LeadInk(HIGHLIGHTS, text);
    OneLine(text);
    SumOfEmpty([text]);
  }

  lemma BlockInk(b: Block, summary: bool)
    requires b.Heading? ==> IsHeading(b.line)
    ensures ShownInk(Pieces(b, summary)) == InkOf(RenderBlock(b, summary))
    ensures KeptInk(Pieces(b, summary)) == InkOf(Content(b))
  {
    match b
    case Heading(line) =>
      HeadingInk(line, summary);
      OneLine(line);
    case Para(lines) =>
      if WhollyQuoted(lines) {
        QuoteInk(lines, summary);
      } else {
        ProseInk(lines, summary);
      }
    case Item(lines) =>
      KeptLinesInk(lines);
      JoinLinesMeaning(lines);
      OneLine(JoinLines(lines));
    case _ => KeptLinesInk(SourceOf(b));
  }

  ghost predicate HeadingsAreHeadings(blocks: seq<Block>) {
    forall i | 0 <= i < |blocks| && blocks[i].Heading? :: IsHeading(blocks[i].line)
  }

  lemma {:induction false} RenderedInk(blocks: seq<Block>, summary: bool)
    requires HeadingsAreHeadings(blocks)
    ensures InkOf(Render(blocks, summary)) == ShownInk(AllPieces(blocks, summary))
    ensures KeptInk(AllPieces(blocks, summary)) == ContentInk(blocks)
  {
    if blocks != [] {
      var due := StillDue(blocks[0], summary);
      BlockInk(blocks[0], summary);
      RenderedInk(blocks[1..], due);
      PiecesSum(Pieces(blocks[0], summary), AllPieces(blocks[1..], due));
      InkOfSum(RenderBlock(blocks[0], summary), Render(blocks[1..], due));
    }
  }

  lemma {:induction false} BlocksHaveHeadings(lines: seq<string>, fenced: bool, open: Open)
    ensures HeadingsAreHeadings(Blocks(lines, fenced, open))
    decreases |lines|
  {
    if lines != [] {
      var step := Read(lines[0], fenced, open);
      BlocksHaveHeadings(lines[1..], step.fenced, step.open);
    }
  }

  lemma {:induction false} TrimEndInk(lines: seq<string>)
    ensures InkOf(TrimEnd(lines)) == InkOf(lines)
  {
    if lines != [] && lines[|lines| - 1] == "" {
      TrimEndInk(lines[..|lines| - 1]);
      SumOfEmpty(InkOf(lines[..|lines| - 1]));
    }
  }

  lemma {:induction false} OnlyDecorations(blocks: seq<Block>, summary: bool)
    ensures forall p | p in AllPieces(blocks, summary) && p.Added? :: IsDecoration(p.text)
  {
    if blocks != [] {
      OnlyDecorations(blocks[1..], StillDue(blocks[0], summary));
      BlockDecorations(blocks[0], summary);
    }
  }

  lemma BlockDecorations(b: Block, summary: bool)
    ensures forall p | p in Pieces(b, summary) && p.Added? :: IsDecoration(p.text)
  {
    match b
    case Heading(line) =>
      if TakesEmoji(line) {
        assert IsDecoration(SectionEmoji(Title(line)));
      }
    case Para(lines) =>
      KeptIsKept(Unquoted(lines));
      KeptIsKept(lines);
    case _ => KeptIsKept(SourceOf(b));
  }

  lemma KeptIsKept(lines: seq<string>)
    ensures forall p | p in KeptLines(lines) :: p.Kept?
  {
  }

  // The transformed text shows the whole content of the text, in order, and beyond
  // it only decorations.
  lemma InkIsKept(lines: seq<string>) returns (pieces: seq<Piece>)
    ensures InkOf(Transformed(lines)) == ShownInk(pieces)
    ensures KeptInk(pieces) == ContentInk(Blocks(lines, false, Closed))
    ensures forall p | p in pieces && p.Added? :: IsDecoration(p.text)
    ensures Sources(Blocks(lines, false, Closed)) == Normal(lines, false)
  {
    var blocks := Blocks(lines, false, Closed);
    pieces := AllPieces(blocks, true);
    BlocksHaveHeadings(lines, false, Closed);
    RenderedInk(blocks, true);
    TrimEndInk(Render(blocks, true));
    OnlyDecorations(blocks, true);
    BlocksAreTheText(lines, false, Closed);
    SumOfEmpty(Normal(lines, false));
  }
}
