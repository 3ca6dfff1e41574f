// `transform` of scripts/format_release_notes.py: the loop over lines, and the
// blocks it works through.
module NotesBlocks {
  import opened Sequences
  import opened Text
  import opened ReleaseNotes

  // ---------- Joining wrapped lines ----------

  // The wrap point lies inside a hyphenated word.
  predicate SoftHyphen(s: string) { |s| > 1 && s[|s| - 1] == '-' && IsWord(s[|s| - 2]) }

  function Glue(joined: string, piece: string): string {
    if piece == "" then joined
    else if joined == "" then piece
    else if SoftHyphen(joined) then joined + piece
    else joined + (" " + piece)
  }

  // Wrapped lines as one line.
  function JoinLines(lines: seq<string>): string {
    if lines == [] then "" else Glue(JoinLines(lines[..|lines| - 1]), Strip(lines[|lines| - 1]))
  }

  lemma JoinLinesSnoc(lines: seq<string>, line: string)
    ensures JoinLines(lines + [line]) == Glue(JoinLines(lines), Strip(line))
  {
    SumSlices(lines, [line]);
  }

  // The last word of a joined text decides as the whole text does.
  lemma SoftHyphenOfLast(words: seq<string>)
    requires words != [] && words[|words| - 1] != ""
    ensures Join(" ", words) != "" && SoftHyphen(Join(" ", words)) == SoftHyphen(words[|words| - 1])
  {
    if |words| > 1 {
      var init, last := words[..|words| - 1], words[|words| - 1];
      SplitLast(words);
      JoinSnoc(" ", init, last);
    }
  }

  lemma JoinLast(init: seq<string>, last: string)
    ensures Join(" ", init + [last]) == if init == [] then last else Join(" ", init) + " " + last
  {
    if init == [] {
      SumOfEmpty([last]);
    } else {
      JoinSnoc(" ", init, last);
    }
  }

  lemma LengthenLast(words: seq<string>, piece: string)
    requires words != []
    ensures Join(" ", words[..|words| - 1] + [words[|words| - 1] + piece]) == Join(" ", words) + piece
  {
    var init, last := words[..|words| - 1], words[|words| - 1];
    SplitLast(words);
    JoinLast(init, last);
    JoinLast(init, last + piece);
    SumAssoc(Join(" ", init) + " ", last, piece);
  }

  // The words that will stand apart in `text`.
  ghost predicate Words(words: seq<string>, text: string) {
    && Join(" ", words) == text && (words == [] <==> text == "")
    && forall j | 0 <= j < |words| :: words[j] != ""
  }

  // The body of the loop of `_join`, for a line that is not blank.
  method AddWord(words: seq<string>, piece: string, ghost text: string) returns (more: seq<string>)
    requires Words(words, text) && piece != ""
    ensures Words(more, Glue(text, piece))
  {
    if words != [] {
      SoftHyphenOfLast(words);
    }
    if words != [] && SoftHyphen(words[|words| - 1]) {
      LengthenLast(words, piece);
      more := words[..|words| - 1] + [words[|words| - 1] + piece];
    } else {
      NewWord(words, piece, text);
      more := words + [piece];
    }
  }

  lemma NewWord(words: seq<string>, piece: string, text: string)
    requires Words(words, text) && piece != "" && (text != "" ==> !SoftHyphen(text))
    ensures Join(" ", words + [piece]) == Glue(text, piece) && Glue(text, piece) != ""
  {
    JoinLast(words, piece);
  }

  // `_join`.
  method JoinWrapped(lines: seq<string>) returns (joined: string)
    ensures joined == JoinLines(lines)
  {
    var result: seq<string> := [];
    for i := 0 to |lines|
      invariant Words(result, JoinLines(lines[..i]))
    {
      var piece := Strip(lines[i]);
      TakeMore(lines, i);
      JoinLinesSnoc(lines[..i], lines[i]);
      if piece == "" {
        continue;
      }
      result := AddWord(result, piece, JoinLines(lines[..i]));
    }
    TakeAll(lines);
    joined := Join(" ", result);
  }

  lemma JoinOne(line: string)
    ensures JoinLines([line]) == Strip(line)
  {
    SumSlices([], [line]);
  }

  // Joining loses no ink, and leaves no space at either end.
  function InkOf(lines: seq<string>): string {
    if lines == [] then "" else InkOf(lines[..|lines| - 1]) + Ink(lines[|lines| - 1])
  }

  lemma {:induction false} JoinLinesMeaning(lines: seq<string>)
    ensures Ink(JoinLines(lines)) == InkOf(lines)
    ensures Tight(JoinLines(lines))
    ensures JoinLines(lines) == "" <==> forall i | 0 <= i < |lines| :: Blank(lines[i])
  {
    if lines != [] {
      var init, last := lines[..|lines| - 1], lines[|lines| - 1];
      JoinLinesMeaning(init);
      StripMeaning(last);
      InkOfStrip(last);
      GlueMeaning(JoinLines(init), Strip(last));
      assert forall i | 0 <= i < |init| :: lines[i] == init[i];
    }
  }

  lemma GlueMeaning(joined: string, piece: string)
    requires Tight(joined) && Tight(piece)
    ensures Ink(Glue(joined, piece)) == Ink(joined) + Ink(piece)
    ensures Tight(Glue(joined, piece))
  {
    SumOfEmpty(Ink(joined));
    SumOfEmpty(Ink(piece));
    if piece != "" && joined != "" {
      TightSum(joined, piece);
      InkAfterSpace(piece);
      InkSum(joined, if SoftHyphen(joined) then piece else " " + piece);
    }
  }

  // A joined text starts with its first line, as long as that is not indented.
  lemma {:induction false} JoinStartsWithFirst(lines: seq<string>)
    requires lines != [] && lines[0] != "" && Tight(lines[0])
    ensures lines[0] <= JoinLines(lines)
    ensures var first, joined := lines[0], JoinLines(lines);
            |joined| > |first| ==> joined[|first|] == ' ' || SoftHyphen(first)
  {
    var init, last := lines[..|lines| - 1], lines[|lines| - 1];
    if |lines| == 1 {
      JoinOne(last);
      StripMeaning(last);
      assert lines == [last];
    } else {
      JoinStartsWithFirst(init);
    }
  }

  // ---------- Blocks ----------

  datatype Block =
    | Empty
    | Fence(line: string)
    | Raw(line: string)
    | Heading(line: string)
    | Item(lines: seq<string>)
    | Para(lines: seq<string>)

  // The paragraph or list item that is still growing.
  datatype Open = Closed | InPara(lines: seq<string>) | InItem(lines: seq<string>)

  function Close(open: Open): seq<Block> {
    match open
    case Closed => []
    case InPara(lines) => [Para(lines)]
    case InItem(lines) => [Item(lines)]
  }

  // One line: the blocks it finishes, and the state it leaves.
  datatype Step = Step(blocks: seq<Block>, fenced: bool, open: Open)

  function Read(raw: string, fenced: bool, open: Open): Step {
    var line := RStrip(raw);
    if IsFence(line) then Step(Close(open) + [Fence(line)], !fenced, Closed)
    else if fenced then Step([Raw(raw)], true, open)
    else if line == "" then Step(Close(open) + [Empty], false, Closed)
    else if IsHeading(line) then Step(Close(open) + [Heading(line)], false, Closed)
    else ReadText(line, open)
  }

  function ReadText(line: string, open: Open): Step {
    if IsListItem(line) then Step(Close(open), false, InItem([line]))
    else if open.InItem? && IsContinuation(line) then Step([], false, InItem(open.lines + [line]))
    else if open.InPara? then Step([], false, InPara(open.lines + [line]))
    else Step(Close(open), false, InPara([line]))
  }

  function Blocks(lines: seq<string>, fenced: bool, open: Open): seq<Block>
    decreases |lines|
  {
    if lines == [] then Close(open)
    else
      var step := Read(lines[0], fenced, open);
      step.blocks + Blocks(lines[1..], step.fenced, step.open)
  }

  predicate WhollyQuoted(lines: seq<string>) { forall i | 0 <= i < |lines| :: IsBlockquote(lines[i]) }

  function Unquoted(lines: seq<string>): seq<string> {
    seq(|lines|, i requires 0 <= i < |lines| => StripQuoteMarker(lines[i]))
  }

  function QuoteText(lines: seq<string>): string { JoinLines(Unquoted(lines)) }

  // What a block comes out as; `summary` says the next prose opens the Highlights.
  function RenderBlock(b: Block, summary: bool): seq<string> {
    match b
    case Empty => [""]
    case Fence(line) => [line]
    case Raw(line) => [line]
    case Heading(line) => [RewriteHeading(line)]
    case Item(lines) => [JoinLines(lines)]
    case Para(lines) =>
      if WhollyQuoted(lines) then (if QuoteText(lines) == "" then [] else ["> " + QuoteText(lines)])
      else if JoinLines(lines) == "" then []
      else (if summary then [HIGHLIGHTS, ""] else []) + [JoinLines(lines)]
  }

  // Whether the summary is still to come after `b`.
  function StillDue(b: Block, summary: bool): bool {
    summary
    && !(b.Heading? && Level(b.line) >= 3)
    && !(b.Para? && !WhollyQuoted(b.lines) && JoinLines(b.lines) != "")
  }

  function Render(blocks: seq<Block>, summary: bool): seq<string> {
    if blocks == [] then [] else RenderBlock(blocks[0], summary) + Render(blocks[1..], StillDue(blocks[0], summary))
  }

  function DueAfter(blocks: seq<Block>, summary: bool): bool {
    if blocks == [] then summary else DueAfter(blocks[1..], StillDue(blocks[0], summary))
  }

  lemma {:induction false} RenderSum(a: seq<Block>, b: seq<Block>, summary: bool)
    ensures Render(a + b, summary) == Render(a, summary) + Render(b, DueAfter(a, summary))
    ensures DueAfter(a + b, summary) == DueAfter(b, DueAfter(a, summary))
  {
    if a == [] {
      SumOfEmpty(b);
      SumOfEmpty(Render(b, summary));
    } else {
      TailOfSum(a, b);
      RenderSum(a[1..], b, StillDue(a[0], summary));
      SumAssoc(RenderBlock(a[0], summary), Render(a[1..], StillDue(a[0], summary)), Render(b, DueAfter(a, summary)));
    }
  }

  lemma RenderOne(b: Block, summary: bool)
    ensures Render([b], summary) == RenderBlock(b, summary)
    ensures DueAfter([b], summary) == StillDue(b, summary)
  {
    assert [b][1..] == [];
    SumOfEmpty(RenderBlock(b, summary));
  }

  lemma RenderCons(b: Block, rest: seq<Block>, summary: bool)
    ensures Render([b] + rest, summary) == RenderBlock(b, summary) + Render(rest, StillDue(b, summary))
  {
    RenderSum([b], rest, summary);
    RenderOne(b, summary);
  }

  function TrimEnd(lines: seq<string>): seq<string> {
    if lines != [] && lines[|lines| - 1] == "" then TrimEnd(lines[..|lines| - 1]) else lines
  }

  // The lines a text is transformed into.
  function Transformed(lines: seq<string>): seq<string> { TrimEnd(Render(Blocks(lines, false, Closed), true)) }

  // ---------- The loop ----------

  // The buffers of the loop, as the state they stand for.
  function OpenOf(para: seq<string>, item: seq<string>): Open {
    if item != [] then InItem(item) else if para != [] then InPara(para) else Closed
  }

  // `flush_para` and `flush_list_item`, of which at most one has anything to do.
  method Flush(para: seq<string>, item: seq<string>, out: seq<string>, due: bool)
    returns (out': seq<string>, due': bool)
    requires para == [] || item == []
    ensures out' == out + Render(Close(OpenOf(para, item)), due)
    ensures due' == DueAfter(Close(OpenOf(para, item)), due)
  {
    out', due' := out, due;
    SumOfEmpty(out);
    if para != [] {
      RenderOne(Para(para), due);
      var quoted := forall i | 0 <= i < |para| :: IsBlockquote(para[i]);
      if quoted {
        var joined := JoinWrapped(Unquoted(para));
        if joined != "" {
          out' := out' + ["> " + joined];
        }
      } else {
        var joined := JoinWrapped(para);
        if joined != "" {
          if due {
            out' := out' + [HIGHLIGHTS, ""];
            due' := false;
          }
          SumAssoc(out, if due then [HIGHLIGHTS, ""] else [], [joined]);
          out' := out' + [joined];
        }
      }
    }
    if item != [] {
      RenderOne(Item(item), due);
      var joined := JoinWrapped(item);
      out' := out' + [joined];
    }
  }

  // The state of the loop between two lines.
  datatype State = State(out: seq<string>, para: seq<string>, item: seq<string>, fenced: bool, due: bool)

  ghost predicate Sound(s: State) {
    (s.para == [] || s.item == []) && (s.fenced ==> s.para == [] && s.item == [])
  }

  // The end of the loop's body: list items and text.
  method FeedText(line: string, s: State) returns (n: State)
    requires Sound(s) && !s.fenced
    ensures Sound(n)
    ensures var step := ReadText(line, OpenOf(s.para, s.item));
            && n.out == s.out + Render(step.blocks, s.due) && n.due == DueAfter(step.blocks, s.due)
            && n.fenced == step.fenced && OpenOf(n.para, n.item) == step.open
  {
    var out, due := s.out, s.due;
    SumOfEmpty(s.out);
    if IsListItem(line) {
      out, due := Flush(s.para, s.item, out, due);
      return State(out, [], [line], false, due);
    }
    if s.item != [] && IsContinuation(line) {
      return s.(item := s.item + [line]);
    }
    if s.item != [] {
      out, due := Flush([], s.item, out, due);
    }
    n := State(out, s.para + [line], [], false, due);
  }

  // The loop's body.
  method Feed(raw: string, s: State) returns (n: State)
    requires Sound(s)
    ensures Sound(n)
    ensures var step := Read(raw, s.fenced, OpenOf(s.para, s.item));
            && n.out == s.out + Render(step.blocks, s.due) && n.due == DueAfter(step.blocks, s.due)
            && n.fenced == step.fenced && OpenOf(n.para, n.item) == step.open
  {
    var line := RStrip(raw);
    var out, due := s.out, s.due;
    ghost var open := OpenOf(s.para, s.item);
    SumOfEmpty(s.out);
    if IsFence(line) {
      out, due := Flush(s.para, s.item, out, due);
      FlushThen(open, Fence(line), s.out, s.due);
      return State(out + [line], [], [], !s.fenced, due);
    }
    if s.fenced {
      RenderOne(Raw(raw), due);
      return s.(out := out + [raw]);
    }
    if line == "" {
      out, due := Flush(s.para, s.item, out, due);
      FlushThen(open, Empty, s.out, s.due);
      return State(out + [""], [], [], false, due);
    }
    if IsHeading(line) {
      out, due := Flush(s.para, s.item, out, due);
      FlushThen(open, Heading(line), s.out, s.due);
      return State(out + [RewriteHeading(line)], [], [], false, due && Level(line) < 3);
    }
    n := FeedText(line, s);
  }

  method Transform(lines: seq<string>) returns (out: seq<string>)
    ensures out == Transformed(lines)
  {
    var s := State([], [], [], false, true);
    ghost var all := Render(Blocks(lines, false, Closed), true);
    SumOfEmpty(all);
    for i := 0 to |lines|
      invariant Sound(s)
      invariant all == s.out + Render(Blocks(lines[i..], s.fenced, OpenOf(s.para, s.item)), s.due)
    {
      TakeMore(lines, i);
      ghost var step := Read(lines[i], s.fenced, OpenOf(s.para, s.item));
      ghost var rest := Blocks(lines[i + 1..], step.fenced, step.open);
      assert Blocks(lines[i..], s.fenced, OpenOf(s.para, s.item)) == step.blocks + rest;
      RenderSum(step.blocks, rest, s.due);
      SumAssoc(s.out, Render(step.blocks, s.due), Render(rest, DueAfter(step.blocks, s.due)));
      s := Feed(lines[i], s);
    }
    TakeAll(lines);
    ghost var due;
    out, due := Flush(s.para, s.item, s.out, s.due);
    while out != [] && out[|out| - 1] == ""
      invariant TrimEnd(out) == TrimEnd(all)
      decreases |out|
    {
      out := out[..|out| - 1];
    }
  }

  lemma FlushThen(open: Open, b: Block, out: seq<string>, due: bool)
    ensures out + Render(Close(open) + [b], due)
         == out + Render(Close(open), due) + RenderBlock(b, DueAfter(Close(open), due))
    ensures DueAfter(Close(open) + [b], due) == StillDue(b, DueAfter(Close(open), due))
  {
    RenderSum(Close(open), [b], due);
    RenderOne(b, DueAfter(Close(open), due));
    SumAssoc(out, Render(Close(open), due), RenderBlock(b, DueAfter(Close(open), due)));
  }
}
