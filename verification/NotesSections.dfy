// What `condense` makes of the notes that `transform` wrote: which sections are kept
// whole, and where the notice stands.
module NotesSections {
  import opened Characters
  import opened Sequences
  import opened Text
  import opened ReleaseNotes
  import opened NotesBlocks
  import opened NotesIdempotent
  import opened NotesCondense

  // ---------- Section titles ----------

  predicate IsMark(c: char) { !IsWord(c) && c != '`' }

  lemma {:induction false} MarksAreDropped(marks: string, rest: string)
    requires forall i | 0 <= i < |marks| :: IsMark(marks[i])
    ensures DropMarks(marks + rest) == DropMarks(rest)
  {
    if marks == "" {
      SumOfEmpty(rest);
    } else {
      TailOfSum(marks, rest);
      MarksAreDropped(marks[1..], rest);
    }
  }

  lemma PictureIsMark(c: char)
    requires var n := c as int; 0x1F10D <= n <= 0x1FBEF || 0x2500 <= n <= 0x2775 || 0xFE00 <= n <= 0xFE0F
    ensures IsMark(c)
  {
    PictureIsSymbol(c as int);
  }

  lemma EmojiAreMarks(title: string)
    ensures forall i | 0 <= i < |SectionEmoji(title)| :: IsMark(SectionEmoji(title)[i])
  {
    forall i | 0 <= i < |SectionEmoji(title)|
      ensures IsMark(SectionEmoji(title)[i])
    {
      PictureIsMark(SectionEmoji(title)[i]);
    }
  }

  // Titles in the section table, and Highlights, start with a letter.
  lemma EmojiIsDropped(emoji: string, title: string)
    requires forall i | 0 <= i < |emoji| :: IsMark(emoji[i])
    requires title != "" && Tight(title) && IsWord(title[0])
    ensures Strip(DropMarks(emoji + (" " + title))) == title
  {
    MarksAreDropped(emoji, " " + title);
    MarksAreDropped(" ", title);
    StripMeaning(title);
  }

  lemma SectionTitleIs(heading: string)
    ensures SectionTitle(heading) == Strip(DropMarks(Title(heading)))
  {
    LevelMeaning(heading);
    if Level(heading) == |heading| {
      assert heading[Level(heading)..] == "";
    }
  }

  lemma TableTitles(title: string)
    requires SectionEmoji(title) != ""
    ensures title != "" && IsWord(title[0])
  {
  }

  // The emoji changes no section's title.
  lemma TitleStays(line: string)
    requires IsHeading(line)
    ensures SectionTitle(RewriteHeading(line)) == SectionTitle(line)
    ensures TakesEmoji(line) ==> SectionTitle(line) == Title(line)
    ensures OpensSection(RewriteHeading(line)) <==> OpensSection(line)
  {
    RewriteHeadingOnce(line);
    SectionTitleIs(line);
    SectionTitleIs(RewriteHeading(line));
    if TakesEmoji(line) {
      var title := Title(line);
      LevelMeaning(line);
      SectionTitles(title);
      TableTitles(title);
      ReadEmojiHeading(line[..Level(line)], SectionEmoji(title), title);
      EmojiAreMarks(title);
      EmojiIsDropped(SectionEmoji(title), title);
      StripMeaning(title);
    }
  }

  lemma HighlightsTitle()
    ensures OpensSection(HIGHLIGHTS) && SectionTitle(HIGHLIGHTS) == "Highlights" && !WantsNotice(HIGHLIGHTS)
  {
    var title := "Highlights";
    assert title[0] == 'H' && title[|title| - 1] == 's';
    assert HIGHLIGHTS == "###" + (" " + ("\U{1F680}" + (" " + title)));
    PictureIsMark('\U{1F680}');
    ReadEmojiHeading("###", "\U{1F680}", title);
    EmojiIsDropped("\U{1F680}", title);
    SectionTitleIs(HIGHLIGHTS);
    HighlightsAgain();
  }

  // ---------- What is shown of a stretch of lines ----------

  lemma {:induction false} ShownOfSum(a: seq<string>, b: seq<string>, section: Section)
    ensures Shown(a + b, section) == Shown(a, section) + Shown(b, SectionOf(a, section))
  {
    if a == [] {
      SumOfEmpty(b);
      SumOfEmpty(Shown(b, section));
    } else {
      TailOfSum(a, b);
      var next := SectionAfter(a[0], section);
      ShownOfSum(a[1..], b, next);
      SumAssoc(ShownLine(a[0], section), Shown(a[1..], next), Shown(b, SectionOf(a[1..], next)));
    }
  }

  // A line is shown as it is: blank, a heading, in a section kept whole, or a bullet
  // that is its own headline.
  predicate Stands(line: string, section: Section) {
    || line == "" || OpensSection(line) || KeptWhole(section)
    || (IsListItem(line) && Headline(line) == line)
  }

  lemma {:induction false} ShownIsNoLonger(lines: seq<string>, section: Section)
    ensures |Shown(lines, section)| <= |NonBlank(lines)|
  {
    if lines != [] {
      NonBlankTail(lines);
      ShownIsNoLonger(lines[1..], SectionAfter(lines[0], section));
    }
  }

  // A stretch of lines is shown as it is exactly when each of its lines is.
  lemma {:induction false} ShownWholeIff(lines: seq<string>, section: Section)
    ensures Shown(lines, section) == NonBlank(lines) <==>
              forall k | 0 <= k < |lines| :: Stands(lines[k], SectionOf(lines[..k], section))
  {
    if lines != [] {
      var rest, next := lines[1..], SectionAfter(lines[0], section);
      NonBlankTail(lines);
      ShownIsNoLonger(rest, next);
      ShownWholeIff(rest, next);
      FirstShown(lines[0], section, Shown(rest, next), NonBlank(rest));
      StandsAll(lines, section);
    }
  }

  lemma FirstShown(line: string, section: Section, shown: seq<string>, kept: seq<string>)
    requires |shown| <= |kept|
    ensures ShownLine(line, section) + shown == (if line == "" then [] else [line]) + kept <==>
              Stands(line, section) && shown == kept
  {
    var first := ShownLine(line, section);
    if first + shown == (if line == "" then [] else [line]) + kept {
      assert |first + shown| == |(if line == "" then [] else [line]) + kept|;
      if line != "" {
        assert first[0] == (first + shown)[0] == line;
        TailOfSum(first, shown);
        TailOfSum([line], kept);
        SumOfEmpty(shown);
        SumOfEmpty(kept);
      } else {
        SumOfEmpty(shown);
        SumOfEmpty(kept);
      }
    }
  }

  lemma StandsAll(lines: seq<string>, section: Section)
    requires lines != []
    ensures (forall k | 0 <= k < |lines| :: Stands(lines[k], SectionOf(lines[..k], section))) <==>
              Stands(lines[0], section) &&
              forall k | 0 <= k < |lines| - 1 ::
                Stands(lines[1..][k], SectionOf(lines[1..][..k], SectionAfter(lines[0], section)))
  {
    assert lines[..0] == [];
    forall k | 0 <= k < |lines| - 1
      ensures SectionOf(lines[..k + 1], section) == SectionOf(lines[1..][..k], SectionAfter(lines[0], section))
    {
      assert lines[..k + 1][1..] == lines[1..][..k];
    }
    if forall k | 0 <= k < |lines| :: Stands(lines[k], SectionOf(lines[..k], section)) {
      forall k | 0 <= k < |lines| - 1
        ensures Stands(lines[1..][k], SectionOf(lines[1..][..k], SectionAfter(lines[0], section)))
      {
        assert Stands(lines[k + 1], SectionOf(lines[..k + 1], section));
      }
    }
    if Stands(lines[0], section) &&
       forall k | 0 <= k < |lines| - 1 ::
         Stands(lines[1..][k], SectionOf(lines[1..][..k], SectionAfter(lines[0], section))) {
      forall k | 0 <= k < |lines|
        ensures Stands(lines[k], SectionOf(lines[..k], section))
      {
        if k > 0 {
          assert Stands(lines[1..][k - 1], SectionOf(lines[1..][..k - 1], SectionAfter(lines[0], section)));
          assert SectionOf(lines[..k - 1 + 1], section) ==
                 SectionOf(lines[1..][..k - 1], SectionAfter(lines[0], section));
        }
      }
    }
  }

  // ---------- A section of the text ----------

  // From `p` to `q`: a heading of a section, and lines that open no other one.
  ghost predicate IsSectionAt(lines: seq<string>, p: nat, q: nat) {
    p < q <= |lines| && OpensSection(lines[p]) && forall k | p < k < q :: !OpensSection(lines[k])
  }

  lemma {:induction false} SectionStays(lines: seq<string>, section: Section)
    requires forall k | 0 <= k < |lines| :: !OpensSection(lines[k])
    ensures SectionOf(lines, section) == section
  {
    if lines != [] {
      SectionStays(lines[1..], section);
    }
  }

  // A section to be kept is shown whole, whatever came before it.
  lemma KeptIsWhole(lines: seq<string>, section: Section)
    requires IsSectionAt(lines, 0, |lines|) && SectionTitle(lines[0]) in KEEP_WHOLE
    ensures Shown(lines, section) == NonBlank(lines)
  {
    forall k | 0 <= k < |lines|
      ensures Stands(lines[k], SectionOf(lines[..k], section))
    {
      if k > 0 {
        assert lines[..k][0] == lines[0];
        SectionStays(lines[..k][1..], SectionAfter(lines[0], section));
      }
    }
    ShownWholeIff(lines, section);
  }

  lemma {:induction false} NoticeAtMeaning(lines: seq<string>)
    ensures NoticeAt(lines) < |lines| ==> WantsNotice(lines[NoticeAt(lines)])
    ensures forall k | 0 <= k < NoticeAt(lines) :: !WantsNotice(lines[k])
  {
    if lines != [] && !WantsNotice(lines[0]) {
      NoticeAtMeaning(lines[1..]);
      assert forall k | 1 <= k < NoticeAt(lines) :: lines[k] == lines[1..][k - 1];
    }
  }

  lemma CutTwice<T>(s: seq<T>, n: nat, p: nat, q: nat)
    requires n <= p <= q <= |s|
    ensures s[n..] == s[n..p] + (s[p..q] + s[q..])
    ensures s[..q] == s[..p] + s[p..q]
  {
  }

  // The stretch from `p` to `q` is shown in one piece, the notice not among it.
  lemma ShownInOnePiece(lines: seq<string>, notice: string, p: nat, q: nat)
    returns (before: seq<string>, section: Section, after: seq<string>)
    requires p <= q <= |lines| && (NoticeAt(lines) <= p || NoticeAt(lines) >= q)
    ensures Condensed(lines, notice) == before + Shown(lines[p..q], section) + after
  {
    var at := NoticeAt(lines);
    var s := SectionOf(lines[..at], Banner);
    if at <= p {
      var x, m, y := lines[at..p], lines[p..q], lines[q..];
      section := SectionOf(x, s);
      before, after := Shown(lines[..at], Banner) + [notice] + Shown(x, s), Shown(y, SectionOf(m, section));
      CutTwice(lines, at, p, q);
      ShownOfSum(x, m + y, s);
      ShownOfSum(m, y, section);
      FourParts(Shown(lines[..at], Banner) + [notice], Shown(x, s), Shown(m, section), after);
    } else {
      var x, m, y := lines[..p], lines[p..q], lines[q..at];
      section := SectionOf(x, Banner);
      before, after := Shown(x, Banner), Shown(y, SectionOf(m, section)) + [notice] + Shown(lines[at..], s);
      CutTwice(lines[..at], 0, p, q);
      assert lines[..at][0..] == lines[..at] && lines[..at][0..p] == x;
      assert lines[..at][p..q] == m && lines[..at][q..] == y;
      ShownOfSum(x, m + y, Banner);
      ShownOfSum(m, y, section);
      FiveParts(Shown(x, Banner), Shown(m, section), Shown(y, SectionOf(m, section)), [notice], Shown(lines[at..], s));
    }
  }

  lemma FourParts<T>(a: seq<T>, b: seq<T>, c: seq<T>, d: seq<T>)
    ensures a + (b + (c + d)) == a + b + c + d
  {
  }

  lemma FiveParts<T>(a: seq<T>, b: seq<T>, c: seq<T>, d: seq<T>, e: seq<T>)
    ensures a + (b + c) + d + e == a + b + (c + d + e)
  {
  }

  // A section that is to be kept stands whole in the condensed notes.
  lemma WholeSection(lines: seq<string>, notice: string, p: nat, q: nat)
    returns (before: seq<string>, after: seq<string>)
    requires IsSectionAt(lines, p, q) && SectionTitle(lines[p]) in KEEP_WHOLE
    ensures Condensed(lines, notice) == before + NonBlank(lines[p..q]) + after
  {
    var section;
    NoticeAtMeaning(lines);
    before, section, after := ShownInOnePiece(lines, notice, p, q);
    KeptIsWhole(lines[p..q], section);
  }

  // Blank lines at the end make no difference.
  lemma CondensedBlank(lines: seq<string>, notice: string)
    ensures Condensed(lines + [""], notice) == Condensed(lines, notice)
  {
    NoticeAtSnoc(lines, "");
    if NoticeAt(lines) < |lines| {
      BlankBehindNotice(lines, notice, lines + [""], NoticeAt(lines));
    } else {
      BlankBeforeNotice(lines, notice, lines + [""]);
    }
  }

  lemma BlankBehindNotice(lines: seq<string>, notice: string, more: seq<string>, at: nat)
    requires at == NoticeAt(lines) == NoticeAt(more) < |lines| && more == lines + [""]
    ensures Condensed(more, notice) == Condensed(lines, notice)
  {
    var tail, section := lines[at..], SectionOf(lines[..at], Banner);
    DropOfSum(lines, [""], at);
    assert more[..at] == lines[..at];
    ShownSnoc(tail, "", section);
    SumOfEmpty(Shown(tail, section));
  }

  lemma BlankBeforeNotice(lines: seq<string>, notice: string, more: seq<string>)
    requires NoticeAt(lines) == |lines| && NoticeAt(more) == |more| && more == lines + [""]
    ensures Condensed(more, notice) == Condensed(lines, notice)
  {
    CondensedAtEnd(lines, notice);
    CondensedAtEnd(more, notice);
    ShownSnoc(lines, "", Banner);
    SumOfEmpty(Shown(lines, Banner));
  }

  lemma CondensedAtEnd(lines: seq<string>, notice: string)
    requires NoticeAt(lines) == |lines|
    ensures Condensed(lines, notice) == Shown(lines, Banner) + [notice]
  {
    TakeAll(lines);
    SumOfEmpty(Shown(lines, Banner) + [notice]);
  }

  lemma {:induction false} CondensedTrim(lines: seq<string>, notice: string)
    ensures Condensed(TrimEnd(lines), notice) == Condensed(lines, notice)
  {
    if lines != [] && lines[|lines| - 1] == "" {
      SplitLast(lines);
      CondensedBlank(lines[..|lines| - 1], notice);
      CondensedTrim(lines[..|lines| - 1], notice);
    }
  }

  lemma {:induction false} TrimKeeps(lines: seq<string>, k: nat)
    requires k < |lines| && lines[k] != ""
    ensures k < |TrimEnd(lines)| && TrimEnd(lines) <= lines
  {
    if lines[|lines| - 1] == "" {
      TrimKeeps(lines[..|lines| - 1], k);
    }
  }

  // ---------- Blocks that open no section ----------

  predicate OpensBlock(b: Block) { b.Heading? && OpensSection(b.line) }

  // What could be taken for a section heading: code, and an indented heading that was
  // read as prose.
  predicate Quiet(b: Block) {
    && !OpensBlock(b) && (b.Raw? ==> !OpensSection(b.line))
    && (ProsePara(b) ==> !OpensSection(JoinLines(b.lines)))
  }

  lemma NoHash(line: string)
    requires line == "" || line[0] != '#'
    ensures !OpensSection(line) && !WantsNotice(line)
  {
  }

  lemma QuietItem(lines: seq<string>)
    requires lines != [] && ItemStart(lines[0])
    ensures !OpensSection(JoinLines(lines))
  {
    JoinedItem(lines);
    ItemFirst(JoinLines(lines));
    NoHash(JoinLines(lines));
  }

  lemma QuietLines(a: string, b: string, c: string)
    requires !OpensSection(b) && !OpensSection(c) && (a == HIGHLIGHTS || !OpensSection(a))
    ensures forall l | l in [a, b] + [c] :: !OpensSection(l) || l == HIGHLIGHTS
    ensures forall l | l in [] + [c] :: !OpensSection(l)
  {
  }

  lemma QuietPara(b: Block, due: bool)
    requires b.Para? && Quiet(b)
    ensures forall l | l in RenderBlock(b, due) :: !OpensSection(l) || l == HIGHLIGHTS
    ensures !ProsePara(b) || !due ==> forall l | l in RenderBlock(b, due) :: !OpensSection(l)
  {
    NoHash("> " + QuoteText(b.lines));
    NoHash("");
    if ProsePara(b) {
      QuietLines(HIGHLIGHTS, "", JoinLines(b.lines));
    }
  }

  lemma QuietBlock(b: Block, due: bool, fenced: bool, afterPara: bool)
    requires FitsHere(b, fenced, afterPara) && Quiet(b)
    ensures forall l | l in RenderBlock(b, due) :: !OpensSection(l) || l == HIGHLIGHTS
    ensures !ProsePara(b) || !due ==> forall l | l in RenderBlock(b, due) :: !OpensSection(l)
  {
    match b
    case Empty => NoHash("");
    case Fence(line) => NoHash(line);
    case Raw(_) =>
    case Heading(line) => TitleStays(line);
    case Item(lines) => QuietItem(lines);
    case Para(_) => QuietPara(b, due);
  }

  predicate AllQuiet(blocks: seq<Block>) { forall k | 0 <= k < |blocks| :: Quiet(blocks[k]) }

  lemma {:induction false} QuietRendered(blocks: seq<Block>, fenced: bool, afterPara: bool)
    requires Shape(blocks, fenced, afterPara) && AllQuiet(blocks)
    ensures forall l | l in Render(blocks, false) :: !OpensSection(l)
    decreases |blocks|
  {
    if blocks != [] {
      assert Quiet(blocks[0]);
      QuietBlock(blocks[0], false, fenced, afterPara);
      QuietRendered(blocks[1..], FencedAfter(blocks[0], fenced), blocks[0].Para?);
    }
  }

  lemma {:induction false} ShapeTake(blocks: seq<Block>, fenced: bool, afterPara: bool, n: nat)
    requires Shape(blocks, fenced, afterPara) && n <= |blocks|
    ensures Shape(blocks[..n], fenced, afterPara)
    decreases n
  {
    if n > 0 {
      ShapeTake(blocks[1..], FencedAfter(blocks[0], fenced), blocks[0].Para?, n - 1);
      TakeTail(blocks, n);
    }
  }

  lemma TakeTail<T>(s: seq<T>, n: nat)
    requires 0 < n <= |s|
    ensures s[..n][0] == s[0] && s[..n][1..] == s[1..][..n - 1]
  {
  }

  lemma DropTail<T>(s: seq<T>, i: nat)
    requires 0 < i <= |s|
    ensures s[1..][i - 1..] == s[i..]
  {
  }

  lemma {:induction false} ShapeFrom(blocks: seq<Block>, fenced: bool, afterPara: bool, i: nat)
    returns (fenced': bool, afterPara': bool)
    requires Shape(blocks, fenced, afterPara) && i <= |blocks|
    ensures Shape(blocks[i..], fenced', afterPara')
    decreases i
  {
    if i == 0 {
      fenced', afterPara' := fenced, afterPara;
      assert blocks[0..] == blocks;
    } else {
      fenced', afterPara' := ShapeFrom(blocks[1..], FencedAfter(blocks[0], fenced), blocks[0].Para?, i - 1);
      DropTail(blocks, i);
    }
  }

  // ---------- The summary ----------

  // The first prose of the notes, when no section comes before it.
  ghost predicate IsSummary(blocks: seq<Block>, i: nat) {
    i < |blocks| && ProsePara(blocks[i]) && forall j | 0 <= j < i :: !ProsePara(blocks[j]) && !OpensBlock(blocks[j])
  }

  lemma {:induction false} SummaryIsDue(blocks: seq<Block>, fenced: bool, afterPara: bool, i: nat)
    requires Shape(blocks, fenced, afterPara) && i <= |blocks|
    requires forall j | 0 <= j < i :: !ProsePara(blocks[j]) && !OpensBlock(blocks[j])
    ensures DueAfter(blocks[..i], true)
    ensures (exists l | l in Render(blocks[..i], true) :: WantsNotice(l)) <==>
              exists j | 0 <= j < i :: blocks[j].Raw? && WantsNotice(blocks[j].line)
    decreases i
  {
    if i > 0 {
      var b, rest := blocks[0], blocks[1..];
      EarlyBlock(b, fenced, afterPara);
      SummaryIsDue(rest, FencedAfter(b, fenced), b.Para?, i - 1);
      TakeTail(blocks, i);
      FirstIsDue(blocks[..i], b, rest[..i - 1]);
      EarlierOne(blocks, i);
    }
  }

  lemma FirstIsDue(blocks: seq<Block>, b: Block, rest: seq<Block>)
    requires blocks != [] && blocks[0] == b && blocks[1..] == rest && StillDue(b, true) && DueAfter(rest, true)
    ensures DueAfter(blocks, true)
    ensures (exists l | l in Render(blocks, true) :: WantsNotice(l)) <==>
              (exists l | l in RenderBlock(b, true) :: WantsNotice(l)) ||
              exists l | l in Render(rest, true) :: WantsNotice(l)
  {
    ExistsInSum(RenderBlock(b, true), Render(rest, true));
  }

  lemma ExistsInSum(a: seq<string>, b: seq<string>)
    ensures (exists l | l in a + b :: WantsNotice(l)) <==>
              (exists l | l in a :: WantsNotice(l)) || exists l | l in b :: WantsNotice(l)
  {
    assert forall l :: l in a + b <==> l in a || l in b;
  }

  lemma EarlierOne(blocks: seq<Block>, i: nat)
    requires 0 < i <= |blocks|
    ensures (exists j | 0 <= j < i :: blocks[j].Raw? && WantsNotice(blocks[j].line)) <==>
              (blocks[0].Raw? && WantsNotice(blocks[0].line)) ||
              exists j | 0 <= j < i - 1 :: blocks[1..][j].Raw? && WantsNotice(blocks[1..][j].line)
  {
    if j :| 0 <= j < i && blocks[j].Raw? && WantsNotice(blocks[j].line) {
      assert j > 0 ==> blocks[1..][j - 1] == blocks[j];
    }
    if j :| 0 <= j < i - 1 && blocks[1..][j].Raw? && WantsNotice(blocks[1..][j].line) {
      assert blocks[1..][j] == blocks[j + 1];
    }
  }

  // Before the summary only code can look like the section the notice is for.
  lemma EarlyBlock(b: Block, fenced: bool, afterPara: bool)
    requires FitsHere(b, fenced, afterPara) && !ProsePara(b) && !OpensBlock(b)
    ensures StillDue(b, true)
    ensures (exists l | l in RenderBlock(b, true) :: WantsNotice(l)) <==> b.Raw? && WantsNotice(b.line)
  {
    if b.Raw? {
      assert RenderBlock(b, true) == [b.line] && b.line in [b.line];
    } else {
      QuietBlock(b, true, fenced, afterPara);
    }
  }

  // ---------- Real notes ----------

  // The blocks of a section that `condense` is to keep whole.
  ghost predicate IsKeptSection(blocks: seq<Block>, i: nat, j: nat) {
    && i < j <= |blocks|
    && (IsSummary(blocks, i) || (OpensBlock(blocks[i]) && SectionTitle(blocks[i].line) in KEEP_WHOLE))
    && (ProsePara(blocks[i]) ==> Quiet(blocks[i])) && AllQuiet(blocks[i + 1..j])
  }

  function Written(blocks: seq<Block>, i: nat, j: nat): seq<string> {
    if i <= j <= |blocks| then Render(blocks[i..j], DueAfter(blocks[..i], true)) else []
  }

  function Behind(blocks: seq<Block>, i: nat, j: nat): seq<string> {
    if i <= j <= |blocks| then Render(blocks[j..], DueAfter(blocks[i..j], DueAfter(blocks[..i], true))) else []
  }

  lemma RenderedParts(blocks: seq<Block>, i: nat, j: nat)
    requires i <= j <= |blocks|
    ensures Render(blocks, true) == Render(blocks[..i], true) + (Written(blocks, i, j) + Behind(blocks, i, j))
  {
    CutAt(blocks, i);
    MiddleOut(blocks, i, j);
    RenderSum(blocks[..i], blocks[i..], true);
    RenderSum(blocks[i..j], blocks[j..], DueAfter(blocks[..i], true));
  }

  lemma MiddleOut<T>(s: seq<T>, i: nat, j: nat)
    requires i <= j <= |s|
    ensures s[i..] == s[i..j] + s[j..]
  {
  }

  lemma WrittenIs(blocks: seq<Block>, i: nat, j: nat)
    requires i < j <= |blocks|
    ensures var due := DueAfter(blocks[..i], true);
            Written(blocks, i, j) == RenderBlock(blocks[i], due) + Render(blocks[i + 1..j], StillDue(blocks[i], due))
  {
    assert blocks[i..j][0] == blocks[i] && blocks[i..j][1..] == blocks[i + 1..j];
  }

  lemma FitsAt(blocks: seq<Block>, i: nat) returns (fenced: bool, afterPara: bool)
    requires Shape(blocks, false, false) && i < |blocks|
    ensures FitsHere(blocks[i], fenced, afterPara)
  {
    fenced, afterPara := ShapeFrom(blocks, false, false, i);
    assert blocks[i..][0] == blocks[i];
  }

  lemma BodyIsQuiet(blocks: seq<Block>, i: nat, j: nat, body: seq<Block>)
    requires Shape(blocks, false, false) && i < j <= |blocks| && body == blocks[i + 1..j] && AllQuiet(body)
    ensures forall l | l in Render(body, false) :: !OpensSection(l)
  {
    var fenced, afterPara := ShapeFrom(blocks, false, false, i + 1);
    ShapeTake(blocks[i + 1..], fenced, afterPara, j - (i + 1));
    SliceTwice(blocks, i + 1, j);
    QuietRendered(body, fenced, afterPara);
  }

  // The summary's block, as it is written: its heading first.
  lemma SummaryBlock(b: Block, fenced: bool, afterPara: bool)
    requires FitsHere(b, fenced, afterPara) && ProsePara(b)
    ensures JoinLines(b.lines) != "" && !StillDue(b, true)
    ensures RenderBlock(b, true) == [HIGHLIGHTS, ""] + [JoinLines(b.lines)]
  {
    ProseHasText(b.lines);
  }

  lemma SummarySection(heading: string, summary: string, rest: seq<string>)
    requires OpensSection(heading) && !OpensSection(summary) && forall l | l in rest :: !OpensSection(l)
    ensures IsSectionAt([heading, ""] + [summary] + rest, 0, 3 + |rest|)
    ensures ([heading, ""] + [summary] + rest)[0] == heading && ([heading, ""] + [summary] + rest)[2] == summary
  {
    NoHash("");
    SectionLines([heading, ""] + [summary], rest);
    assert ([heading, ""] + [summary])[2] == summary;
  }

  lemma HeadingBlock(b: Block, rest: seq<string>, due: bool)
    requires OpensBlock(b) && forall l | l in rest :: !OpensSection(l)
    ensures !StillDue(b, due) && IsSectionAt(RenderBlock(b, due) + rest, 0, 1 + |rest|)
    ensures SectionTitle((RenderBlock(b, due) + rest)[0]) == SectionTitle(b.line)
  {
    TitleStays(b.line);
    SectionLines([RewriteHeading(b.line)], rest);
  }

  lemma WrittenSummary(blocks: seq<Block>, i: nat, j: nat)
    requires Shape(blocks, false, false) && IsSummary(blocks, i) && i < j <= |blocks|
    ensures Written(blocks, i, j) ==
            [HIGHLIGHTS, ""] + [JoinLines(blocks[i].lines)] + Render(blocks[i + 1..j], false)
    ensures JoinLines(blocks[i].lines) != ""
  {
    var fenced, afterPara := FitsAt(blocks, i);
    WrittenIs(blocks, i, j);
    SummaryIsDue(blocks, false, false, i);
    SummaryBlock(blocks[i], fenced, afterPara);
  }

  // As transformed, it is one section of that title.
  lemma WrittenSection(blocks: seq<Block>, i: nat, j: nat)
    requires Shape(blocks, false, false) && IsKeptSection(blocks, i, j)
    ensures IsSectionAt(Written(blocks, i, j), 0, |Written(blocks, i, j)|)
    ensures SectionTitle(Written(blocks, i, j)[0]) in KEEP_WHOLE
    ensures IsSummary(blocks, i) ==>
              |Written(blocks, i, j)| > 2 && Written(blocks, i, j)[0] == HIGHLIGHTS &&
              Written(blocks, i, j)[2] == JoinLines(blocks[i].lines) != ""
  {
    var rest := Render(blocks[i + 1..j], false);
    BodyIsQuiet(blocks, i, j, blocks[i + 1..j]);
    if IsSummary(blocks, i) {
      WrittenSummary(blocks, i, j);
      HighlightsTitle();
      SummarySection(HIGHLIGHTS, JoinLines(blocks[i].lines), rest);
    } else {
      WrittenIs(blocks, i, j);
      HeadingBlock(blocks[i], rest, DueAfter(blocks[..i], true));
    }
  }

  lemma SectionLines(a: seq<string>, b: seq<string>)
    requires IsSectionAt(a, 0, |a|) && forall l | l in b :: !OpensSection(l)
    ensures IsSectionAt(a + b, 0, |a + b|) && (a + b)[0] == a[0]
  {
    forall k | 0 < k < |a + b|
      ensures !OpensSection((a + b)[k])
    {
      assert k >= |a| ==> (a + b)[k] in b;
    }
  }

  // ---------- The blank lines of a section ----------

  // A section with one blank line behind its heading and every run of blank lines
  // after that made one.
  function Spaced(section: seq<string>): seq<string> {
    if section == [] then [] else [section[0]] + [""] + Squeeze(section[1..], true)
  }

  lemma {:induction false} SqueezeIsSame(lines: seq<string>, blank: bool)
    ensures Squeeze(lines, blank) == lines <==>
              !(blank && lines != [] && lines[0] == "") &&
              forall k | 0 < k < |lines| :: lines[k - 1] != "" || lines[k] != ""
  {
    if lines != [] {
      var rest, now := lines[1..], lines[0] == "";
      SqueezeIsSame(rest, now);
      SameTail(lines, Squeeze(rest, now));
      NoDoubleBlank(lines);
    }
  }

  lemma SameTail(lines: seq<string>, rest: seq<string>)
    requires lines != []
    ensures [lines[0]] + rest == lines <==> rest == lines[1..]
  {
    TailOfSum([lines[0]], rest);
    assert [lines[0]][1..] == [];
    SumOfEmpty(rest);
    SplitFirst(lines);
  }

  lemma NoDoubleBlank(lines: seq<string>)
    requires lines != []
    ensures (forall k | 0 < k < |lines| :: lines[k - 1] != "" || lines[k] != "") <==>
              !(lines[0] == "" && lines[1..] != [] && lines[1..][0] == "") &&
              forall k | 0 < k < |lines| - 1 :: lines[1..][k - 1] != "" || lines[1..][k] != ""
  {
    var rest := lines[1..];
    assert forall k | 0 <= k < |rest| :: rest[k] == lines[k + 1];
    if forall k | 0 < k < |lines| :: lines[k - 1] != "" || lines[k] != "" {
      forall k | 0 < k < |rest|
        ensures rest[k - 1] != "" || rest[k] != ""
      {
        assert lines[k + 1 - 1] != "" || lines[k + 1] != "";
      }
    } else {
      var k :| 0 < k < |lines| && lines[k - 1] == "" && lines[k] == "";
      assert k > 1 ==> rest[k - 1 - 1] == "" && rest[k - 1] == "";
    }
  }

  // So a section is kept to the line exactly when one blank line follows the heading
  // and no two blank lines follow each other.
  lemma SpacedIff(section: seq<string>)
    requires section != []
    ensures Spaced(section) == section <==>
              |section| > 1 && section[1] == "" &&
              forall k | 1 < k < |section| :: section[k - 1] != "" || section[k] != ""
  {
    var rest := section[1..];
    SplitFirst(section);
    SumAssoc([section[0]], [""], Squeeze(rest, true));
    SameTail(section, [""] + Squeeze(rest, true));
    if rest != [] {
      SplitFirst(rest);
      SqueezeIsSame(rest[1..], true);
      NoDoubleBlank(rest);
      if rest[0] == "" {
        SameTail(rest, Squeeze(rest, true));
      }
      Shifted(section);
    }
  }

  lemma Shifted(section: seq<string>)
    requires section != []
    ensures (forall k | 1 < k < |section| :: section[k - 1] != "" || section[k] != "") <==>
              forall k | 0 < k < |section| - 1 :: section[1..][k - 1] != "" || section[1..][k] != ""
  {
    var rest := section[1..];
    assert forall k | 0 <= k < |rest| :: rest[k] == section[k + 1];
    if k :| 1 < k < |section| && section[k - 1] == "" && section[k] == "" {
      assert rest[k - 1 - 1] == "" && rest[k - 1] == "";
    }
    if k :| 0 < k < |rest| && rest[k - 1] == "" && rest[k] == "" {
      assert section[k + 1 - 1] == "" && section[k + 1] == "";
    }
  }

  lemma {:induction false} KeptStream(lines: seq<string>, section: Section, noticed: bool, notice: string)
    requires KeptWhole(section) && forall k | 0 <= k < |lines| :: !OpensSection(lines[k])
    ensures Stream(lines, section, noticed, notice) == lines
  {
    if lines != [] {
      SplitFirst(lines);
      KeptStream(lines[1..], section, noticed, notice);
    }
  }

  // The heading of a section to be kept comes between blank lines, the notice before
  // them when it is due, and the other lines as they are.
  lemma SectionStream(body: seq<string>, section: Section, noticed: bool, notice: string) returns (lead: seq<string>)
    requires IsSectionAt(body, 0, |body|) && SectionTitle(body[0]) in KEEP_WHOLE
    ensures Stream(body, section, noticed, notice) == lead + (([body[0]] + [""]) + body[1..])
  {
    lead := [""] + (if !noticed && WantsNotice(body[0]) then [notice] + [""] else []);
    KeptStream(body[1..], Within(SectionTitle(body[0])), noticed || WantsNotice(body[0]), notice);
    SumAssoc(lead, [body[0]], [""]);
    SumAssoc(lead, [body[0]] + [""], body[1..]);
  }

  lemma SqueezeHeading(heading: string, rest: seq<string>, blank: bool)
    requires heading != ""
    ensures Squeeze(([heading] + [""]) + rest, blank) == [heading] + [""] + Squeeze(rest, true)
  {
    SqueezeSum([heading] + [""], rest, blank);
    SqueezeSum([heading], [""], blank);
    SqueezeOne(heading, blank);
    SqueezeOne("", false);
  }

  // A section to be kept is laid out as `Spaced`, whatever stands around it.
  lemma LaidOutSection(lines: seq<string>, notice: string, p: nat, q: nat)
    returns (before: seq<string>, after: seq<string>)
    requires IsSectionAt(lines, p, q) && SectionTitle(lines[p]) in KEEP_WHOLE
    ensures Layout(lines, notice) == before + Spaced(lines[p..q]) + after
  {
    var x, body, y := lines[..p], lines[p..q], lines[q..];
    var section, noticed := SectionOf(x, Banner), NoticeAt(x) < |x|;
    CutTwice(lines, 0, p, q);
    assert lines[0..] == lines && lines[0..p] == x;
    StreamSum(x, body + y, Banner, false, notice);
    StreamSum(body, y, section, noticed, notice);
    var lead := SectionStream(body, section, noticed, notice);
    var u, v := Stream(x, Banner, false, notice),
                Stream(y, SectionOf(body, section), noticed || NoticeAt(body) < |body|, notice);
    before, after := SqueezedMiddle(u, lead, body[0], body[1..], v);
    var tail := if NoticeAt(lines) < |lines| then [] else [""] + [notice];
    SumAssoc(before + Spaced(body), after, tail);
    after := after + tail;
  }

  lemma SqueezedMiddle(u: seq<string>, lead: seq<string>, heading: string, rest: seq<string>, v: seq<string>)
    returns (before: seq<string>, after: seq<string>)
    requires heading != ""
    ensures Squeeze(u + ((lead + (([heading] + [""]) + rest)) + v), true) ==
            before + ([heading] + [""] + Squeeze(rest, true)) + after
  {
    var m := ([heading] + [""]) + rest;
    var blank := EndsBlank(u + lead, true);
    before, after := Squeeze(u + lead, true), Squeeze(v, EndsBlank(m, blank));
    FourParts(u, lead, m, v);
    SumAssoc(lead, m, v);
    SqueezeSum(u + lead + m, v, true);
    SqueezeSum(u + lead, m, true);
    SqueezeHeading(heading, rest, blank);
  }

  // In the notes that `transform` wrote, the summary and every section to be kept stand
  // whole in what `condense` shows: line for line, but for their blank lines. `body` is
  // the section as far as the notes have it, which end with no blank line.
  lemma SectionIsKept(text: seq<string>, i: nat, j: nat, notice: string)
    returns (before: seq<string>, after: seq<string>, lead: seq<string>, body: seq<string>, rest: seq<string>)
    requires IsKeptSection(Blocks(text, false, Closed), i, j)
    ensures Condensed(Transformed(text), notice) ==
            before + NonBlank(Written(Blocks(text, false, Closed), i, j)) + after
    ensures Layout(Transformed(text), notice) == lead + Spaced(body) + rest
    ensures UpToBlanks(body, Written(Blocks(text, false, Closed), i, j))
  {
    var blocks := Blocks(text, false, Closed);
    BlocksShape(text, false, Closed, false);
    WrittenSection(blocks, i, j);
    RenderedParts(blocks, i, j);
    before, after := KeptInMiddle(Render(blocks, true), Render(blocks[..i], true), Written(blocks, i, j),
                                  Behind(blocks, i, j), notice);
    lead, body, rest := SpacedInMiddle(Render(blocks, true), Render(blocks[..i], true), Written(blocks, i, j),
                                       Behind(blocks, i, j), notice);
  }

  ghost predicate UpToBlanks(body: seq<string>, all: seq<string>) {
    body <= all && forall k | |body| <= k < |all| :: all[k] == ""
  }

  lemma KeptInMiddle(all: seq<string>, pre: seq<string>, body: seq<string>, post: seq<string>, notice: string)
    returns (before: seq<string>, after: seq<string>)
    requires all == pre + (body + post) && IsSectionAt(body, 0, |body|) && SectionTitle(body[0]) in KEEP_WHOLE
    ensures Condensed(TrimEnd(all), notice) == before + NonBlank(body) + after
  {
    var p, q := |pre|, |pre| + |body|;
    SectionInMiddle(pre, body, post);
    assert IsSectionAt(all, p, q) && all[p..q] == body;
    CondensedTrim(all, notice);
    before, after := WholeSection(all, notice, p, q);
  }

  lemma {:induction false} TrimCutsBlanks(lines: seq<string>)
    ensures UpToBlanks(TrimEnd(lines), lines)
  {
    if lines != [] && lines[|lines| - 1] == "" {
      TrimCutsBlanks(lines[..|lines| - 1]);
      assert forall k | 0 <= k < |lines| - 1 :: lines[k] == lines[..|lines| - 1][k];
    }
  }

  lemma SpacedInMiddle(all: seq<string>, pre: seq<string>, body: seq<string>, post: seq<string>, notice: string)
    returns (before: seq<string>, kept: seq<string>, after: seq<string>)
    requires all == pre + (body + post) && IsSectionAt(body, 0, |body|) && SectionTitle(body[0]) in KEEP_WHOLE
    ensures Layout(TrimEnd(all), notice) == before + Spaced(kept) + after
    ensures UpToBlanks(kept, body)
  {
    var lines, p, q := TrimEnd(all), |pre|, |pre| + |body|;
    SectionInMiddle(pre, body, post);
    TrimKeeps(all, p);
    TrimCutsBlanks(all);
    q := if q <= |lines| then q else |lines|;
    kept := lines[p..q];
    assert kept == body[..q - p];
    forall k | |kept| <= k < |body|
      ensures body[k] == ""
    {
      assert all[p + k] == body[k];
    }
    assert IsSectionAt(lines, p, q) && lines[p] == body[0];
    before, after := LaidOutSection(lines, notice, p, q);
  }

  lemma SectionInMiddle(pre: seq<string>, body: seq<string>, post: seq<string>)
    requires IsSectionAt(body, 0, |body|)
    ensures var all := pre + (body + post);
            && IsSectionAt(all, |pre|, |pre| + |body|) && all[|pre|..|pre| + |body|] == body && all[|pre|] == body[0]
  {
    var all := pre + (body + post);
    assert forall k | 0 <= k < |body| :: all[|pre| + k] == body[k];
    forall k | |pre| < k < |pre| + |body|
      ensures !OpensSection(all[k])
    {
      assert all[k] == body[k - |pre|];
    }
  }

  // How the notes start when they have a summary.
  lemma SummaryLines(text: seq<string>, i: nat)
    requires IsSummary(Blocks(text, false, Closed), i)
    ensures var blocks := Blocks(text, false, Closed);
            Render(blocks[..i], true) + [HIGHLIGHTS, ""] + [JoinLines(blocks[i].lines)] <= Transformed(text)
  {
    var blocks := Blocks(text, false, Closed);
    BlocksShape(text, false, Closed, false);
    RenderedParts(blocks, i, i + 1);
    SummaryAlone(blocks, i);
    StartsWith(Render(blocks, true), Render(blocks[..i], true), Written(blocks, i, i + 1), JoinLines(blocks[i].lines),
               Behind(blocks, i, i + 1));
  }

  lemma SummaryAlone(blocks: seq<Block>, i: nat)
    requires Shape(blocks, false, false) && IsSummary(blocks, i)
    ensures Written(blocks, i, i + 1) == [HIGHLIGHTS, ""] + [JoinLines(blocks[i].lines)]
    ensures JoinLines(blocks[i].lines) != ""
  {
    WrittenSummary(blocks, i, i + 1);
    assert blocks[i + 1..i + 1] == [];
    SumOfEmpty([HIGHLIGHTS, ""] + [JoinLines(blocks[i].lines)]);
  }

  lemma StartsWith(all: seq<string>, pre: seq<string>, lead: seq<string>, summary: string, post: seq<string>)
    requires all == pre + (lead + post) && lead == [HIGHLIGHTS, ""] + [summary] && summary != ""
    ensures pre + [HIGHLIGHTS, ""] + [summary] <= TrimEnd(all)
  {
    assert all[|pre| + 2] == summary;
    TrimKeeps(all, |pre| + 2);
    assert pre + [HIGHLIGHTS, ""] + [summary] == all[..|pre| + 3];
  }

  // The notice comes behind the summary, unless code before it, or an indented heading
  // that the summary starts with, looks like another section.
  lemma NoticeAfterSummaryIff(text: seq<string>, i: nat)
    requires IsSummary(Blocks(text, false, Closed), i)
    ensures var blocks, lines := Blocks(text, false, Closed), Transformed(text);
            var p := |Render(blocks[..i], true)|;
            && p + 2 < |lines| && lines[p] == HIGHLIGHTS && lines[p + 2] == JoinLines(blocks[i].lines)
            && (NoticeAt(lines) > p + 2 <==>
                  !WantsNotice(JoinLines(blocks[i].lines)) &&
                  forall j | 0 <= j < i && blocks[j].Raw? :: !WantsNotice(blocks[j].line))
  {
    var blocks := Blocks(text, false, Closed);
    BlocksShape(text, false, Closed, false);
    SummaryLines(text, i);
    SummaryIsDue(blocks, false, false, i);
    HighlightsTitle();
    NoHash("");
    NoticeBehind(Transformed(text), Render(blocks[..i], true), JoinLines(blocks[i].lines));
  }

  lemma NoticeBehind(lines: seq<string>, pre: seq<string>, summary: string)
    requires pre + [HIGHLIGHTS, ""] + [summary] <= lines && !WantsNotice(HIGHLIGHTS) && !WantsNotice("")
    ensures |pre| + 2 < |lines| && lines[|pre|] == HIGHLIGHTS && lines[|pre| + 2] == summary
    ensures NoticeAt(lines) > |pre| + 2 <==> !WantsNotice(summary) && !exists l | l in pre :: WantsNotice(l)
  {
    StartsLike(lines, pre, HIGHLIGHTS, "", summary);
    NoticeBehindThree(lines, pre);
  }

  lemma StartsLike<T>(s: seq<T>, pre: seq<T>, a: T, b: T, c: T)
    requires pre + [a, b] + [c] <= s
    ensures |pre| + 2 < |s| && s[..|pre|] == pre && s[|pre|] == a && s[|pre| + 1] == b && s[|pre| + 2] == c
  {
    var head := pre + [a, b] + [c];
    assert forall k | 0 <= k < |head| :: s[k] == head[k];
  }

  lemma NoticeBehindThree(lines: seq<string>, pre: seq<string>)
    requires |pre| + 2 < |lines| && lines[..|pre|] == pre
    requires !WantsNotice(lines[|pre|]) && !WantsNotice(lines[|pre| + 1])
    ensures NoticeAt(lines) > |pre| + 2 <==>
              !WantsNotice(lines[|pre| + 2]) && !exists l | l in pre :: WantsNotice(l)
  {
    NoticeAtMeaning(lines);
    FirstOfThree(lines, pre, NoticeAt(lines));
  }

  lemma FirstOfThree(lines: seq<string>, pre: seq<string>, at: nat)
    requires |pre| + 2 < |lines| && lines[..|pre|] == pre
    requires !WantsNotice(lines[|pre|]) && !WantsNotice(lines[|pre| + 1])
    requires at < |lines| ==> WantsNotice(lines[at])
    requires forall k | 0 <= k < at && k < |lines| :: !WantsNotice(lines[k])
    ensures at > |pre| + 2 <==> !WantsNotice(lines[|pre| + 2]) && !exists l | l in pre :: WantsNotice(l)
  {
    if l :| l in pre && WantsNotice(l) {
      var k :| 0 <= k < |pre| && pre[k] == l;
      assert lines[k] == l;
    }
    if at < |pre| {
      assert lines[at] == pre[at];
    }
  }

  // ---------- Where the claims fail ----------

  lemma ReadFence(fenced: bool)
    ensures Read(FENCE, fenced, Closed) == Step([Fence(FENCE)], !fenced, Closed)
  {
    assert FENCE[0] == '`' && FENCE[2] == '`';
    assert RStrip(FENCE) == FENCE;
    SumOfEmpty([Fence(FENCE)]);
  }

  lemma CodeBlocks(code: string, rest: seq<string>)
    requires code != "" && code[0] == '#'
    ensures Blocks([FENCE, code, FENCE] + rest, false, Closed) ==
            [Fence(FENCE), Raw(code), Fence(FENCE)] + Blocks(rest, false, Closed)
  {
    ReadFence(false);
    ReadFence(true);
    RStripMeaning(code);
    assert Read(code, true, Closed) == Step([Raw(code)], true, Closed);
    ThreeFirst(FENCE, code, FENCE, rest);
    FirstLine(FENCE, [code] + ([FENCE] + rest), false, Closed);
    FirstLine(code, [FENCE] + rest, true, Closed);
    FirstLine(FENCE, rest, true, Closed);
    ThreeFirst(Fence(FENCE), Raw(code), Fence(FENCE), Blocks(rest, false, Closed));
  }

  lemma ThreeFirst<T>(a: T, b: T, c: T, rest: seq<T>)
    ensures [a, b, c] + rest == [a] + ([b] + ([c] + rest))
  {
  }

  lemma SectionBlocks(heading: string, code: string)
    requires RStrip(heading) == heading && IsHeading(heading) && code != "" && code[0] == '#'
    ensures Blocks([heading, FENCE, code, FENCE], false, Closed) ==
            [Heading(heading), Fence(FENCE), Raw(code), Fence(FENCE)]
  {
    var rest := [FENCE, code, FENCE] + [];
    LevelMeaning(heading);
    SumOfEmpty([Heading(heading)]);
    assert Read(heading, false, Closed) == Step([Heading(heading)], false, Closed);
    FirstLine(heading, rest, false, Closed);
    CodeBlocks(code, []);
    FourFirst(heading, FENCE, code, FENCE);
    FourFirst(Heading(heading), Fence(FENCE), Raw(code), Fence(FENCE));
  }

  lemma FourFirst<T>(a: T, b: T, c: T, d: T)
    ensures [a] + ([b, c, d] + []) == [a, b, c, d]
  {
  }

  // A heading inside a code block ends a section that is to be kept: what comes after
  // it, the end of the code block included, is dropped.
  lemma CodeInSectionFails(heading: string, code: string, notice: string)
    requires RStrip(heading) == heading && OpensSection(heading) && OpensSection(code)
    requires SectionTitle(heading) in {"Migrations", "Breaking"} && SectionTitle(code) !in KEEP_WHOLE
    ensures Condensed(Transformed([heading, FENCE, code, FENCE]), notice) ==
            [notice, RewriteHeading(heading), FENCE, code]
  {
    LevelMeaning(code);
    SectionBlocks(heading, code);
    SectionOfCode(Heading(heading), Fence(FENCE), Raw(code));
    TitleStays(heading);
    CodeShown(RewriteHeading(heading), FENCE, code, notice);
  }

  lemma SectionOfCode(a: Block, b: Block, c: Block)
    requires a.Heading? && b.Fence? && c.Raw?
    ensures Render([a, b, c, b], true) == [RewriteHeading(a.line), b.line, c.line, b.line]
  {
    var due := StillDue(a, true);
    RenderCons(b, [], due);
    RenderCons(c, [b], due);
    RenderCons(b, [c, b], due);
    RenderCons(a, [b, c, b], true);
    FourLists(a, b, c, b);
    FourLists(RewriteHeading(a.line), b.line, c.line, b.line);
  }

  lemma ReadBlank()
    ensures Read("", true, Closed) == Step([Raw("")], true, Closed)
  {
    assert RStrip("") == "";
  }

  lemma FiveInOrder<T>(a: T, b: T, c: T, d: T, e: T)
    ensures [a] + ([b] + ([c] + ([d] + ([e] + [])))) == [a, b, c, d, e]
  {
  }

  lemma BlankCodeBlocks(heading: string)
    requires RStrip(heading) == heading && IsHeading(heading)
    ensures Blocks([heading, FENCE, "", "", FENCE], false, Closed) ==
            [Heading(heading), Fence(FENCE), Raw(""), Raw(""), Fence(FENCE)]
  {
    LevelMeaning(heading);
    assert Read(heading, false, Closed) == Step([Heading(heading)], false, Closed);
    ReadFence(false);
    ReadFence(true);
    ReadBlank();
    ReadAll(heading, FENCE, "", "", FENCE);
    FiveInOrder(Heading(heading), Fence(FENCE), Raw(""), Raw(""), Fence(FENCE));
  }

  lemma BlankCodeRendered(a: Block, b: Block, c: Block)
    requires a.Heading? && b.Fence? && c.Raw?
    ensures Render([a, b, c, c, b], true) == [RewriteHeading(a.line), b.line, c.line, c.line, b.line]
  {
    var due := StillDue(a, true);
    RenderCons(b, [], due);
    RenderCons(c, [b] + [], due);
    RenderCons(c, [c] + ([b] + []), due);
    RenderCons(b, [c] + ([c] + ([b] + [])), due);
    RenderCons(a, [b] + ([c] + ([c] + ([b] + []))), true);
    FiveInOrder(a, b, c, c, b);
    FiveInOrder(RewriteHeading(a.line), b.line, c.line, c.line, b.line);
  }

  // Two blank lines of code in a section that is to be kept come out as one, and one
  // that was not there comes behind the heading.
  lemma BlankRunFails(heading: string, notice: string) returns (before: seq<string>, after: seq<string>)
    requires RStrip(heading) == heading && OpensSection(heading) && SectionTitle(heading) in KEEP_WHOLE
    ensures var lines, first := Transformed([heading, FENCE, "", "", FENCE]), RewriteHeading(heading);
            && lines == [first, FENCE, "", "", FENCE]
            && Layout(lines, notice) == before + [first, "", FENCE, "", FENCE] + after
  {
    var first := RewriteHeading(heading);
    BlankCodeBlocks(heading);
    BlankCodeRendered(Heading(heading), Fence(FENCE), Raw(""));
    TitleStays(heading);
    FenceIsFence();
    BlankCodeSection(first, FENCE);
    before, after := LaidOutSection([first, FENCE, "", "", FENCE], notice, 0, 5);
    SpacedCode(first, FENCE);
  }

  lemma BlankCodeSection(first: string, fence: string)
    requires OpensSection(first) && IsFence(fence)
    ensures var lines := [first, fence, "", "", fence];
            && IsSectionAt(lines, 0, 5) && lines[0] == first && lines[0..5] == lines && TrimEnd(lines) == lines
  {
    NoHash("");
    NoHash(fence);
  }

  lemma SpacedCode(a: string, b: string)
    requires b != ""
    ensures Spaced([a, b, "", "", b]) == [a, "", b, "", b]
  {
    var code := [b, "", "", b];
    assert [a, b, "", "", b][1..] == code;
    SqueezeFour(b);
    assert [a] + [""] + [b, "", b] == [a, "", b, "", b];
  }

  lemma SqueezeFour(b: string)
    requires b != ""
    ensures Squeeze([b, "", "", b], true) == [b, "", b]
  {
    SqueezeSum([b, ""], ["", b], true);
    SqueezeSum([b], [""], true);
    SqueezeSum([""], [b], true);
    SqueezeOne(b, true);
    SqueezeOne("", false);
    SqueezeOne("", true);
    assert [b, ""] == [b] + [""] && ["", b] == [""] + [b] && [b, "", "", b] == [b, ""] + ["", b];
    assert [b] + [""] + ([] + [b]) == [b, "", b];
  }

  lemma ShownOne(a: string, section: Section)
    ensures Shown([a], section) == ShownLine(a, section) && SectionOf([a], section) == SectionAfter(a, section)
  {
    assert [a][1..] == [];
    SumOfEmpty(ShownLine(a, section));
  }

  lemma ShownTwo(a: string, b: string, section: Section)
    ensures Shown([a, b], section) == ShownLine(a, section) + ShownLine(b, SectionAfter(a, section))
    ensures SectionOf([a, b], section) == SectionAfter(b, SectionAfter(a, section))
  {
    assert [a, b] == [a] + [b];
    ShownOne(a, section);
    ShownOne(b, SectionAfter(a, section));
    ShownOfSum([a], [b], section);
    SectionOfSum([a], [b], section);
  }

  lemma ShownFour(a: string, b: string, c: string, d: string, section: Section, inside: Section)
    requires inside == SectionOf([a, b], section)
    ensures Shown([a, b, c, d], section) == Shown([a, b], section) + Shown([c, d], inside)
  {
    assert [a, b, c, d] == [a, b] + [c, d];
    ShownOfSum([a, b], [c, d], section);
  }

  lemma ShownAs(heading: string, fence: string, code: string)
    requires OpensSection(heading) && SectionTitle(heading) in {"Migrations", "Breaking"}
    requires OpensSection(code) && SectionTitle(code) !in KEEP_WHOLE
    requires fence != "" && fence[0] == '`'
    ensures var kept := SectionAfter(heading, Banner);
            && kept == SectionAfter(fence, kept)
            && ShownLine(heading, Banner) == [heading] && ShownLine(fence, kept) == [fence]
            && ShownLine(code, kept) == [code] && ShownLine(fence, SectionAfter(code, kept)) == []
  {
    NoHash(fence);
    NoItem(fence);
  }

  lemma CodeShown(heading: string, fence: string, code: string, notice: string)
    requires OpensSection(heading) && SectionTitle(heading) in {"Migrations", "Breaking"}
    requires OpensSection(code) && SectionTitle(code) !in KEEP_WHOLE
    requires fence != "" && fence[0] == '`'
    ensures TrimEnd([heading, fence, code, fence]) == [heading, fence, code, fence]
    ensures Condensed([heading, fence, code, fence], notice) == [notice, heading, fence, code]
  {
    var kept := SectionAfter(heading, Banner);
    ShownAs(heading, fence, code);
    ShownTwo(heading, fence, Banner);
    ShownTwo(code, fence, kept);
    ShownFour(heading, fence, code, fence, Banner, kept);
    NoticeFirst([heading, fence, code, fence], notice);
    FourLines(notice, heading, fence, code);
  }

  lemma FourLines<T>(a: T, b: T, c: T, d: T)
    ensures [a] + ([b] + [c] + ([d] + [])) == [a, b, c, d]
  {
  }

  lemma NoticeFirst(lines: seq<string>, notice: string)
    requires lines != [] && WantsNotice(lines[0])
    ensures Condensed(lines, notice) == [notice] + Shown(lines, Banner)
  {
    assert lines[..0] == [] && lines[0..] == lines;
    SumOfEmpty([notice]);
  }

  lemma ThreeAndOne<T>(a: T, b: T, c: T, d: T)
    ensures [a, b, c] + [d] == [a, b, c, d]
  {
  }

  lemma OneParagraph(summary: string)
    requires Prose(summary) && Tight(summary)
    ensures Blocks([summary], false, Closed) == [Para([summary])]
  {
    assert Read(summary, false, Closed) == Step([], false, InPara([summary]));
    assert [summary][1..] == [];
    SumOfEmpty([Para([summary])]);
  }

  // A heading inside a code block before the summary takes the notice.
  lemma CodeBeforeSummaryFails(code: string, summary: string)
    requires WantsNotice(code) && Prose(summary) && Tight(summary) && !IsBlockquote(summary)
    ensures var text := [FENCE, code, FENCE, summary];
            && IsSummary(Blocks(text, false, Closed), 3)
            && NoticeAt(Transformed(text)) <= |Render(Blocks(text, false, Closed)[..3], true)| + 2
  {
    var text := [FENCE, code, FENCE] + [summary];
    ThreeAndOne(FENCE, code, FENCE, summary);
    LevelMeaning(code);
    CodeBlocks(code, [summary]);
    OneParagraph(summary);
    ThreeAndOne(Fence(FENCE), Raw(code), Fence(FENCE), Para([summary]));
    var blocks := Blocks(text, false, Closed);
    assert ProsePara(blocks[3]) by { assert !IsBlockquote(blocks[3].lines[0]); }
    assert blocks[1].Raw? && WantsNotice(blocks[1].line);
    NoticeAfterSummaryIff(text, 3);
  }

  // ---------- A section cut to headlines ----------

  // The headlines of its bullets, in order.
  function Headlines(lines: seq<string>): seq<string> {
    if lines == [] then [] else (if IsListItem(lines[0]) then [Headline(lines[0])] else []) + Headlines(lines[1..])
  }

  lemma {:induction false} HeadlineStream(lines: seq<string>, section: Section, noticed: bool, notice: string)
    requires !KeptWhole(section) && forall k | 0 <= k < |lines| :: !OpensSection(lines[k])
    ensures Stream(lines, section, noticed, notice) == Headlines(lines)
  {
    if lines != [] {
      HeadlineStream(lines[1..], section, noticed, notice);
    }
  }

  lemma {:induction false} HeadlinesHaveText(lines: seq<string>)
    ensures forall i | 0 <= i < |Headlines(lines)| :: Headlines(lines)[i] != ""
  {
    if lines != [] {
      HeadlinesHaveText(lines[1..]);
      if IsListItem(lines[0]) {
        ItemHasText(lines[0]);
        var n, tail := HeadlineIsACut(lines[0]);
      }
    }
  }

  lemma TextStays(lines: seq<string>, blank: bool)
    requires forall i | 0 <= i < |lines| :: lines[i] != ""
    ensures Squeeze(lines, blank) == lines
  {
    SqueezeIsSame(lines, blank);
  }

  // Any other section is its heading, a blank line, and the headlines of its bullets one
  // below the other.
  lemma HeadlinesOfSection(lines: seq<string>, notice: string, p: nat, q: nat)
    returns (before: seq<string>, after: seq<string>)
    requires IsSectionAt(lines, p, q) && SectionTitle(lines[p]) !in KEEP_WHOLE
    ensures Layout(lines, notice) == before + ([lines[p]] + [""] + Headlines(lines[p + 1..q])) + after
  {
    var x, body, y := lines[..p], lines[p..q], lines[q..];
    var section, noticed := SectionOf(x, Banner), NoticeAt(x) < |x|;
    CutTwice(lines, 0, p, q);
    assert lines[0..] == lines && lines[0..p] == x && body[1..] == lines[p + 1..q];
    StreamSum(x, body + y, Banner, false, notice);
    StreamSum(body, y, section, noticed, notice);
    var lead := HeadingStream(body, section, noticed, notice);
    before, after := SqueezedMiddle(Stream(x, Banner, false, notice), lead, body[0], Headlines(body[1..]),
                       Stream(y, SectionOf(body, section), noticed || NoticeAt(body) < |body|, notice));
    HeadlinesHaveText(body[1..]);
    TextStays(Headlines(body[1..]), true);
    var tail := if NoticeAt(lines) < |lines| then [] else [""] + [notice];
    SumAssoc(before + ([lines[p]] + [""] + Headlines(lines[p + 1..q])), after, tail);
    after := after + tail;
  }

  lemma HeadingStream(body: seq<string>, section: Section, noticed: bool, notice: string) returns (lead: seq<string>)
    requires IsSectionAt(body, 0, |body|) && SectionTitle(body[0]) !in KEEP_WHOLE
    ensures Stream(body, section, noticed, notice) == lead + (([body[0]] + [""]) + Headlines(body[1..]))
  {
    lead := [""] + (if !noticed && WantsNotice(body[0]) then [notice] + [""] else []);
    HeadlineStream(body[1..], Within(SectionTitle(body[0])), noticed || WantsNotice(body[0]), notice);
    SumAssoc(lead, [body[0]], [""]);
    SumAssoc(lead, [body[0]] + [""], Headlines(body[1..]));
  }
}
