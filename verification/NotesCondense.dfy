// `condense` of scripts/format_release_notes.py: notes over the size limit are cut
// to headlines, and cut short when even those do not fit.
module NotesCondense {
  import opened Sequences
  import opened Text
  import opened ReleaseNotes

  // ---------- Headlines ----------

  // The first place from `i` on where `**` stands; |s| if there is none.
  function FindBold(s: string, i: nat): (n: nat)
    ensures n <= |s|
    decreases |s| - i
  {
    if i + 1 >= |s| then |s| else if s[i] == '*' && s[i + 1] == '*' then i else FindBold(s, i + 1)
  }

  predicate EndsSentence(s: string, i: nat) { i + 1 < |s| && s[i] in ".!?" && IsSpace(s[i + 1]) }

  // Where the first sentence of at least 20 characters before its stop ends.
  function FindStop(s: string, i: nat): (n: nat)
    ensures n <= |s|
    decreases |s| - i
  {
    if i >= |s| then |s| else if EndsSentence(s, i) then i else FindStop(s, i + 1)
  }

  // `s.rsplit(" ", 1)[0]`.
  function BeforeLastSpace(s: string): (r: string)
    ensures r <= s
  {
    if s == "" then "" else if s[|s| - 1] == ' ' then s[..|s| - 1]
    else if ' ' in s then BeforeLastSpace(s[..|s| - 1]) else s
  }

  const LIMIT := 200
  const SHORTEST_SENTENCE := 20

  function Headline(bullet: string): string {
    var close := FindBold(bullet, 5);
    var text := if |bullet| < 2 then "" else bullet[2..];
    var stop := FindStop(text, SHORTEST_SENTENCE);
    if "- **" <= bullet && close < |bullet| && close + 2 <= |bullet| then bullet[..close + 2]
    else if stop < |text| && stop + 1 <= LIMIT then "- " + text[..stop + 1]
    else if |text| <= LIMIT then bullet
    else "- " + BeforeLastSpace(text[..LIMIT]) + " \U{2026}"
  }

  // `headline` says the first `n` characters of what the bullet says, and then `tail`.
  ghost predicate CutAs(headline: string, bullet: string, n: nat, tail: string) {
    && n + 2 <= |bullet| && n + 2 <= |headline| && headline[2..n + 2] == bullet[2..n + 2]
    && headline[n + 2..] == tail && headline == headline[..2] + bullet[2..n + 2] + tail
  }

  lemma CutPrefix(bullet: string, n: nat)
    requires n + 2 <= |bullet|
    ensures CutAs(bullet[..n + 2], bullet, n, "")
  {
    CutAt(bullet[..n + 2], 2);
    SumOfEmpty(bullet[..2] + bullet[2..n + 2]);
  }

  lemma CutDashed(bullet: string, n: nat, tail: string)
    requires n + 2 <= |bullet|
    ensures CutAs("- " + bullet[2..n + 2] + tail, bullet, n, tail)
  {
    var said := bullet[2..n + 2];
    SumSlices("- " + said, tail);
    SumSlices("- ", said);
    assert ("- " + said + tail)[..2] == "- ";
    assert ("- " + said + tail)[2..n + 2] == ("- " + said)[2..];
  }

  // A headline is a cut: at most one character longer than its bullet, and what it
  // says is the start of what the bullet says.
  lemma HeadlineIsACut(bullet: string) returns (n: nat, tail: string)
    requires |bullet| >= 2
    ensures |Headline(bullet)| <= |bullet| + 1
    ensures CutAs(Headline(bullet), bullet, n, tail) && (tail == "" || tail == " \U{2026}")
  {
    var text := bullet[2..];
    var close, stop := FindBold(bullet, 5), FindStop(text, SHORTEST_SENTENCE);
    tail := "";
    if "- **" <= bullet && close < |bullet| && close + 2 <= |bullet| {
      n := close;
      CutPrefix(bullet, n);
    } else if stop < |text| && stop + 1 <= LIMIT {
      n := stop + 1;
      assert text[..n] == bullet[2..n + 2];
      CutDashed(bullet, n, "");
      SumOfEmpty("- " + text[..n]);
    } else if |text| <= LIMIT {
      n := |text|;
      CutPrefix(bullet, n);
      TakeAll(bullet);
    } else {
      var cut := BeforeLastSpace(text[..LIMIT]);
      n, tail := |cut|, " \U{2026}";
      assert cut == text[..n] && text[..n] == bullet[2..n + 2];
      CutDashed(bullet, n, tail);
    }
  }

  // ---------- Which cut a headline is ----------

  predicate BoldAt(s: string, i: int) { 0 <= i && i + 1 < |s| && s[i] == '*' && s[i + 1] == '*' }

  // The bullet starts in bold, up to the first `**` that leaves something in it.
  ghost predicate BoldLead(bullet: string, close: int) {
    && "- **" <= bullet && close >= 5 && BoldAt(bullet, close)
    && forall i | 5 <= i < close :: !BoldAt(bullet, i)
  }

  ghost predicate NoBoldLead(bullet: string) { forall close :: !BoldLead(bullet, close) }

  // The first stop with a space behind it and 20 characters or more before it.
  ghost predicate FirstStop(text: string, stop: int) {
    20 <= stop < |text| && EndsSentence(text, stop) && forall i | 20 <= i < stop :: !EndsSentence(text, i)
  }

  lemma {:induction false} FindBoldMeaning(s: string, i: nat)
    ensures var n := FindBold(s, i);
            (n < |s| ==> i <= n && BoldAt(s, n)) && forall j | i <= j < n :: !BoldAt(s, j)
    decreases |s| - i
  {
    if i + 1 < |s| && !BoldAt(s, i) {
      FindBoldMeaning(s, i + 1);
    }
  }

  lemma {:induction false} FindStopMeaning(s: string, i: nat)
    ensures var n := FindStop(s, i);
            (n < |s| ==> i <= n && EndsSentence(s, n)) && forall j: nat | i <= j < n :: !EndsSentence(s, j)
    decreases |s| - i
  {
    if i < |s| && !EndsSentence(s, i) {
      FindStopMeaning(s, i + 1);
    }
  }

  // Before the last space, or all of a text without one.
  lemma {:induction false} BeforeLastSpaceMeaning(s: string)
    ensures var n := |BeforeLastSpace(s)|;
            if ' ' in s then n < |s| && s[n] == ' ' && ' ' !in s[n + 1..] else n == |s|
  {
    if s != "" && s[|s| - 1] != ' ' && ' ' in s {
      var init := s[..|s| - 1];
      SplitLast(s);
      InSumOf(init, [s[|s| - 1]], ' ');
      BeforeLastSpaceMeaning(init);
      var n := |BeforeLastSpace(init)|;
      DropOfSum(init, [s[|s| - 1]], n + 1);
      InSumOf(init[n + 1..], [s[|s| - 1]], ' ');
    } else if s != "" && s[|s| - 1] == ' ' {
      assert s[|s|..] == "";
    }
  }

  lemma BoldIsFound(bullet: string)
    requires |bullet| >= 2
    ensures var close := FindBold(bullet, 5);
            "- **" <= bullet && close < |bullet| <==> !NoBoldLead(bullet)
    ensures forall close | BoldLead(bullet, close) :: close == FindBold(bullet, 5)
  {
    FindBoldMeaning(bullet, 5);
    if "- **" <= bullet && FindBold(bullet, 5) < |bullet| {
      assert BoldLead(bullet, FindBold(bullet, 5));
    }
  }

  lemma StopIsFound(text: string, stop: int)
    requires FirstStop(text, stop)
    ensures FindStop(text, 20) == stop
  {
    FindStopMeaning(text, 20);
  }

  // A bullet with a bold lead is cut right behind it ...
  lemma BoldLeadIsHeadline(bullet: string, close: int)
    requires BoldLead(bullet, close)
    ensures Headline(bullet) == bullet[..close + 2]
  {
    BoldIsFound(bullet);
  }

  // ... another one behind its first sentence, when that is of at most 200 characters ...
  lemma SentenceIsHeadline(bullet: string, stop: int)
    requires |bullet| >= 2 && NoBoldLead(bullet) && FirstStop(bullet[2..], stop) && stop < 200
    ensures Headline(bullet) == "- " + bullet[2..][..stop + 1]
  {
    BoldIsFound(bullet);
    FindBoldMeaning(bullet, 5);
    StopIsFound(bullet[2..], stop);
  }

  // ... and without one it is kept if it says at most 200 characters, and else cut to
  // that at a space, if there is one, and marked.
  lemma CutIsHeadline(bullet: string) returns (n: nat)
    requires |bullet| >= 2 && NoBoldLead(bullet) && forall stop | FirstStop(bullet[2..], stop) :: stop >= 200
    ensures |bullet| <= 202 ==> Headline(bullet) == bullet
    ensures |bullet| > 202 ==> n <= 200 && Headline(bullet) == "- " + bullet[2..][..n] + " \U{2026}"
    ensures |bullet| > 202 ==>
              if n < 200 then bullet[2..][n] == ' ' && ' ' !in bullet[2..][n + 1..200] else ' ' !in bullet[2..][..200]
  {
    n := 0;
    BoldIsFound(bullet);
    FindBoldMeaning(bullet, 5);
    NoStop(bullet[2..]);
    if |bullet| > 202 {
      n := |BeforeLastSpace(bullet[2..][..200])|;
      BeforeLastSpaceMeaning(bullet[2..][..200]);
    }
  }

  lemma NoStop(text: string)
    requires forall stop | FirstStop(text, stop) :: stop >= 200
    ensures FindStop(text, 20) >= 200 || FindStop(text, 20) == |text|
  {
    FindStopMeaning(text, 20);
    if FindStop(text, 20) < |text| {
      assert FirstStop(text, FindStop(text, 20));
    }
  }

  // ---------- Sections ----------

  datatype Section = Banner | Within(title: string)

  const KEEP_WHOLE := {"Highlights", "Migrations", "Breaking"}

  function DropMarks(s: string): string {
    if s != "" && !IsWord(s[0]) && s[0] != '`' then DropMarks(s[1..]) else s
  }

  function SectionTitle(heading: string): string {
    Strip(DropMarks(Strip(if Level(heading) <= |heading| then heading[Level(heading)..] else "")))
  }

  predicate OpensSection(line: string) { IsHeading(line) && Level(line) >= 3 }

  predicate KeptWhole(section: Section) { section.Banner? || section.title in KEEP_WHOLE }

  function SectionAfter(line: string, section: Section): Section {
    if OpensSection(line) then Within(SectionTitle(line)) else section
  }

  // Where the notice goes: the first section that is not the summary.
  predicate WantsNotice(line: string) { OpensSection(line) && SectionTitle(line) != "Highlights" }

  // ---------- What is shown, blank lines aside ----------

  // A heading or a kept line is shown as it is, a bullet as its headline, the rest not.
  function ShownLine(line: string, section: Section): seq<string> {
    if line == "" then []
    else if OpensSection(line) || KeptWhole(section) then [line]
    else if IsListItem(line) then [Headline(line)]
    else []
  }

  function Shown(lines: seq<string>, section: Section): seq<string> {
    if lines == [] then [] else ShownLine(lines[0], section) + Shown(lines[1..], SectionAfter(lines[0], section))
  }

  function NonBlank(lines: seq<string>): seq<string> {
    if lines == [] then []
    else NonBlank(lines[..|lines| - 1]) + (if lines[|lines| - 1] == "" then [] else [lines[|lines| - 1]])
  }

  lemma NonBlankSnoc(lines: seq<string>, line: string)
    ensures NonBlank(lines + [line]) == NonBlank(lines) + (if line == "" then [] else [line])
  {
    SumSlices(lines, [line]);
  }

  lemma {:induction false} NonBlankOfCons(line: string, rest: seq<string>)
    ensures NonBlank([line] + rest) == (if line == "" then [] else [line]) + NonBlank(rest)
    decreases |rest|
  {
    if rest == [] {
      SumOfEmpty([line]);
      assert [line][..0] == [];
    } else {
      var init, last := rest[..|rest| - 1], rest[|rest| - 1];
      SplitLast(rest);
      SumAssoc([line], init, [last]);
      NonBlankSnoc([line] + init, last);
      NonBlankOfCons(line, init);
      NonBlankSnoc(init, last);
      SumAssoc(if line == "" then [] else [line], NonBlank(init), if last == "" then [] else [last]);
    }
  }

  lemma NonBlankTail(lines: seq<string>)
    requires lines != []
    ensures NonBlank(lines) == (if lines[0] == "" then [] else [lines[0]]) + NonBlank(lines[1..])
  {
    SplitFirst(lines);
    NonBlankOfCons(lines[0], lines[1..]);
  }

  lemma {:induction false} ShownSnoc(lines: seq<string>, line: string, section: Section)
    ensures Shown(lines + [line], section) == Shown(lines, section) + ShownLine(line, SectionOf(lines, section))
    ensures SectionOf(lines + [line], section) == SectionAfter(line, SectionOf(lines, section))
  {
    if lines == [] {
      SumOfEmpty([line]);
      assert [line][1..] == [];
      SumOfEmpty(ShownLine(line, section));
    } else {
      TailOfSum(lines, [line]);
      var next := SectionAfter(lines[0], section);
      ShownSnoc(lines[1..], line, next);
      SumAssoc(ShownLine(lines[0], section), Shown(lines[1..], next), ShownLine(line, SectionOf(lines[1..], next)));
    }
  }

  function SectionOf(lines: seq<string>, section: Section): Section {
    if lines == [] then section else SectionOf(lines[1..], SectionAfter(lines[0], section))
  }

  // The number of lines before the one the notice stands in front of.
  function NoticeAt(lines: seq<string>): (n: nat)
    ensures n <= |lines|
  {
    if lines == [] || WantsNotice(lines[0]) then 0 else 1 + NoticeAt(lines[1..])
  }

  lemma {:induction false} NoticeAtSnoc(lines: seq<string>, line: string)
    ensures NoticeAt(lines + [line]) ==
            if NoticeAt(lines) < |lines| then NoticeAt(lines) else if WantsNotice(line) then |lines| else |lines| + 1
  {
    if lines == [] {
      SumOfEmpty([line]);
      assert [line][1..] == [];
    } else {
      TailOfSum(lines, [line]);
      NoticeAtSnoc(lines[1..], line);
    }
  }

  // All that is shown of a text, with the notice in its place.
  function Condensed(lines: seq<string>, notice: string): seq<string> {
    var at := NoticeAt(lines);
    Shown(lines[..at], Banner) + [notice] + Shown(lines[at..], SectionOf(lines[..at], Banner))
  }

  // `out` shows `lines`, with the notice in its place once it is due.
  ghost predicate Faithful(out: seq<string>, lines: seq<string>, notice: string, noticed: bool) {
    if noticed then NonBlank(out) == Condensed(lines, notice) else NonBlank(out) == Shown(lines, Banner)
  }

  lemma {:induction false} SectionOfSum(a: seq<string>, b: seq<string>, section: Section)
    ensures SectionOf(a + b, section) == SectionOf(b, SectionOf(a, section))
  {
    if a == [] {
      SumOfEmpty(b);
    } else {
      TailOfSum(a, b);
      SectionOfSum(a[1..], b, SectionAfter(a[0], section));
    }
  }

  // One more line that the notice does not stand in front of.
  lemma MoreShown(out: seq<string>, more: seq<string>, lines: seq<string>, line: string, notice: string, noticed: bool)
    requires Faithful(out, lines, notice, noticed) && noticed == (NoticeAt(lines) < |lines|)
    requires noticed || !WantsNotice(line)
    requires NonBlank(more) == NonBlank(out) + ShownLine(line, SectionOf(lines, Banner))
    ensures Faithful(more, lines + [line], notice, noticed) && noticed == (NoticeAt(lines + [line]) < |lines| + 1)
  {
    NoticeAtSnoc(lines, line);
    ShownSnoc(lines, line, Banner);
    if noticed {
      var at := NoticeAt(lines);
      var head, tail := lines[..at], lines[at..];
      CutAt(lines, at);
      SumAssoc(head, tail, [line]);
      SumSlices(head, tail + [line]);
      ShownSnoc(tail, line, SectionOf(head, Banner));
      SectionOfSum(head, tail, Banner);
      SumAssoc(Shown(head, Banner) + [notice], Shown(tail, SectionOf(head, Banner)),
               ShownLine(line, SectionOf(lines, Banner)));
    }
  }

  lemma NoticeFirst(out: seq<string>, more: seq<string>, lines: seq<string>, line: string, notice: string)
    requires Faithful(out, lines, notice, false) && NoticeAt(lines) == |lines| && WantsNotice(line)
    requires NonBlank(more) == NonBlank(out) + [notice] + [line]
    ensures Faithful(more, lines + [line], notice, true) && NoticeAt(lines + [line]) == |lines|
  {
    NoticeAtSnoc(lines, line);
    SumSlices(lines, [line]);
    assert [line][1..] == [];
    SumOfEmpty(ShownLine(line, SectionOf(lines, Banner)));
    assert line != "";
    assert Shown([line], SectionOf(lines, Banner)) == [line];
  }

  // ---------- The same with its blank lines ----------

  // A blank line behind another one, or at the start, is dropped.
  function Squeeze(lines: seq<string>, blank: bool): (r: seq<string>)
    ensures |r| <= |lines|
  {
    if lines == [] then []
    else if lines[0] == "" && blank then Squeeze(lines[1..], true)
    else [lines[0]] + Squeeze(lines[1..], lines[0] == "")
  }

  function EndsBlank(lines: seq<string>, blank: bool): bool {
    if lines == [] then blank else lines[|lines| - 1] == ""
  }

  lemma {:induction false} SqueezeSum(a: seq<string>, b: seq<string>, blank: bool)
    ensures Squeeze(a + b, blank) == Squeeze(a, blank) + Squeeze(b, EndsBlank(a, blank))
    ensures EndsBlank(a + b, blank) == EndsBlank(b, EndsBlank(a, blank))
  {
    if a == [] {
      SumOfEmpty(b);
      SumOfEmpty(Squeeze(b, blank));
    } else {
      TailOfSum(a, b);
      SqueezeSum(a[1..], b, a[0] == "");
      SumAssoc([a[0]], Squeeze(a[1..], a[0] == ""), Squeeze(b, EndsBlank(a, blank)));
    }
  }

  lemma SqueezeOne(line: string, blank: bool)
    ensures Squeeze([line], blank) == if line == "" && blank then [] else [line]
  {
    assert [line][1..] == [];
    SumOfEmpty([line]);
  }

  lemma {:induction false} SqueezeShows(lines: seq<string>, blank: bool)
    ensures NonBlank(Squeeze(lines, blank)) == NonBlank(lines)
  {
    if lines != [] {
      NonBlankTail(lines);
      SqueezeShows(lines[1..], lines[0] == "");
      if !(lines[0] == "" && blank) {
        NonBlankOfCons(lines[0], Squeeze(lines[1..], lines[0] == ""));
      } else {
        SumOfEmpty(NonBlank(lines[1..]));
      }
    }
  }

  // What one line comes out as, before blank lines are dropped: a section heading, and
  // the notice, stand between blank lines.
  function Piece(line: string, section: Section, noticed: bool, notice: string): seq<string> {
    if OpensSection(line) then
      [""] + (if !noticed && WantsNotice(line) then [notice] + [""] else []) + [line] + [""]
    else if KeptWhole(section) then [line]
    else if IsListItem(line) then [Headline(line)]
    else []
  }

  function Stream(lines: seq<string>, section: Section, noticed: bool, notice: string): seq<string> {
    if lines == [] then []
    else
      Piece(lines[0], section, noticed, notice) +
      Stream(lines[1..], SectionAfter(lines[0], section), noticed || WantsNotice(lines[0]), notice)
  }

  // The condensed notes, line by line. A notice that no section took stands at the end.
  function Layout(lines: seq<string>, notice: string): seq<string> {
    Squeeze(Stream(lines, Banner, false, notice), true) +
    (if NoticeAt(lines) < |lines| then [] else [""] + [notice])
  }

  lemma {:induction false} StreamSum(a: seq<string>, b: seq<string>, section: Section, noticed: bool, notice: string)
    ensures Stream(a + b, section, noticed, notice) ==
            Stream(a, section, noticed, notice) +
            Stream(b, SectionOf(a, section), noticed || NoticeAt(a) < |a|, notice)
  {
    if a == [] {
      SumOfEmpty(b);
      SumOfEmpty(Stream(b, section, noticed, notice));
    } else {
      TailOfSum(a, b);
      var next, now := SectionAfter(a[0], section), noticed || WantsNotice(a[0]);
      StreamSum(a[1..], b, next, now, notice);
      SumAssoc(Piece(a[0], section, noticed, notice), Stream(a[1..], next, now, notice),
               Stream(b, SectionOf(a, section), noticed || NoticeAt(a) < |a|, notice));
    }
  }

  lemma StreamSnoc(lines: seq<string>, line: string, notice: string)
    ensures Stream(lines + [line], Banner, false, notice) ==
            Stream(lines, Banner, false, notice) +
            Piece(line, SectionOf(lines, Banner), NoticeAt(lines) < |lines|, notice)
  {
    StreamSum(lines, [line], Banner, false, notice);
    assert [line][1..] == [];
    SumOfEmpty(Piece(line, SectionOf(lines, Banner), NoticeAt(lines) < |lines|, notice));
  }

  lemma {:induction false} NonBlankSum(a: seq<string>, b: seq<string>)
    ensures NonBlank(a + b) == NonBlank(a) + NonBlank(b)
  {
    if b == [] {
      SumOfEmpty(a);
      SumOfEmpty(NonBlank(a));
    } else {
      var init, last := b[..|b| - 1], b[|b| - 1];
      SplitLast(b);
      SumAssoc(a, init, [last]);
      NonBlankSnoc(a + init, last);
      NonBlankSum(a, init);
      SumAssoc(NonBlank(a), NonBlank(init), if last == "" then [] else [last]);
    }
  }

  lemma NonBlankOne(line: string)
    ensures NonBlank([line]) == if line == "" then [] else [line]
  {
    NonBlankSnoc([], line);
    SumOfEmpty([line]);
    SumOfEmpty(if line == "" then [] else [line]);
  }

  lemma OpenerShows(lead: seq<string>, line: string)
    requires line != ""
    ensures NonBlank([""] + lead + [line] + [""]) == NonBlank(lead) + [line]
  {
    NonBlankOne("");
    NonBlankOne(line);
    NonBlankSum([""], lead);
    NonBlankSum([""] + lead, [line]);
    NonBlankSum([""] + lead + [line], [""]);
    SumOfEmpty(NonBlank(lead));
    SumOfEmpty(NonBlank(lead) + [line]);
  }

  lemma NoticeShows(notice: string)
    requires notice != ""
    ensures NonBlank([notice] + [""]) == [notice] && NonBlank([]) == []
  {
    NonBlankOne("");
    NonBlankOne(notice);
    NonBlankSum([notice], [""]);
    SumOfEmpty([notice]);
  }

  lemma PieceShows(line: string, section: Section, noticed: bool, notice: string)
    requires notice != ""
    ensures NonBlank(Piece(line, section, noticed, notice)) ==
            (if !noticed && WantsNotice(line) then [notice] else []) + ShownLine(line, section)
  {
    SumOfEmpty(ShownLine(line, section));
    if OpensSection(line) {
      NoticeShows(notice);
      OpenerShows(if !noticed && WantsNotice(line) then [notice] + [""] else [], line);
    } else if KeptWhole(section) {
      NonBlankOne(line);
    } else if IsListItem(line) {
      ItemHasText(line);
      var n, tail := HeadlineIsACut(line);
      NonBlankOne(Headline(line));
    }
  }

  // One more piece shows one more line.
  lemma PieceFaithful(out: seq<string>, lines: seq<string>, line: string, notice: string, piece: seq<string>)
    requires notice != "" && Faithful(out, lines, notice, NoticeAt(lines) < |lines|)
    requires piece == Piece(line, SectionOf(lines, Banner), NoticeAt(lines) < |lines|, notice)
    ensures Faithful(out + piece, lines + [line], notice, NoticeAt(lines + [line]) < |lines| + 1)
  {
    var noticed := NoticeAt(lines) < |lines|;
    PieceShows(line, SectionOf(lines, Banner), noticed, notice);
    NonBlankSum(out, piece);
    if !noticed && WantsNotice(line) {
      ShownOpener(line, SectionOf(lines, Banner));
      SumAssoc(NonBlank(out), [notice], [line]);
      NoticeFirst(out, out + piece, lines, line, notice);
    } else {
      SumOfEmpty(ShownLine(line, SectionOf(lines, Banner)));
      MoreShown(out, out + piece, lines, line, notice, noticed);
    }
  }

  lemma ShownOpener(line: string, section: Section)
    requires OpensSection(line)
    ensures ShownLine(line, section) == [line]
  {
  }

  lemma {:induction false} StreamShows(lines: seq<string>, notice: string)
    requires notice != ""
    ensures Faithful(Stream(lines, Banner, false, notice), lines, notice, NoticeAt(lines) < |lines|)
  {
    if lines == [] {
      assert Shown([], Banner) == [];
    } else {
      var init, line := lines[..|lines| - 1], lines[|lines| - 1];
      SplitLast(lines);
      StreamShows(init, notice);
      StreamSnoc(init, line, notice);
      PieceFaithful(Stream(init, Banner, false, notice), init, line, notice,
                    Piece(line, SectionOf(init, Banner), NoticeAt(init) < |init|, notice));
    }
  }

  // Blank lines aside, the layout is what is shown, with the notice in its place.
  lemma LayoutShows(lines: seq<string>, notice: string)
    requires notice != ""
    ensures NonBlank(Layout(lines, notice)) == Condensed(lines, notice)
  {
    var u := Stream(lines, Banner, false, notice);
    StreamShows(lines, notice);
    SqueezeShows(u, true);
    if NoticeAt(lines) < |lines| {
      SumOfEmpty(Squeeze(u, true));
    } else {
      NonBlankOne("");
      NonBlankOne(notice);
      NonBlankSum([""], [notice]);
      NonBlankSum(Squeeze(u, true), [""] + [notice]);
      NoNoticeYet(lines);
      SumOfEmpty([notice]);
      SumOfEmpty(Shown(lines, Banner) + [notice]);
    }
  }

  // ---------- The loop ----------

  function Unled(out: seq<string>): seq<string> { if out != [] && out[0] == "" then out[1..] else out }

  // `out` is `u` without the blank lines to drop, but for one it may start with.
  ghost predicate Laid(out: seq<string>, u: seq<string>) {
    Unled(out) == Squeeze(u, true) && ((out == [] || out[|out| - 1] == "") <==> EndsBlank(u, true))
  }

  lemma LaidMore(out: seq<string>, u: seq<string>, line: string)
    requires Laid(out, u)
    ensures line == "" && (out == [] || out[|out| - 1] == "") ==> Laid(out, u + [line])
    ensures line != "" || out == [] || out[|out| - 1] != "" ==> Laid(out + [line], u + [line])
  {
    SqueezeSum(u, [line], true);
    SqueezeOne(line, EndsBlank(u, true));
    SumOfEmpty(Squeeze(u, true));
    SumOfEmpty([line]);
    if out != [] {
      TailOfSum(out, [line]);
    }
  }

  // `out.append("")` unless a blank line ends it already.
  method AppendGap(out: seq<string>, ghost u: seq<string>) returns (r: seq<string>)
    requires Laid(out, u)
    ensures Laid(r, u + [""])
  {
    LaidMore(out, u, "");
    r := out;
    if out != [] && out[|out| - 1] != "" {
      r := out + [""];
    }
  }

  // A line that opens no section: kept, cut to a headline, or dropped.
  method AppendShown(out: seq<string>, line: string, section: Section, ghost u: seq<string>, ghost piece: seq<string>)
    returns (r: seq<string>)
    requires Laid(out, u) && !OpensSection(line) && piece == Piece(line, section, false, "")
    ensures Laid(r, u + piece)
  {
    r := out;
    SumOfEmpty(u);
    if KeptWhole(section) {
      LaidMore(out, u, line);
      if !(line == "" && out != [] && out[|out| - 1] == "") {
        r := out + [line];
      }
    } else if IsListItem(line) {
      ItemHasText(line);
      ghost var n, tail := HeadlineIsACut(line);
      LaidMore(out, u, Headline(line));
      r := out + [Headline(line)];
    }
  }

  // `out += [line, ""]`.
  method AppendSpaced(out: seq<string>, line: string, ghost u: seq<string>) returns (r: seq<string>)
    requires Laid(out, u) && line != ""
    ensures Laid(r, u + [line] + [""])
  {
    LaidMore(out, u, line);
    LaidMore(out + [line], u + [line], "");
    r := out + [line] + [""];
  }

  // One turn of the loop of `condense`.
  method CondenseLine(line: string, out: seq<string>, section: Section, noticed: bool, notice: string,
                      ghost lines: seq<string>)
    returns (more: seq<string>, section': Section, noticed': bool)
    requires notice != "" && Laid(out, Stream(lines, Banner, false, notice))
    requires noticed == (NoticeAt(lines) < |lines|) && section == SectionOf(lines, Banner)
    ensures Laid(more, Stream(lines + [line], Banner, false, notice))
    ensures noticed' == (NoticeAt(lines + [line]) < |lines| + 1) && section' == SectionOf(lines + [line], Banner)
  {
    section', noticed' := section, noticed;
    ghost var u := Stream(lines, Banner, false, notice);
    ShownSnoc(lines, line, Banner);
    NoticeAtSnoc(lines, line);
    StreamSnoc(lines, line, notice);
    if OpensSection(line) {
      section' := Within(SectionTitle(line));
      more := AppendGap(out, u);
      OpenerSums(u, [notice] + [""], [line]);
      if !noticed && section'.title != "Highlights" {
        more := AppendSpaced(more, notice, u + [""]);
        more := AppendSpaced(more, line, u + [""] + [notice] + [""]);
        SumAssoc(u + [""], [notice], [""]);
        noticed' := true;
      } else {
        more := AppendSpaced(more, line, u + [""]);
      }
    } else {
      more := AppendShown(out, line, section, u, Piece(line, section, noticed, notice));
    }
  }

  lemma OpenerSums(u: seq<string>, lead: seq<string>, line: seq<string>)
    ensures u + ([""] + lead + line + [""]) == u + [""] + lead + line + [""]
    ensures u + ([""] + [] + line + [""]) == u + [""] + line + [""]
  {
  }

  // The loop of `condense`: the text is that of the layout.
  method CondenseLines(lines: seq<string>, notice: string) returns (out: seq<string>)
    requires notice != ""
    ensures AsText(out) == AsText(Layout(lines, notice)) && NonBlank(out) == Condensed(lines, notice)
  {
    out := [];
    var section, noticed := Banner, false;
    for i := 0 to |lines|
      invariant Laid(out, Stream(lines[..i], Banner, false, notice))
      invariant noticed == (NoticeAt(lines[..i]) < i) && section == SectionOf(lines[..i], Banner)
    {
      TakeMore(lines, i);
      out, section, noticed := CondenseLine(lines[i], out, section, noticed, notice, lines[..i]);
    }
    TakeAll(lines);
    ghost var laid := out;
    SumOfEmpty(Squeeze(Stream(lines, Banner, false, notice), true));
    SumOfEmpty(out);
    if !noticed {
      out := out + [""] + [notice];
      SumAssoc(laid, [""], [notice]);
    }
    UnledText(laid, if noticed then [] else [""] + [notice]);
    LayoutShows(lines, notice);
  }

  // A blank line at the start makes no difference to the text.
  lemma UnledText(out: seq<string>, tail: seq<string>)
    ensures AsText(out + tail) == AsText(Unled(out) + tail)
    ensures NonBlank(out + tail) == NonBlank(Unled(out) + tail)
  {
    if out != [] && out[0] == "" {
      var rest := out[1..] + tail;
      TailOfSum(out, tail);
      SplitFirst(out + tail);
      NonBlankOfCons("", rest);
      SumOfEmpty(NonBlank(rest));
      BlankFirst(rest);
    }
  }

  lemma BlankFirst(rest: seq<string>)
    ensures StripNewlines(Join("\n", [""] + rest)) == StripNewlines(Join("\n", rest))
  {
    TailOfSum([""], rest);
    SumOfEmpty(rest);
    assert [""][1..] == [];
    if rest != [] {
      var text := Join("\n", rest);
      assert Join("\n", [""] + rest) == "" + "\n" + text;
      SumOfEmpty("\n");
      TailOfSum("\n", text);
      assert "\n"[1..] == "";
      SumOfEmpty(text);
    }
  }

  lemma NoNoticeYet(lines: seq<string>)
    requires NoticeAt(lines) >= |lines|
    ensures lines[..NoticeAt(lines)] == lines
    ensures Shown(lines[NoticeAt(lines)..], SectionOf(lines, Banner)) == []
  {
    TakeAll(lines);
  }

  lemma ItemHasText(line: string)
    requires IsListItem(line)
    ensures |line| >= 2
  {
  }

  // ---------- The size limit ----------

  function StripNewlines(s: string): (r: string)
    ensures |r| <= |s|
  {
    if s != "" && s[0] == '\n' then StripNewlines(s[1..])
    else if s != "" && s[|s| - 1] == '\n' then StripNewlines(s[..|s| - 1])
    else s
  }

  // `s[: s.rfind("\n")]`, which drops the last character when there is no newline.
  function BeforeLastNewline(s: string): (r: string)
    ensures r <= s
    ensures '\n' in s ==> |r| < |s| && s[|r|] == '\n'
  {
    if s == "" then ""
    else if s[|s| - 1] == '\n' || '\n' !in s then s[..|s| - 1]
    else BeforeLastNewline(s[..|s| - 1])
  }

  function CutNotice(place: string): string {
    "\n\n> **Cut short here.** The full text is in " + place + ".\n"
  }

  function CondensedNotice(place: string): string {
    "> " + "**These notes are condensed.** The full entry is longer than GitHub "
    + "allows in a release, so each item below is cut to its headline. "
    + "The full text is in " + place + "."
  }

  // `result[: max_chars - len(cut)]`: a Python slice bound below zero counts from the end.
  function Head(result: string, max: nat, cut: string): (head: string)
    ensures head <= result
  {
    if max >= |cut| then result[..if max - |cut| <= |result| then max - |cut| else |result|]
    else if |cut| - max <= |result| then result[..|result| - (|cut| - max)]
    else ""
  }

  // `head[: head.rfind("\n")].rstrip() + cut`.
  function CutShort(result: string, max: nat, cut: string): string {
    var head := Head(result, max, cut);
    RStrip(BeforeLastNewline(head)) + cut
  }

  // The notes as condensed, before any cut.
  function AsText(out: seq<string>): string { StripNewlines(Join("\n", out)) + "\n" }

  // What is left before the cut notice is the start of the condensed notes, whole
  // lines of them when the limit leaves room for one.
  lemma CutShortFits(result: string, max: nat, cut: string)
    requires |result| > max
    ensures |CutShort(result, max, cut)| <= max <==> |cut| <= max
    ensures exists kept :: CutShort(result, max, cut) == kept + cut && kept <= result
  {
    var head := Head(result, max, cut);
    var before := BeforeLastNewline(head);
    RStripMeaning(before);
    assert RStrip(before) <= before <= head <= result;
    assert CutShort(result, max, cut) == RStrip(before) + cut;
  }

  lemma {:induction false} BeforeLastNewlineMeaning(s: string)
    ensures var n := |BeforeLastNewline(s)|;
            && ('\n' in s ==> '\n' !in s[n + 1..]) && ('\n' !in s && s != "" ==> n == |s| - 1)
  {
    if s != "" && s[|s| - 1] != '\n' && '\n' in s {
      var init := s[..|s| - 1];
      SplitLast(s);
      InSumOf(init, [s[|s| - 1]], '\n');
      BeforeLastNewlineMeaning(init);
      var n := |BeforeLastNewline(init)|;
      DropOfSum(init, [s[|s| - 1]], n + 1);
      InSumOf(init[n + 1..], [s[|s| - 1]], '\n');
    } else if s != "" && s[|s| - 1] == '\n' {
      assert s[|s|..] == "";
    }
  }

  // The notes are cut at the last newline that leaves room for the notice, spaces before
  // it dropped. Without one, in the middle of their first line, and by one character
  // more; and where the notice has no room either, by as much as it is too long.
  lemma CutShortIs(result: string, max: nat, cut: string) returns (head: string, n: nat)
    requires |result| > max
    ensures head <= result && |head| == if max >= |cut| then max - |cut|
                                        else if |cut| - max <= |result| then |result| - (|cut| - max) else 0
    ensures n <= |head| && CutShort(result, max, cut) == RStrip(result[..n]) + cut
    ensures '\n' in head ==> n < |head| && result[n] == '\n' && '\n' !in head[n + 1..]
    ensures '\n' !in head ==> n == if head == "" then 0 else |head| - 1
  {
    head := Head(result, max, cut);
    n := |BeforeLastNewline(head)|;
    BeforeLastNewlineMeaning(head);
    assert head[..n] == BeforeLastNewline(head) == result[..n];
  }

  // Nothing that has to be cut fits into 40 characters: the cut notice takes more.
  lemma LimitOf40Fails(result: string, place: string)
    requires |result| > 40
    ensures |CutShort(result, 40, CutNotice(place))| > 40
  {
    CutShortFits(result, 40, CutNotice(place));
  }

  // ---------- The condensed notice outweighs the cut notice ----------

  lemma {:induction false} NonBlankIsThere(lines: seq<string>, x: string)
    requires x in NonBlank(lines)
    ensures x in lines
  {
    if lines != [] && x in NonBlank(lines[..|lines| - 1]) {
      NonBlankIsThere(lines[..|lines| - 1], x);
    }
  }

  // `x` stands at `i`, as far as its ends tell.
  ghost predicate EndsAt(s: string, i: nat, x: string) {
    x != "" && i + |x| <= |s| && s[i] == x[0] && s[i + |x| - 1] == x[|x| - 1]
  }

  lemma {:induction false} JoinHolds(parts: seq<string>, x: string) returns (i: nat)
    requires x in parts && x != ""
    ensures EndsAt(Join("\n", parts), i, x)
  {
    if parts[0] == x {
      i := 0;
    } else {
      var rest := JoinHolds(parts[1..], x);
      i := |parts[0] + "\n"| + rest;
    }
  }

  // Stripping newlines stops at a text that has none at its ends.
  lemma {:induction false} StripKeeps(s: string, i: nat, x: string)
    requires EndsAt(s, i, x) && x[0] != '\n' && x[|x| - 1] != '\n'
    ensures |StripNewlines(s)| >= |x|
    decreases |s|
  {
    if s[0] == '\n' {
      StripKeeps(s[1..], i - 1, x);
    } else if s[|s| - 1] == '\n' {
      StripKeeps(s[..|s| - 1], i, x);
    }
  }

  // What the two notices are like, whatever the place they name.
  ghost predicate Outweighs(notice: string, cut: string) {
    notice != "" && notice[0] != '\n' && notice[|notice| - 1] != '\n' && |notice| > |cut|
  }

  lemma NoticeOutweighsCut(place: string)
    ensures Outweighs(CondensedNotice(place), CutNotice(place))
  {
    var n := CondensedNotice(place);
    assert n[0] == '>' && n[|n| - 1] == '.';
  }

  // What holds the condensed notice is longer than the cut notice.
  lemma CondensedIsLonger(out: seq<string>, before: seq<string>, after: seq<string>, notice: string, cut: string)
    requires Outweighs(notice, cut) && NonBlank(out) == before + [notice] + after
    ensures |AsText(out)| > |cut|
  {
    assert NonBlank(out)[|before|] == notice;
    NonBlankIsThere(out, notice);
    var i := JoinHolds(out, notice);
    StripKeeps(Join("\n", out), i, notice);
  }

  // ---------- The whole of `condense` ----------

  method CondenseWith(lines: seq<string>, max: nat, notice: string, cut: string) returns (r: string, out: seq<string>)
    requires Outweighs(notice, cut)
    ensures var text, short := Join("\n", lines) + "\n", AsText(Layout(lines, notice));
            r == if |text| <= max then text else if |short| <= max then short else CutShort(short, max, cut)
    ensures |Join("\n", lines) + "\n"| > max ==> NonBlank(out) == Condensed(lines, notice)
    ensures |r| <= max <==> |Join("\n", lines) + "\n"| <= max || |cut| <= max
  {
    var text := Join("\n", lines) + "\n";
    out := [];
    if |text| <= max {
      return text, out;
    }
    out := CondenseLines(lines, notice);
    ghost var at := NoticeAt(lines);
    CondensedIsLonger(out, Shown(lines[..at], Banner), Shown(lines[at..], SectionOf(lines[..at], Banner)), notice, cut);
    var result := AsText(out);
    if |result| <= max {
      return result, out;
    }
    r := CutShort(result, max, cut);
    CutShortFits(result, max, cut);
  }

  method Condense(lines: seq<string>, max: nat, place: string) returns (r: string, out: seq<string>)
    ensures var text, short := Join("\n", lines) + "\n", AsText(Layout(lines, CondensedNotice(place)));
            r == if |text| <= max then text else if |short| <= max then short
                 else CutShort(short, max, CutNotice(place))
    ensures |Join("\n", lines) + "\n"| > max ==> NonBlank(out) == Condensed(lines, CondensedNotice(place))
    // Never over the limit, unless the text is and the cut notice alone too.
    ensures |r| <= max <==> |Join("\n", lines) + "\n"| <= max || |CutNotice(place)| <= max
  {
    NoticeOutweighsCut(place);
    r, out := CondenseWith(lines, max, CondensedNotice(place), CutNotice(place));
  }
}
