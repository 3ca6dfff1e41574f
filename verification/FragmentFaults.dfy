// Which fragments are accepted, told from their lines alone.
module FragmentFaults {
  import opened Sequences
  import opened Text
  import opened Fragments

  // ---------- Lines outside code ----------

  predicate FenceAt(lines: seq<string>, k: int) { 0 <= k < |lines| && IsFence(RStrip(lines[k])) }

  function FencesBefore(lines: seq<string>, k: nat): nat {
    if k == 0 then 0 else FencesBefore(lines, k - 1) + (if FenceAt(lines, k - 1) then 1 else 0)
  }

  // Behind an odd number of fences.
  predicate InCode(lines: seq<string>, k: nat) { FencesBefore(lines, k) % 2 == 1 }

  // A line outside code that starts with a hash.
  predicate Hashed(lines: seq<string>, k: int) {
    0 <= k < |lines| && !InCode(lines, k) && !FenceAt(lines, k) && "#" <= RStrip(lines[k])
  }

  // `### section`.
  ghost predicate IsHeading(line: string, section: string) {
    section != "" && Tight(section) && exists gap :: IsGap(line, gap, section)
  }

  ghost predicate IsGap(line: string, gap: string, section: string) {
    gap != "" && Blank(gap) && line == "###" + gap + section
  }

  ghost predicate Titled(lines: seq<string>, k: int, section: string) {
    Hashed(lines, k) && IsHeading(RStrip(lines[k]), section)
  }

  // ---------- Acceptance ----------

  // Every hash starts the heading of a known section, each section comes once, and there
  // is no text ahead of the first one.
  ghost predicate Orderly(lines: seq<string>) {
    && (forall k | Hashed(lines, k) :: exists s | s in SECTIONS :: Titled(lines, k, s))
    && (forall h, k, s | Titled(lines, h, s) && Titled(lines, k, s) :: h == k)
    && (forall k | 0 <= k < |lines| && !Blank(lines[k]) :: exists h :: h <= k && Hashed(lines, h))
  }

  // Line `k` belongs to the section that line `h` opens.
  ghost predicate Under(lines: seq<string>, h: int, k: int) {
    0 <= h < k < |lines| && forall j | h < j <= k :: !Hashed(lines, j)
  }

  ghost predicate HasEntries(lines: seq<string>, h: int) { exists k :: Under(lines, h, k) && !Blank(lines[k]) }

  ghost predicate Acceptable(lines: seq<string>) {
    && Orderly(lines) && !InCode(lines, |lines|)
    && (exists h :: Hashed(lines, h)) && forall h | Hashed(lines, h) :: HasEntries(lines, h)
  }

  // ---------- Headings ----------

  lemma BlankStripped(s: string)
    ensures Blank(RStrip(s)) <==> Blank(s)
  {
    RStripMeaning(s);
  }

  lemma {:induction false} LStripOfGap(gap: string, s: string)
    requires Blank(gap) && s != "" && !IsSpace(s[0])
    ensures LStrip(gap + s) == s
  {
    if gap == "" {
      SumOfEmpty(s);
    } else {
      TailOfSum(gap, s);
      LStripOfGap(gap[1..], s);
    }
  }

  lemma {:induction false} GapOfStrip(s: string) returns (gap: string)
    ensures Blank(gap) && s == gap + LStrip(s)
  {
    if s != "" && IsSpace(s[0]) {
      var rest := GapOfStrip(s[1..]);
      gap := [s[0]] + rest;
      SplitFirst(s);
      SumAssoc([s[0]], rest, LStrip(s));
    } else {
      gap := "";
      SumOfEmpty(s);
    }
  }

  lemma StrippedStays(s: string)
    requires RStrip(s) == s
    ensures RStrip(LStrip(s)) == LStrip(s)
  {
    LStripMeaning(s);
    RStripMeaning(s);
    StripMeaning(LStrip(s));
  }

  lemma {:induction false} RStripTail(a: string, b: string)
    requires RStrip(a + b) == a + b
    ensures RStrip(b) == b
  {
    if b != "" {
      RStripMeaning(a + b);
      assert (a + b)[|a + b| - 1] == b[|b| - 1];
    }
  }

  lemma ThreeHashes(rest: string)
    ensures var line := "###" + rest; "###" <= line && |line| == 3 + |rest| && line[3..] == rest
    ensures rest != "" ==> ("###" + rest)[3] == rest[0]
  {
  }

  // A line is a heading of the one section the parser takes it for.
  lemma HeadingIff(line: string, section: string)
    requires RStrip(line) == line
    ensures IsHeading(line, section) <==> section != "" && HeadingTitle(line) == section
  {
    if IsHeading(line, section) {
      var gap :| IsGap(line, gap, section);
      SumAssoc("###", gap, section);
      ThreeHashes(gap + section);
      LStripOfGap(gap, section);
      StripMeaning(section);
    }
    if section != "" && HeadingTitle(line) == section {
      var tail := line[3..];
      CutAt(line, 3);
      var gap := GapOfStrip(tail);
      RStripTail(line[..3], tail);
      StrippedStays(tail);
      StripMeaning(tail);
      SumAssoc("###", gap, section);
      assert IsGap(line, gap, section);
    }
  }

  // ---------- One more line ----------

  lemma {:induction false} SameFences(lines: seq<string>, raw: string, k: nat)
    requires k <= |lines|
    ensures FencesBefore(lines + [raw], k) == FencesBefore(lines, k)
  {
    if k > 0 {
      assert (lines + [raw])[k - 1] == lines[k - 1];
      SameFences(lines, raw, k - 1);
    }
  }

  lemma FenceMore(lines: seq<string>, raw: string)
    ensures InCode(lines + [raw], |lines| + 1) <==> (InCode(lines, |lines|) != IsFence(RStrip(raw)))
  {
    var more, n := lines + [raw], |lines|;
    SameFences(lines, raw, n);
    assert more[n] == raw;
  }

  lemma SameHashes(lines: seq<string>, raw: string)
    ensures forall k | k < |lines| :: Hashed(lines + [raw], k) <==> Hashed(lines, k)
    ensures forall k, s | k < |lines| :: Titled(lines + [raw], k, s) <==> Titled(lines, k, s)
    ensures Hashed(lines + [raw], |lines|) <==>
              !InCode(lines, |lines|) && !IsFence(RStrip(raw)) && "#" <= RStrip(raw)
  {
    forall k: nat | k <= |lines|
      ensures InCode(lines + [raw], k) <==> InCode(lines, k)
    {
      SameFences(lines, raw, k);
    }
    assert forall k | 0 <= k < |lines| :: (lines + [raw])[k] == lines[k];
  }

  lemma OrderlyInit(lines: seq<string>, raw: string)
    requires Orderly(lines + [raw])
    ensures Orderly(lines)
  {
    var more := lines + [raw];
    SameHashes(lines, raw);
    forall k | Hashed(lines, k)
      ensures exists s | s in SECTIONS :: Titled(lines, k, s)
    {
      assert Hashed(more, k);
      var s :| s in SECTIONS && Titled(more, k, s);
      assert Titled(lines, k, s);
    }
    forall h, k, s | Titled(lines, h, s) && Titled(lines, k, s)
      ensures h == k
    {
      assert Titled(more, h, s) && Titled(more, k, s);
    }
    forall k | 0 <= k < |lines| && !Blank(lines[k])
      ensures exists h :: h <= k && Hashed(lines, h)
    {
      assert more[k] == lines[k];
      var h :| h <= k && Hashed(more, h);
      assert Hashed(lines, h);
    }
  }

  // The sections are those with a heading ...
  ghost predicate KnowsSections(lines: seq<string>, bodies: map<string, seq<string>>) {
    forall s :: s in bodies <==> exists h :: Titled(lines, h, s)
  }

  ghost predicate IsLast(lines: seq<string>, h: int) {
    Hashed(lines, h) && forall j | h < j < |lines| :: !Hashed(lines, j)
  }

  // ... the last heading opened the one that is open ...
  ghost predicate KnowsCurrent(lines: seq<string>, current: string) {
    && (current == "" <==> !exists h :: Hashed(lines, h))
    && forall h | IsLast(lines, h) :: Titled(lines, h, current)
  }

  // ... and the lines of one are blank exactly when nothing stands under its heading.
  ghost predicate Tells(lines: seq<string>, bodies: map<string, seq<string>>, s: string, h: int) {
    s in bodies && (AllBlank(bodies[s]) <==> !HasEntries(lines, h))
  }

  ghost predicate KnowsBodies(lines: seq<string>, bodies: map<string, seq<string>>) {
    forall s, h | Titled(lines, h, s) :: Tells(lines, bodies, s, h)
  }

  // What the parser knows after an orderly text.
  ghost predicate Knows(lines: seq<string>, p: Parse) {
    && (p.fenced <==> InCode(lines, |lines|)) && KnowsSections(lines, p.bodies)
    && KnowsCurrent(lines, p.current) && KnowsBodies(lines, p.bodies)
  }

  // What one more line asks for.
  ghost predicate Fits(lines: seq<string>, raw: string) {
    var more, n := lines + [raw], |lines|;
    && (Hashed(more, n) ==> exists s | s in SECTIONS :: Titled(more, n, s) && !exists h :: Titled(lines, h, s))
    && (!Blank(raw) ==> Hashed(more, n) || exists h :: Hashed(lines, h))
  }

  lemma OneTitle(lines: seq<string>, k: int, s: string, t: string)
    requires Titled(lines, k, s) && Titled(lines, k, t)
    ensures s == t
  {
    var line := RStrip(lines[k]);
    RStripTwice(lines[k]);
    HeadingIff(line, s);
    HeadingIff(line, t);
  }

  lemma OrderlyFits(lines: seq<string>, raw: string)
    requires Orderly(lines + [raw])
    ensures Fits(lines, raw)
  {
    var more, n := lines + [raw], |lines|;
    SameHashes(lines, raw);
    assert more[n] == raw;
    if Hashed(more, n) {
      var s :| s in SECTIONS && Titled(more, n, s);
      forall h
        ensures !Titled(lines, h, s)
      {
        assert Titled(lines, h, s) ==> Titled(more, h, s);
      }
    }
    if !Blank(raw) && !Hashed(more, n) {
      var h :| h <= n && Hashed(more, h);
      assert Hashed(lines, h);
    }
  }

  lemma KnownOfMore(lines: seq<string>, raw: string, k: int)
    requires Orderly(lines) && Fits(lines, raw) && Hashed(lines + [raw], k)
    ensures exists s | s in SECTIONS :: Titled(lines + [raw], k, s)
  {
    SameHashes(lines, raw);
    if k < |lines| {
      assert Hashed(lines, k);
      var s :| s in SECTIONS && Titled(lines, k, s);
      assert Titled(lines + [raw], k, s);
    }
  }

  lemma HashBefore(lines: seq<string>, raw: string, k: int)
    requires Orderly(lines) && Fits(lines, raw) && 0 <= k <= |lines| && !Blank((lines + [raw])[k])
    ensures exists h :: h <= k && Hashed(lines + [raw], h)
  {
    SameHashes(lines, raw);
    if k < |lines| {
      assert (lines + [raw])[k] == lines[k];
      var h :| h <= k && Hashed(lines, h);
      assert Hashed(lines + [raw], h);
    } else if !Hashed(lines + [raw], k) {
      var h :| Hashed(lines, h);
      assert Hashed(lines + [raw], h) && h <= k;
    }
  }

  lemma FitsOrderly(lines: seq<string>, raw: string)
    requires Orderly(lines) && Fits(lines, raw)
    ensures Orderly(lines + [raw])
  {
    var more := lines + [raw];
    forall k | Hashed(more, k)
      ensures exists s | s in SECTIONS :: Titled(more, k, s)
    {
      KnownOfMore(lines, raw, k);
    }
    forall h, k, s | Titled(more, h, s) && Titled(more, k, s)
      ensures h == k
    {
      OneOfMore(lines, raw, h, k, s);
    }
    forall k | 0 <= k < |more| && !Blank(more[k])
      ensures exists h :: h <= k && Hashed(more, h)
    {
      HashBefore(lines, raw, k);
    }
  }

  lemma OneOfMore(lines: seq<string>, raw: string, h: int, k: int, s: string)
    requires Orderly(lines) && Fits(lines, raw) && Titled(lines + [raw], h, s) && Titled(lines + [raw], k, s)
    ensures h == k
  {
    var more, n := lines + [raw], |lines|;
    SameHashes(lines, raw);
    if h == n || k == n {
      var t :| t in SECTIONS && Titled(more, n, t) && !exists j :: Titled(lines, j, t);
      OneTitle(more, n, s, t);
      assert h < n ==> Titled(lines, h, s);
      assert k < n ==> Titled(lines, k, s);
    } else {
      assert Titled(lines, h, s) && Titled(lines, k, s);
    }
  }

  // ---------- The parser ----------

  // A line of text behind the heading that is open.
  lemma EntriesMore(lines: seq<string>, raw: string, h: int)
    requires !Hashed(lines + [raw], |lines|) && Hashed(lines, h)
    ensures HasEntries(lines + [raw], h) <==>
              HasEntries(lines, h) || (!Blank(raw) && forall j | h < j < |lines| :: !Hashed(lines, j))
  {
    var more, n := lines + [raw], |lines|;
    SameHashes(lines, raw);
    assert more[n] == raw;
    forall k | k < n
      ensures Under(more, h, k) <==> Under(lines, h, k)
    {
    }
    if HasEntries(lines, h) {
      var k :| Under(lines, h, k) && !Blank(lines[k]);
      assert Under(more, h, k) && more[k] == lines[k];
    }
    if !Blank(raw) && forall j | h < j < n :: !Hashed(lines, j) {
      assert Under(more, h, n);
    }
    if HasEntries(more, h) {
      var k :| Under(more, h, k) && !Blank(more[k]);
      if k < n {
        assert Under(lines, h, k) && more[k] == lines[k];
      } else {
        forall j | h < j < n
          ensures !Hashed(lines, j)
        {
          assert !Hashed(more, j);
        }
      }
    }
  }

  // A heading ends the section before it.
  lemma EntriesStay(lines: seq<string>, raw: string, h: int)
    requires Hashed(lines + [raw], |lines|) && Hashed(lines, h)
    ensures HasEntries(lines + [raw], h) <==> HasEntries(lines, h)
  {
    var more, n := lines + [raw], |lines|;
    SameHashes(lines, raw);
    forall k
      ensures Under(more, h, k) <==> Under(lines, h, k)
    {
    }
    forall k | 0 <= k < n
      ensures more[k] == lines[k]
    {
    }
  }

  lemma StepOnText(lines: seq<string>, p: Parse, raw: string)
    requires Knows(lines, p) && Wellformed(p) && p.problems == [] && !Hashed(lines + [raw], |lines|)
    ensures var q := Step(p, raw, |lines| + 1);
            q == AddLine(p.(fenced := p.fenced != IsFence(RStrip(raw))), RStrip(raw), |lines| + 1)
    ensures Step(p, raw, |lines| + 1).problems == [] <==> Fits(lines, raw)
  {
    SameHashes(lines, raw);
    BlankStripped(raw);
    var line := RStrip(raw);
    if HeadingTitle(line) != "" {
      assert "#" <= line;
    }
    if p.fenced {
      assert p.(fenced := true) == p;
    }
  }

  lemma LastTitle(lines: seq<string>, raw: string, section: string)
    requires Hashed(lines + [raw], |lines|) && section in SECTIONS
    ensures Titled(lines + [raw], |lines|, section) <==> section == HeadingTitle(RStrip(raw))
  {
    RStripTwice(raw);
    HeadingIff(RStrip(raw), section);
    assert "" !in SECTIONS;
    assert (lines + [raw])[|lines|] == raw;
  }

  lemma HashStep(p: Parse, raw: string, number: nat)
    requires !p.fenced && !IsFence(RStrip(raw)) && "#" <= RStrip(raw) && p.problems == []
    ensures var title, q := HeadingTitle(RStrip(raw)), Step(p, raw, number);
            && (q.problems == [] <==> title in SECTIONS && title !in p.bodies)
            && (q.problems == [] ==> q == Opened(p, title))
  {
    assert "" !in SECTIONS;
  }

  lemma FitsWhenNew(lines: seq<string>, raw: string, title: string)
    requires Hashed(lines + [raw], |lines|) && title == HeadingTitle(RStrip(raw))
    ensures Fits(lines, raw) <==> title in SECTIONS && !exists h :: Titled(lines, h, title)
  {
    if title in SECTIONS {
      LastTitle(lines, raw, title);
    }
    if s :| s in SECTIONS && Titled(lines + [raw], |lines|, s) && !exists h :: Titled(lines, h, s) {
      LastTitle(lines, raw, s);
    }
  }

  lemma StepOnHash(lines: seq<string>, p: Parse, raw: string)
    requires Knows(lines, p) && p.problems == [] && Hashed(lines + [raw], |lines|)
    ensures var title, q := HeadingTitle(RStrip(raw)), Step(p, raw, |lines| + 1);
            && (q.problems == [] <==> title in SECTIONS && title !in p.bodies)
            && (q.problems == [] ==> q == Opened(p, title))
    ensures Step(p, raw, |lines| + 1).problems == [] <==> Fits(lines, raw)
  {
    SameHashes(lines, raw);
    HashStep(p, raw, |lines| + 1);
    FitsWhenNew(lines, raw, HeadingTitle(RStrip(raw)));
  }

  lemma {:induction false} LastHash(lines: seq<string>, h: int) returns (last: int)
    requires Hashed(lines, h)
    ensures IsLast(lines, last)
    decreases |lines| - h
  {
    last := h;
    if j :| h < j < |lines| && Hashed(lines, j) {
      last := LastHash(lines, j);
    }
  }

  lemma BlankMore(body: seq<string>, raw: string)
    ensures AllBlank(body + [RStrip(raw)]) <==> AllBlank(body) && Blank(raw)
  {
    BlankStripped(raw);
    var more := body + [RStrip(raw)];
    assert more[|body|] == RStrip(raw) && forall i | 0 <= i < |body| :: more[i] == body[i];
  }

  // Which section the last heading opened.
  lemma CurrentIsLast(lines: seq<string>, current: string, s: string, h: int)
    requires Orderly(lines) && KnowsCurrent(lines, current) && Titled(lines, h, s)
    ensures s == current <==> IsLast(lines, h)
  {
    var last := LastHash(lines, h);
    assert Titled(lines, last, current);
    if IsLast(lines, h) {
      OneTitle(lines, h, s, current);
    }
  }

  lemma TextTells(lines: seq<string>, bodies: map<string, seq<string>>, current: string, raw: string, s: string, h: int)
    requires Orderly(lines) && KnowsCurrent(lines, current) && Tells(lines, bodies, s, h) && current in bodies
    requires !Hashed(lines + [raw], |lines|) && Titled(lines, h, s)
    ensures Tells(lines + [raw], bodies[current := bodies[current] + [RStrip(raw)]], s, h)
  {
    EntriesMore(lines, raw, h);
    CurrentIsLast(lines, current, s, h);
    BlankMore(bodies[current], raw);
  }

  // Without another heading the sections and the open one stay.
  lemma SectionsStay(lines: seq<string>, raw: string, p: Parse, bodies: map<string, seq<string>>)
    requires !Hashed(lines + [raw], |lines|) && KnowsSections(lines, p.bodies) && KnowsCurrent(lines, p.current)
    requires bodies.Keys == p.bodies.Keys
    ensures KnowsSections(lines + [raw], bodies) && KnowsCurrent(lines + [raw], p.current)
  {
    var more := lines + [raw];
    SameHashes(lines, raw);
    assert forall k :: Hashed(more, k) <==> Hashed(lines, k);
    assert forall k, s :: Titled(more, k, s) <==> Titled(lines, k, s);
    forall h
      ensures IsLast(more, h) <==> IsLast(lines, h)
    {
    }
  }

  // What a line of text does to the parser.
  lemma TextStep(lines: seq<string>, p: Parse, raw: string)
    requires Knows(lines, p) && Wellformed(p) && p.problems == [] && !Hashed(lines + [raw], |lines|)
    requires Fits(lines, raw)
    ensures var q := Step(p, raw, |lines| + 1);
            && q.fenced == (p.fenced != IsFence(RStrip(raw))) && q.current == p.current
            && q.bodies == if p.current == "" then p.bodies
                           else p.bodies[p.current := p.bodies[p.current] + [RStrip(raw)]]
  {
    StepOnText(lines, p, raw);
  }

  lemma TextKnows(lines: seq<string>, p: Parse, raw: string)
    requires Orderly(lines) && Knows(lines, p) && Wellformed(p) && !Hashed(lines + [raw], |lines|)
    requires p.problems == [] && Fits(lines, raw)
    ensures Knows(lines + [raw], Step(p, raw, |lines| + 1))
  {
    TextStep(lines, p, raw);
    GrownKnows(lines, p, raw, Step(p, raw, |lines| + 1));
  }

  lemma GrownKnows(lines: seq<string>, p: Parse, raw: string, q: Parse)
    requires Orderly(lines) && Knows(lines, p) && (p.current != "" ==> p.current in p.bodies)
    requires !Hashed(lines + [raw], |lines|)
    requires q.fenced == (p.fenced != IsFence(RStrip(raw))) && q.current == p.current
    requires q.bodies == if p.current == "" then p.bodies
                         else p.bodies[p.current := p.bodies[p.current] + [RStrip(raw)]]
    ensures Knows(lines + [raw], q)
  {
    FenceMore(lines, raw);
    BodiesGrow(lines, p.bodies, p.current, raw, q.bodies);
    SectionsStay(lines, raw, p, q.bodies);
  }

  lemma BodiesGrow(lines: seq<string>, bodies: map<string, seq<string>>, current: string, raw: string,
                   grown: map<string, seq<string>>)
    requires Orderly(lines) && KnowsCurrent(lines, current) && KnowsBodies(lines, bodies)
    requires !Hashed(lines + [raw], |lines|)
    requires current != "" ==> current in bodies && grown == bodies[current := bodies[current] + [RStrip(raw)]]
    requires current == "" ==> grown == bodies
    ensures KnowsBodies(lines + [raw], grown)
  {
    SameHashes(lines, raw);
    forall s, h | Titled(lines + [raw], h, s)
      ensures Tells(lines + [raw], grown, s, h)
    {
      OldTitle(lines, raw, h, s);
      TextTells(lines, bodies, current, raw, s, h);
    }
  }

  lemma OldTitle(lines: seq<string>, raw: string, h: int, s: string)
    requires !Hashed(lines + [raw], |lines|) && Titled(lines + [raw], h, s)
    ensures Titled(lines, h, s)
  {
    SameHashes(lines, raw);
  }

  lemma NewTitle(lines: seq<string>, raw: string, title: string)
    requires Hashed(lines + [raw], |lines|) && title in SECTIONS && title == HeadingTitle(RStrip(raw))
    ensures forall h, s :: Titled(lines + [raw], h, s) <==> Titled(lines, h, s) || (h == |lines| && s == title)
    ensures forall h :: IsLast(lines + [raw], h) <==> h == |lines|
  {
    var more, n := lines + [raw], |lines|;
    SameHashes(lines, raw);
    LastTitle(lines, raw, title);
    forall s
      ensures Titled(more, n, s) <==> s == title
    {
      if Titled(more, n, s) {
        OneTitle(more, n, s, title);
      }
    }
  }

  lemma BodiesOpen(lines: seq<string>, bodies: map<string, seq<string>>, raw: string, title: string)
    requires Hashed(lines + [raw], |lines|) && title in SECTIONS && title == HeadingTitle(RStrip(raw))
    requires KnowsSections(lines, bodies) && KnowsBodies(lines, bodies) && title !in bodies
    ensures KnowsSections(lines + [raw], bodies[title := []]) && KnowsBodies(lines + [raw], bodies[title := []])
  {
    var more, n := lines + [raw], |lines|;
    NewTitle(lines, raw, title);
    forall s, h | Titled(more, h, s)
      ensures Tells(more, bodies[title := []], s, h)
    {
      if h < n {
        assert Titled(lines, h, s) && Tells(lines, bodies, s, h);
        EntriesStay(lines, raw, h);
      }
    }
    var grown := bodies[title := []];
    forall s
      ensures s in grown <==> exists h :: Titled(more, h, s)
    {
      if h :| Titled(lines, h, s) {
        assert Titled(more, h, s);
      }
      assert s == title ==> Titled(more, n, s);
    }
  }

  lemma HashKnows(lines: seq<string>, p: Parse, raw: string)
    requires Orderly(lines) && Knows(lines, p) && Wellformed(p) && Hashed(lines + [raw], |lines|)
    requires p.problems == [] && Fits(lines, raw)
    ensures Knows(lines + [raw], Step(p, raw, |lines| + 1))
  {
    var title := HeadingTitle(RStrip(raw));
    FenceMore(lines, raw);
    SameHashes(lines, raw);
    StepOnHash(lines, p, raw);
    BodiesOpen(lines, p.bodies, raw, title);
    NewTitle(lines, raw, title);
    assert "" !in SECTIONS;
  }

  // The parser finds no fault up to the end of a text exactly when the text is orderly.
  lemma {:induction false} ParseKnows(lines: seq<string>)
    ensures ParseLines(lines).problems == [] <==> Orderly(lines)
    ensures Orderly(lines) ==> Knows(lines, ParseLines(lines))
  {
    if lines != [] {
      var init, raw := lines[..|lines| - 1], lines[|lines| - 1];
      SplitLast(lines);
      ParseKnows(init);
      ParseIsWellformed(init);
      StepKeepsProblems(ParseLines(init), raw, |lines|);
      if Orderly(lines) {
        OrderlyInit(init, raw);
        OrderlyFits(init, raw);
      }
      if Orderly(init) {
        StepKnows(init, ParseLines(init), raw);
      }
    }
  }

  lemma StepKnows(lines: seq<string>, p: Parse, raw: string)
    requires Orderly(lines) && Knows(lines, p) && Wellformed(p) && p.problems == []
    ensures Step(p, raw, |lines| + 1).problems == [] <==> Fits(lines, raw)
    ensures Fits(lines, raw) ==> Orderly(lines + [raw]) && Knows(lines + [raw], Step(p, raw, |lines| + 1))
  {
    if Hashed(lines + [raw], |lines|) {
      StepOnHash(lines, p, raw);
    } else {
      StepOnText(lines, p, raw);
    }
    if Fits(lines, raw) {
      FitsOrderly(lines, raw);
      if Hashed(lines + [raw], |lines|) {
        HashKnows(lines, p, raw);
      } else {
        TextKnows(lines, p, raw);
      }
    }
  }

  lemma {:induction false} EmptySectionsIff(order: seq<string>, bodies: map<string, seq<string>>)
    ensures EmptySections(order, bodies) == [] <==> forall s | s in order && s in bodies :: !AllBlank(bodies[s])
  {
    if order != [] {
      var init, last := order[..|order| - 1], order[|order| - 1];
      EmptySectionsIff(init, bodies);
      SplitLast(order);
      InSumOf(init, [last], last);
      forall s
        ensures s in order <==> s in init || s == last
      {
        InSumOf(init, [last], s);
      }
      if last in bodies {
        TrimMeaning(bodies[last]);
      }
    }
  }

  lemma SectionOfHash(lines: seq<string>, p: Parse, h: int) returns (s: string)
    requires Orderly(lines) && Knows(lines, p) && Wellformed(p) && Hashed(lines, h)
    ensures Titled(lines, h, s) && s in p.order && Tells(lines, p.bodies, s, h)
  {
    s :| s in SECTIONS && Titled(lines, h, s);
  }

  lemma HashOfSection(lines: seq<string>, p: Parse, s: string) returns (h: int)
    requires Orderly(lines) && Knows(lines, p) && Wellformed(p) && s in p.order
    ensures Hashed(lines, h) && Tells(lines, p.bodies, s, h)
  {
    h :| Titled(lines, h, s);
  }

  lemma EntriesEverywhere(lines: seq<string>, p: Parse)
    requires Orderly(lines) && Knows(lines, p) && Wellformed(p)
    ensures EmptySections(p.order, p.bodies) == [] <==> forall h | Hashed(lines, h) :: HasEntries(lines, h)
  {
    EmptySectionsIff(p.order, p.bodies);
    if EmptySections(p.order, p.bodies) == [] {
      forall h | Hashed(lines, h)
        ensures HasEntries(lines, h)
      {
        var s := SectionOfHash(lines, p, h);
      }
    }
    if forall h | Hashed(lines, h) :: HasEntries(lines, h) {
      forall s | s in p.order && s in p.bodies
        ensures !AllBlank(p.bodies[s])
      {
        var h := HashOfSection(lines, p, s);
      }
    }
  }

  lemma SomeSection(lines: seq<string>, p: Parse)
    requires Orderly(lines) && Knows(lines, p) && Wellformed(p)
    ensures p.order != [] <==> exists h :: Hashed(lines, h)
  {
    if p.order != [] {
      var h := HashOfSection(lines, p, p.order[0]);
    }
    if h :| Hashed(lines, h) {
      var s := SectionOfHash(lines, p, h);
    }
  }

  lemma NoProblems(lines: seq<string>, nameOk: bool, p: Parse)
    requires p == ParseLines(lines)
    ensures AllProblems(lines, nameOk) == [] <==>
              nameOk && p.problems == [] && !p.fenced && EmptySections(p.order, p.bodies) == [] && p.order != []
  {
  }

  // A fragment is accepted exactly when its name is right, its fences are closed, every
  // hash outside code starts the heading of a known section, each of which comes once
  // and has entries, there is one, and nothing but blank lines stands ahead of it.
  lemma AcceptedIff(lines: seq<string>, nameOk: bool)
    ensures AllProblems(lines, nameOk) == [] <==> nameOk && Acceptable(lines)
  {
    var p := ParseLines(lines);
    NoProblems(lines, nameOk, p);
    ParseKnows(lines);
    ParseIsWellformed(lines);
    if Orderly(lines) {
      AcceptedWhenOrderly(lines, p);
    }
  }

  lemma AcceptedWhenOrderly(lines: seq<string>, p: Parse)
    requires Orderly(lines) && Knows(lines, p) && Wellformed(p)
    ensures Acceptable(lines) <==> !p.fenced && EmptySections(p.order, p.bodies) == [] && p.order != []
  {
    EntriesEverywhere(lines, p);
    SomeSection(lines, p);
  }
}
