// The fold of scripts/changelog_assemble.py: fragments spliced into the
// `## Unreleased` section of the changelog, section by section.
module ChangelogFold {
  import opened Sequences
  import opened Text
  import opened Fragments

  const UNRELEASED := "## Unreleased"

  // Headings of the changelog: a release, and a section of one.
  predicate IsTop(line: string) { "## " <= line }

  predicate IsSection(line: string) { "### " <= line }

  predicate HeadingLike(line: string) { IsTop(line) || IsSection(line) }

  // ---------- Searching ----------

  function FindLine(lines: seq<string>, target: string): (n: nat)
    ensures n <= |lines|
    ensures n < |lines| ==> lines[n] == target
    ensures forall i | 0 <= i < n :: lines[i] != target
  {
    if lines == [] || lines[0] == target then 0 else 1 + FindLine(lines[1..], target)
  }

  function FindTop(lines: seq<string>): (n: nat)
    ensures n <= |lines|
    ensures n < |lines| ==> IsTop(lines[n])
    ensures forall i | 0 <= i < n :: !IsTop(lines[i])
  {
    if lines == [] || IsTop(lines[0]) then 0 else 1 + FindTop(lines[1..])
  }

  function FindAny(lines: seq<string>, targets: set<string>): (n: nat)
    ensures n <= |lines|
    ensures n < |lines| ==> lines[n] in targets
    ensures forall i | 0 <= i < n :: lines[i] !in targets
  {
    if lines == [] || lines[0] in targets then 0 else 1 + FindAny(lines[1..], targets)
  }

  function SkipBlank(lines: seq<string>, i: nat): (n: nat)
    requires i <= |lines|
    ensures i <= n <= |lines|
    ensures n < |lines| ==> !Blank(lines[n])
    ensures forall j | i <= j < n :: Blank(lines[j])
    decreases |lines| - i
  {
    if i < |lines| && Blank(lines[i]) then SkipBlank(lines, i + 1) else i
  }

  function BackOverBlank(lines: seq<string>, i: nat): (n: nat)
    requires i <= |lines|
    ensures n <= i
    ensures n > 0 ==> !Blank(lines[n - 1])
    ensures forall j | n <= j < i :: Blank(lines[j])
  {
    if i > 0 && Blank(lines[i - 1]) then BackOverBlank(lines, i - 1) else i
  }

  // ---------- One section ----------

  function LaterHeadings(section: string): set<string> {
    set i | 0 <= i < |SECTIONS| && FindLine(SECTIONS, section) < i :: HeadingOf(SECTIONS[i])
  }

  // Where in the body of Unreleased a section that is missing goes.
  function NewAt(body: seq<string>, section: string): (n: nat)
    ensures n <= |body|
  {
    BackOverBlank(body, FindAny(body, LaterHeadings(section)))
  }

  // The fragments' entries, a blank line after each.
  function Block(bodies: seq<seq<string>>): seq<string> {
    if bodies == [] then [] else Block(bodies[..|bodies| - 1]) + bodies[|bodies| - 1] + [""]
  }

  // The block without its last blank line when one follows already.
  function Fitted(block: seq<string>, rest: seq<string>): seq<string> {
    if block != [] && rest != [] && Blank(rest[0]) then block[..|block| - 1] else block
  }

  // Where a section's new entries go in the body of Unreleased ...
  function Place(body: seq<string>, section: string): (n: nat)
    ensures n <= |body|
  {
    var found := FindLine(body, HeadingOf(section));
    if found < |body| then SkipBlank(body, found + 1) else NewAt(body, section)
  }

  // ... and what goes in front of them: the heading, when it is not there yet.
  function Lead(body: seq<string>, section: string): seq<string> {
    if FindLine(body, HeadingOf(section)) < |body| then [] else ["", HeadingOf(section), ""]
  }

  function Put(body: seq<string>, at: nat, lead: seq<string>, block: seq<string>): seq<string>
    requires at <= |body|
  {
    body[..at] + lead + Fitted(block, body[at..]) + body[at..]
  }

  function FoldBody(body: seq<string>, section: string, block: seq<string>): seq<string> {
    Put(body, Place(body, section), Lead(body, section), block)
  }

  // ---------- The changelog ----------

  function Start(lines: seq<string>): nat { FindLine(lines, UNRELEASED) }

  function Before(lines: seq<string>): seq<string>
    requires UNRELEASED in lines
  {
    lines[..Start(lines) + 1]
  }

  function After(lines: seq<string>): seq<string>
    requires UNRELEASED in lines
  {
    lines[Start(lines) + 1..]
  }

  function Body(lines: seq<string>): seq<string>
    requires UNRELEASED in lines
  {
    After(lines)[..FindTop(After(lines))]
  }

  function Released(lines: seq<string>): seq<string>
    requires UNRELEASED in lines
  {
    After(lines)[FindTop(After(lines))..]
  }

  lemma Parts(lines: seq<string>)
    requires UNRELEASED in lines
    ensures lines == Before(lines) + (Body(lines) + Released(lines))
  {
    CutAt(lines, Start(lines) + 1);
    CutAt(After(lines), FindTop(After(lines)));
  }

  function FoldSection(lines: seq<string>, section: string, bodies: seq<seq<string>>): seq<string>
    requires UNRELEASED in lines
  {
    if bodies == [] then lines
    else Before(lines) + (FoldBody(Body(lines), section, Block(bodies)) + Released(lines))
  }

  type Fragment = map<string, seq<string>>

  function BodiesFor(frags: seq<Fragment>, section: string): seq<seq<string>> {
    if frags == [] then []
    else
      var last := frags[|frags| - 1];
      BodiesFor(frags[..|frags| - 1], section)
      + (if section in last && last[section] != [] then [last[section]] else [])
  }

  // The changelog once the sections `names` are folded, in that order.
  function Folded(lines: seq<string>, frags: seq<Fragment>, names: seq<string>): (r: seq<string>)
    requires UNRELEASED in lines
    ensures UNRELEASED in r
  {
    if names == [] then lines
    else
      var last := names[|names| - 1];
      var before := Folded(lines, frags, names[..|names| - 1]);
      FoldKeepsUnreleased(before, last, BodiesFor(frags, last));
      FoldSection(before, last, BodiesFor(frags, last))
  }

  lemma FoldKeepsUnreleased(lines: seq<string>, section: string, bodies: seq<seq<string>>)
    requires UNRELEASED in lines
    ensures UNRELEASED in FoldSection(lines, section, bodies)
  {
    assert Before(lines)[Start(lines)] == UNRELEASED;
    if bodies != [] {
      assert FoldSection(lines, section, bodies)[Start(lines)] == UNRELEASED;
    }
  }

  // ---------- The code ----------

  method UnreleasedBounds(lines: seq<string>) returns (start: nat, end: nat)
    requires UNRELEASED in lines
    ensures start == Start(lines) < |lines|
    ensures end == start + 1 + |Body(lines)| <= |lines| && lines[start + 1..end] == Body(lines)
  {
    start := FindLine(lines, UNRELEASED);
    end := start + 1 + FindTop(lines[start + 1..]);
    SliceTwice(lines, start + 1, end);
  }

  // The two loops over blank lines.
  method BackUp(lines: seq<string>, start: nat, end: nat, from: nat) returns (at: nat)
    requires start < end <= |lines| && start + 1 <= from <= end
    ensures start + 1 <= at <= from && at - start - 1 == BackOverBlank(lines[start + 1..end], from - start - 1)
  {
    at := from;
    ghost var body := lines[start + 1..end];
    while at > start + 1 && Blank(lines[at - 1])
      invariant start + 1 <= at <= from
      invariant BackOverBlank(body, from - start - 1) == BackOverBlank(body, at - start - 1)
    {
      assert body[at - start - 2] == lines[at - 1];
      at := at - 1;
    }
    assert at > start + 1 ==> body[at - start - 2] == lines[at - 1];
  }

  method StepOver(lines: seq<string>, start: nat, end: nat, from: nat) returns (at: nat)
    requires start < end <= |lines| && start + 1 <= from <= end
    ensures from <= at <= end && at - start - 1 == SkipBlank(lines[start + 1..end], from - start - 1)
  {
    at := from;
    ghost var body := lines[start + 1..end];
    while at < end && Blank(lines[at])
      invariant from <= at <= end
      invariant SkipBlank(body, from - start - 1) == SkipBlank(body, at - start - 1)
    {
      assert body[at - start - 1] == lines[at];
      at := at + 1;
    }
    assert at < end ==> body[at - start - 1] == lines[at];
  }

  // `_section_top`: the index of the section's first entry, in a changelog that has
  // the section.
  method SectionTop(lines: seq<string>, start: nat, end: nat, section: string)
    returns (out: seq<string>, at: nat)
    requires start < end <= |lines|
    ensures var body := lines[start + 1..end];
            var n, lead := start + 1 + Place(body, section), Lead(body, section);
            out == lines[..n] + lead + lines[n..] && at == n + |lead|
  {
    var heading, body := HeadingOf(section), lines[start + 1..end];
    var found := FindLine(body, heading);
    if found == |body| {
      // Before the first section that sorts after this one, or at the end.
      at := BackUp(lines, start, end, start + 1 + FindAny(body, LaterHeadings(section)));
      SameCut(lines, at, start + 1 + Place(body, section));
      out := lines[..at] + ["", heading, ""] + lines[at..];
      at := at + 3;
    } else {
      out := lines;
      at := StepOver(lines, start, end, start + 1 + found + 1);
      SameCut(lines, at, start + 1 + Place(body, section));
      CutAt(lines, at);
      SumOfEmpty(lines[..at]);
    }
  }

  // A fragment file: whether its name is right, and its text.
  datatype Source = Source(nameOk: bool, lines: seq<string>)

  function Refusals(sources: seq<Source>): seq<seq<Problem>> {
    if sources == [] then []
    else
      var last := sources[|sources| - 1];
      var problems := AllProblems(last.lines, last.nameOk);
      Refusals(sources[..|sources| - 1]) + (if problems == [] then [] else [problems])
  }

  function FragmentsOf(sources: seq<Source>): seq<Fragment> {
    if sources == [] then []
    else
      var last := sources[|sources| - 1];
      FragmentsOf(sources[..|sources| - 1]) +
      (if AllProblems(last.lines, last.nameOk) == [] then [Trimmed(ParseLines(last.lines).bodies)] else [])
  }

  datatype Outcome = Assembled(lines: seq<string>) | NoUnreleased | Rejected(problems: seq<seq<Problem>>)

  // Every fragment's entries for a section.
  method CollectBodies(parsed: seq<Fragment>, section: string) returns (bodies: seq<seq<string>>)
    ensures bodies == BodiesFor(parsed, section)
  {
    bodies := [];
    for i := 0 to |parsed|
      invariant bodies == BodiesFor(parsed[..i], section)
    {
      TakeMore(parsed, i);
      SumSlices(parsed[..i], [parsed[i]]);
      SumOfEmpty(bodies);
      if section in parsed[i] && parsed[i][section] != [] {
        bodies := bodies + [parsed[i][section]];
      }
    }
    TakeAll(parsed);
  }

  method BuildBlock(bodies: seq<seq<string>>) returns (block: seq<string>)
    ensures block == Block(bodies)
  {
    block := [];
    for i := 0 to |bodies|
      invariant block == Block(bodies[..i])
    {
      TakeMore(bodies, i);
      SumSlices(bodies[..i], [bodies[i]]);
      block := block + bodies[i] + [""];
    }
    TakeAll(bodies);
  }

  // One turn of the loop over the sections.
  method FoldOne(lines: seq<string>, section: string, bodies: seq<seq<string>>) returns (r: seq<string>)
    requires UNRELEASED in lines && bodies != []
    ensures r == FoldSection(lines, section, bodies)
  {
    var block := BuildBlock(bodies);
    var start, end := UnreleasedBounds(lines);
    var grown, at := SectionTop(lines, start, end, section);
    SameCut(lines, start + 1 + Place(Body(lines), section), |Before(lines)| + Place(Body(lines), section));
    Parts(lines);
    ReleasedIsText(lines);
    SpliceIsPut(Before(lines), Body(lines), Released(lines), Place(Body(lines), section), Lead(Body(lines), section),
                Block(bodies), grown, at);
    // The block ends with a blank line; drop it when one already follows.
    if block != [] && at < |grown| && Blank(grown[at]) {
      block := block[..|block| - 1];
    }
    assert block == Fitted(Block(bodies), grown[at..]);
    r := grown[..at] + block + grown[at..];
  }

  lemma SameCut<T>(s: seq<T>, n: nat, m: nat)
    requires n == m <= |s|
    ensures s[..n] == s[..m] && s[n..] == s[m..]
  {
  }

  // The loop over the sections.
  method FoldAll(changelog: seq<string>, parsed: seq<Fragment>, names: seq<string>) returns (lines: seq<string>)
    requires UNRELEASED in changelog
    ensures lines == Folded(changelog, parsed, names)
  {
    lines := changelog;
    for k := 0 to |names|
      invariant UNRELEASED in lines && lines == Folded(changelog, parsed, names[..k])
    {
      TakeMore(names, k);
      SumSlices(names[..k], [names[k]]);
      var bodies := CollectBodies(parsed, names[k]);
      if bodies == [] {
        continue;
      }
      FoldKeepsUnreleased(lines, names[k], bodies);
      lines := FoldOne(lines, names[k], bodies);
    }
    TakeAll(names);
  }

  // The loop over the fragment files.
  method ParseAll(sources: seq<Source>) returns (parsed: seq<Fragment>, errors: seq<seq<Problem>>)
    ensures parsed == FragmentsOf(sources) && errors == Refusals(sources)
  {
    parsed, errors := [], [];
    for i := 0 to |sources|
      invariant parsed == FragmentsOf(sources[..i]) && errors == Refusals(sources[..i])
    {
      TakeMore(sources, i);
      SumSlices(sources[..i], [sources[i]]);
      var r := ParseFragment(sources[i].nameOk, sources[i].lines);
      match r
      case Accepted(sections) =>
        parsed := parsed + [sections];
        SumOfEmpty(errors);
      case Refused(problems) =>
        errors := errors + [problems];
        SumOfEmpty(parsed);
    }
    TakeAll(sources);
  }

  lemma {:induction false} AllParsed(sources: seq<Source>)
    ensures Refusals(sources) == [] ==> (FragmentsOf(sources) == [] <==> sources == [])
  {
  }

  method Assemble(changelog: seq<string>, sources: seq<Source>) returns (r: Outcome)
    ensures r == if Refusals(sources) != [] then Rejected(Refusals(sources))
                 else if sources == [] then Assembled(changelog)
                 else if UNRELEASED !in changelog then NoUnreleased
                 else Assembled(Folded(changelog, FragmentsOf(sources), SECTIONS))
  {
    var parsed, errors := ParseAll(sources);
    AllParsed(sources);
    if errors != [] {
      return Rejected(errors);
    }
    if parsed == [] {
      return Assembled(changelog);
    }
    if UNRELEASED !in changelog {
      return NoUnreleased;
    }
    var lines := FoldAll(changelog, parsed, SECTIONS);
    r := Assembled(lines);
  }

  // Splicing at an index of the whole changelog is splicing into its body.
  lemma SpliceIsPut(pre: seq<string>, body: seq<string>, post: seq<string>, i: nat, lead: seq<string>,
                    block: seq<string>, grown: seq<string>, at: nat)
    requires i <= |body| && (post == [] || !Blank(post[0]))
    requires grown == (pre + (body + post))[..|pre| + i] + lead + (pre + (body + post))[|pre| + i..]
    requires at == |pre| + i + |lead|
    ensures at <= |grown|
    ensures grown[..at] + Fitted(block, grown[at..]) + grown[at..] == pre + (Put(body, i, lead, block) + post)
  {
    var fitted := Fitted(block, body[i..]);
    FitsAtSplice(body[i..], post, block);
    SplicedMiddle(pre + (body + post), pre, body, post, i, lead, fitted, grown, at);
  }

  lemma SplicedMiddle<T>(s: seq<T>, pre: seq<T>, body: seq<T>, post: seq<T>, i: nat, lead: seq<T>, block: seq<T>,
                         grown: seq<T>, at: nat)
    requires i <= |body| && s == pre + (body + post)
    requires grown == s[..|pre| + i] + lead + s[|pre| + i..] && at == |pre| + i + |lead|
    ensures grown[at..] == body[i..] + post
    ensures grown[..at] + block + grown[at..] == pre + ((body[..i] + lead + block + body[i..]) + post)
  {
    CutMiddle(pre, body, post, i);
    SumSlices(s[..|pre| + i] + lead, s[|pre| + i..]);
    SumAssoc(pre, body[..i], lead);
    PutMiddle(pre, body[..i] + lead, block, body[i..], post);
  }

  // What follows the place of a splice is the body's rest or a release's heading.
  lemma FitsAtSplice(rest: seq<string>, post: seq<string>, block: seq<string>)
    requires post == [] || !Blank(post[0])
    ensures Fitted(block, rest + post) == Fitted(block, rest)
  {
    if rest == [] {
      SumOfEmpty(post);
    }
  }

  lemma ReleasedIsText(lines: seq<string>)
    requires UNRELEASED in lines
    ensures Released(lines) == [] || !Blank(Released(lines)[0])
  {
    if Released(lines) != [] {
      assert IsTop(Released(lines)[0]);
      assert Released(lines)[0][0] == '#';
    }
  }
}
