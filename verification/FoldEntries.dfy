// In which order the entries stand after the fold: those of an earlier fragment above
// those of a later one, and all of them above what the section held.
module FoldEntries {
  import opened Sequences
  import opened Text
  import opened Fragments
  import opened ChangelogFold
  import opened FoldMeaning

  // ---------- The bodies of a section ----------

  // The bodies come in the order of their fragments ...
  lemma {:induction false} BodiesForSum(a: seq<Fragment>, b: seq<Fragment>, section: string)
    ensures BodiesFor(a + b, section) == BodiesFor(a, section) + BodiesFor(b, section)
    decreases |b|
  {
    if b == [] {
      SumOfEmpty(a);
      SumOfEmpty(BodiesFor(a, section));
    } else {
      var init, last := b[..|b| - 1], b[|b| - 1];
      SplitLast(b);
      SumAssoc(a, init, [last]);
      SumSlices(a + init, [last]);
      BodiesForSum(a, init, section);
      SumAssoc(BodiesFor(a, section), BodiesFor(init, section),
               if section in last && last[section] != [] then [last[section]] else []);
    }
  }

  // ... and each fragment gives its own, once, if it has any entries there.
  lemma BodiesForOne(frag: Fragment, section: string)
    ensures BodiesFor([frag], section) == if section in frag && frag[section] != [] then [frag[section]] else []
  {
    assert [frag][..0] == [];
    SumOfEmpty(if section in frag && frag[section] != [] then [frag[section]] else []);
  }

  lemma {:induction false} BlockSum(a: seq<seq<string>>, b: seq<seq<string>>)
    ensures Block(a + b) == Block(a) + Block(b)
    decreases |b|
  {
    if b == [] {
      SumOfEmpty(a);
      SumOfEmpty(Block(a));
    } else {
      var init, last := b[..|b| - 1], b[|b| - 1];
      SplitLast(b);
      SumAssoc(a, init, [last]);
      SumSlices(a + init, [last]);
      BlockSum(a, init);
      SumAssoc(Block(a), Block(init), last);
      SumAssoc(Block(a), Block(init) + last, [""]);
    }
  }

  lemma BlockOne(body: seq<string>)
    ensures Block([body]) == body + [""]
  {
    assert [body][..0] == [];
    SumOfEmpty(body);
  }

  // The same of the files: the fragments, and the problems, in the order of the files.
  lemma {:induction false} FilesInOrder(a: seq<Source>, b: seq<Source>)
    ensures FragmentsOf(a + b) == FragmentsOf(a) + FragmentsOf(b)
    ensures Refusals(a + b) == Refusals(a) + Refusals(b)
    decreases |b|
  {
    if b == [] {
      SumOfEmpty(a);
      SumOfEmpty(FragmentsOf(a));
      SumOfEmpty(Refusals(a));
    } else {
      var init, last := b[..|b| - 1], b[|b| - 1];
      var problems := AllProblems(last.lines, last.nameOk);
      SplitLast(b);
      SumAssoc(a, init, [last]);
      SumSlices(a + init, [last]);
      FilesInOrder(a, init);
      SumAssoc(FragmentsOf(a), FragmentsOf(init),
               if problems == [] then [Trimmed(ParseLines(last.lines).bodies)] else []);
      SumAssoc(Refusals(a), Refusals(init), if problems == [] then [] else [problems]);
    }
  }

  lemma OneFile(source: Source)
    ensures var problems := AllProblems(source.lines, source.nameOk);
            && FragmentsOf([source]) == (if problems == [] then [Trimmed(ParseLines(source.lines).bodies)] else [])
            && Refusals([source]) == (if problems == [] then [] else [problems])
  {
    assert [source][..0] == [];
    var problems := AllProblems(source.lines, source.nameOk);
    SumOfEmpty(if problems == [] then [Trimmed(ParseLines(source.lines).bodies)] else []);
    SumOfEmpty(if problems == [] then [] else [problems]);
  }

  // ---------- What a section reads ----------

  function BlockFor(frags: seq<Fragment>, section: string): seq<string> { Block(BodiesFor(frags, section)) }

  ghost predicate Has(frag: Fragment, section: string) { section in frag && frag[section] != [] }

  // A fragment's entries, and around them those of the fragments before and behind it.
  lemma BlockAround(frags: seq<Fragment>, section: string, f: nat)
    requires f < |frags| && Has(frags[f], section)
    ensures BlockFor(frags, section) ==
            BlockFor(frags[..f], section) + (frags[f][section] + [""]) + BlockFor(frags[f + 1..], section)
  {
    CutAt(frags, f);
    TakeMore(frags, f);
    BodiesForSum(frags[..f], frags[f..], section);
    BodiesForSum([frags[f]], frags[f + 1..], section);
    BodiesForOne(frags[f], section);
    BlockOne(frags[f][section]);
    BlockSum([frags[f][section]], BodiesFor(frags[f + 1..], section));
    BlockSum(BodiesFor(frags[..f], section), BodiesFor(frags[f..], section));
    SumAssoc(BlockFor(frags[..f], section), frags[f][section] + [""], BlockFor(frags[f + 1..], section));
  }

  // Without its last blank line, what a block ends with is the end of its last entries.
  lemma {:induction false} EndsBlank(bodies: seq<seq<string>>)
    requires bodies != []
    ensures Block(bodies) != [] && Block(bodies)[|Block(bodies)| - 1] == ""
  {
  }

  lemma DropLast<T>(a: seq<T>, b: seq<T>)
    requires b != []
    ensures (a + b)[..|a + b| - 1] == a + b[..|b| - 1]
  {
  }

  lemma Regrouped<T>(a: seq<T>, b: seq<T>, x: seq<T>, c: seq<T>, d: seq<T>)
    ensures a + (b + x) + c + d == a + b + (x + c + d)
    ensures a + (b + x) + c == a + b + (x + c)
  {
  }

  // What stands behind a fragment's entries: those of the later fragments and what the
  // section held, each behind a blank line.
  function Behind(rest: seq<string>, held: seq<string>): seq<string> {
    if rest == [] && held == [] then [] else [""] + (if held == [] then rest[..|rest| - 1] else rest + held)
  }

  lemma MergeAround(before: seq<string>, body: seq<string>, rest: seq<string>, held: seq<string>,
                    bodies: seq<seq<string>>)
    requires bodies != [] && Block(bodies) == before + (body + [""]) + rest
    ensures Merge(bodies, held) == before + body + Behind(rest, held)
  {
    Regrouped(before, body, [""], rest, held);
    if held == [] {
      if rest == [] {
        SumOfEmpty(before + (body + [""]));
        SumAssoc(before, body, [""]);
        SumSlices(before + body, [""]);
        SumOfEmpty(before + body);
      } else {
        DropLast(before + body, [""] + rest);
        DropLast([""], rest);
      }
    } else {
      SumAssoc([""], rest, held);
    }
  }

  // One fragment's entries of a section: behind those of the earlier fragments, ahead
  // of those of the later ones and of what the section held.
  lemma EntriesInPlace(lines: seq<string>, frags: seq<Fragment>, section: string, f: nat)
    requires UNRELEASED in lines && AcceptedAll(frags) && PlainAll(frags) && section in SECTIONS
    requires f < |frags| && section in frags[f]
    ensures Section(Folded(lines, frags, SECTIONS), section) ==
            BlockFor(frags[..f], section) + frags[f][section] +
            Behind(BlockFor(frags[f + 1..], section), Section(lines, section))
  {
    SectionsDiffer();
    FoldedMeaning(lines, frags, SECTIONS, section);
    BlockAround(frags, section, f);
    var b := FragmentIsABody(frags, f, section);
    MergeAround(BlockFor(frags[..f], section), frags[f][section], BlockFor(frags[f + 1..], section),
                Section(lines, section), BodiesFor(frags, section));
  }

  lemma SliceOfTail<T>(s: seq<T>, f: nat, g: nat)
    requires f < g < |s|
    ensures s[f + 1..][g - f - 1] == s[g]
    ensures s[f + 1..][..g - f - 1] == s[f + 1..g]
    ensures s[f + 1..][g - f - 1 + 1..] == s[g + 1..]
  {
  }

  // Of two fragments with entries for a section, those of the one given first stand
  // above those of the other, a blank line or more apart.
  lemma FragmentsInOrder(lines: seq<string>, frags: seq<Fragment>, section: string, f: nat, g: nat)
    returns (front: seq<string>, between: seq<string>, back: seq<string>)
    requires UNRELEASED in lines && AcceptedAll(frags) && PlainAll(frags) && section in SECTIONS
    requires f < g < |frags| && section in frags[f] && section in frags[g]
    ensures Section(Folded(lines, frags, SECTIONS), section) ==
            front + frags[f][section] + ([""] + between + frags[g][section]) + back
  {
    EntriesInPlace(lines, frags, section, f);
    front, between := BlockFor(frags[..f], section), BlockFor(frags[f + 1..g], section);
    back := BehindLater(frags, section, Section(lines, section), f, g);
    SumAssoc(front + frags[f][section], [""] + between + frags[g][section], back);
  }

  lemma BehindLater(frags: seq<Fragment>, section: string, held: seq<string>, f: nat, g: nat)
    returns (back: seq<string>)
    requires f < g < |frags| && section in frags[g] && frags[g][section] != []
    ensures Behind(BlockFor(frags[f + 1..], section), held) ==
            [""] + BlockFor(frags[f + 1..g], section) + frags[g][section] + back
  {
    var later := frags[f + 1..];
    SliceOfTail(frags, f, g);
    BlockAround(later, section, g - f - 1);
    var b := FragmentIsABody(later, g - f - 1, section);
    back := Behind(BlockFor(frags[g + 1..], section), held);
    BehindAround(BlockFor(frags[f + 1..g], section), frags[g][section], BlockFor(frags[g + 1..], section), held,
                 BodiesFor(later, section));
  }

  lemma BehindAround(before: seq<string>, body: seq<string>, rest: seq<string>, held: seq<string>,
                     bodies: seq<seq<string>>)
    requires bodies != [] && Block(bodies) == before + (body + [""]) + rest
    ensures Behind(Block(bodies), held) == [""] + before + body + Behind(rest, held)
  {
    EndsBlank(bodies);
    MergeAround(before, body, rest, held, bodies);
    assert Behind(Block(bodies), held) == [""] + Merge(bodies, held);
    Prepended([""], before, body, Behind(rest, held));
  }

  lemma Prepended<T>(a: seq<T>, b: seq<T>, c: seq<T>, d: seq<T>)
    ensures a + (b + c + d) == a + b + c + d
  {
  }

  // ---------- Blank lines around a new section ----------

  // A section that is not there yet is set apart: a blank line before its heading, one
  // behind it, and one behind its entries, which are all there is under it.
  lemma NewSectionStandsApart(body: seq<string>, section: string, bodies: seq<seq<string>>)
    returns (front: seq<string>, back: seq<string>, rest: seq<string>)
    requires bodies != [] && HeadingOf(section) !in body
    ensures FoldBody(body, section, Block(bodies)) == front + ["", HeadingOf(section), ""] + Merge(bodies, []) + back
    ensures body == front + rest && (front == [] || !Blank(front[|front| - 1]))
    ensures back != [] && Blank(back[0]) && back == if rest != [] && Blank(rest[0]) then rest else [""] + rest
  {
    EndsBlank(bodies);
    front, back, rest := CreatedApart(body, section, Block(bodies));
  }

  lemma CreatedApart(body: seq<string>, section: string, block: seq<string>)
    returns (front: seq<string>, back: seq<string>, rest: seq<string>)
    requires block != [] && block[|block| - 1] == "" && HeadingOf(section) !in body
    ensures FoldBody(body, section, block) == front + ["", HeadingOf(section), ""] + block[..|block| - 1] + back
    ensures body == front + rest && (front == [] || !Blank(front[|front| - 1]))
    ensures back != [] && Blank(back[0]) && back == if rest != [] && Blank(rest[0]) then rest else [""] + rest
  {
    var at := NewAt(body, section);
    front, rest := body[..at], body[at..];
    back := if rest != [] && Blank(rest[0]) then rest else [""] + rest;
    CutAt(body, at);
    NotFound(body, HeadingOf(section));
    CreatedShape(body, section, block);
    SetApart(front, ["", HeadingOf(section), ""], block, rest);
    FrontEndsText(body, section);
  }

  lemma FrontEndsText(body: seq<string>, section: string)
    ensures var at := NewAt(body, section); at > 0 ==> !Blank(body[at - 1])
  {
  }

  lemma NotFound(lines: seq<string>, line: string)
    requires line !in lines
    ensures FindLine(lines, line) == |lines|
  {
  }

  lemma SetApart(front: seq<string>, lead: seq<string>, block: seq<string>, rest: seq<string>)
    requires block != [] && block[|block| - 1] == ""
    ensures front + ((lead + Fitted(block, rest)) + rest) ==
            front + lead + block[..|block| - 1] + (if rest != [] && Blank(rest[0]) then rest else [""] + rest)
  {
    SplitLast(block);
    Regathered(front, lead, block[..|block| - 1], rest, "");
  }

  lemma Regathered<T>(a: seq<T>, b: seq<T>, c: seq<T>, d: seq<T>, x: T)
    ensures a + ((b + c) + d) == a + b + c + d
    ensures a + ((b + (c + [x])) + d) == a + b + c + ([x] + d)
  {
  }
}
