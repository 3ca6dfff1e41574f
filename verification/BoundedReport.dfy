// The size-bounded report of scripts/check_blocklist_catalog.py.
module BoundedReport {
  import opened Sequences
  import opened Text
  import opened Numerals

  datatype Finding = Finding(kind: string, source: string, message: string)
  datatype Measure = Measure(source: string, entries: nat, skipped: nat)

  // `measured` lists the sources in sorted order.
  datatype Report = Report(findings: seq<Finding>, measured: seq<Measure>, checked: nat, registryOk: bool)

  // ---------- Bytes ----------

  function CharBytes(c: char): (n: nat)
    ensures 1 <= n <= 4
  {
    if c as int < 0x80 then 1 else if c as int < 0x800 then 2 else if c as int < 0x10000 then 3 else 4
  }

  // The length of the UTF-8 encoding.
  function Bytes(s: string): nat {
    if s == "" then 0 else CharBytes(s[0]) + Bytes(s[1..])
  }

  // `size`: one newline a line.
  function Size(lines: seq<string>): nat { Bytes(Join("\n", lines)) + 1 }

  function Cost(lines: seq<string>): nat {
    if lines == [] then 0 else Bytes(lines[0]) + 1 + Cost(lines[1..])
  }

  lemma {:induction false} BytesSum(a: string, b: string)
    ensures Bytes(a + b) == Bytes(a) + Bytes(b)
  {
    if a == "" {
      SumOfEmpty(b);
    } else {
      TailOfSum(a, b);
      BytesSum(a[1..], b);
    }
  }

  lemma NewlineBytes()
    ensures Bytes("\n") == 1
  {
    assert "\n"[1..] == "";
  }

  lemma {:induction false} BytesBounds(s: string)
    ensures |s| <= Bytes(s) <= 4 * |s|
  {
    if s != "" {
      BytesBounds(s[1..]);
    }
  }

  // `size` is additive over lists that are not empty.
  lemma {:induction false} SizeIsCost(lines: seq<string>)
    requires lines != []
    ensures Size(lines) == Cost(lines)
  {
    if |lines| == 1 {
      assert lines[1..] == [];
    } else {
      SizeIsCost(lines[1..]);
      NewlineBytes();
      BytesSum(lines[0], "\n");
      BytesSum(lines[0] + "\n", Join("\n", lines[1..]));
    }
  }

  lemma {:induction false} CostSum(a: seq<string>, b: seq<string>)
    ensures Cost(a + b) == Cost(a) + Cost(b)
  {
    if a == [] {
      SumOfEmpty(b);
    } else {
      TailOfSum(a, b);
      CostSum(a[1..], b);
    }
  }

  lemma CostOne(line: string)
    ensures Cost([line]) == Bytes(line) + 1 && Size([line]) == Cost([line])
  {
    assert [line][1..] == [];
    SizeIsCost([line]);
  }

  lemma {:induction false} AsciiBytes(s: string)
    requires Ascii(s)
    ensures Bytes(s) == |s|
  {
    if s != "" {
      AsciiBytes(s[1..]);
    }
  }

  // ---------- The parts of a report ----------

  function Replaced(s: string, from: char, into: char): string {
    seq(|s|, i requires 0 <= i < |s| => if s[i] == from then into else s[i])
  }

  function Code(text: string): string { "`" + Replaced(Replaced(text, '`', '\''), '\n', ' ') + "`" }

  // The two characters Markdown ends a line at.
  predicate EndsLine(c: char) { c == '\n' || c == '\r' }

  // Backticks at both ends and nowhere inside, every other character as it was; and it stays on its line exactly when
  // the text holds no carriage return, which is not replaced.
  lemma CodeIsOneSpan(text: string)
    ensures var c := Code(text);
            |c| == |text| + 2 && c[0] == '`' && c[|c| - 1] == '`' &&
            forall i | 0 < i < |c| - 1 :: c[i] != '`' && c[i] != '\n'
    ensures forall i | 0 <= i < |text| && text[i] != '`' && text[i] != '\n' :: Code(text)[i + 1] == text[i]
    ensures (forall i | 0 <= i < |Code(text)| :: !EndsLine(Code(text)[i])) <==> '\r' !in text
  {
    var c, inner := Code(text), Replaced(Replaced(text, '`', '\''), '\n', ' ');
    forall i | 0 < i < |c| - 1
      ensures c[i] != '`' && c[i] != '\n' && (EndsLine(c[i]) <==> text[i - 1] == '\r')
    {
      assert c[i] == inner[i - 1];
    }
    forall i | 0 <= i < |text| && text[i] != '`' && text[i] != '\n'
      ensures c[i + 1] == text[i]
    {
      assert c[i + 1] == inner[i];
    }
    if '\r' in text {
      var i :| 0 <= i < |text| && text[i] == '\r';
      assert EndsLine(c[i + 1]);
    }
  }

  function Pad3(n: nat): string
    requires n < 1000
  {
    [Digit(n / 100), Digit(n / 10 % 10), Digit(n % 10)]
  }

  // The `,` format.
  function Grouped(n: nat): string {
    if n < 1000 then Decimal(n) else Grouped(n / 1000) + "," + Pad3(n % 1000)
  }

  datatype Section = Section(title: string, rows: seq<string>)

  function Kinds(): seq<(string, string)> {
    [
      ("dead", "Dead feeds"),
      ("not_a_list", "Feeds that now return a web page"),
      ("unparseable", "Feeds that no longer parse"),
      ("shrunken", "Shrunken feeds"),
      ("skipped", "Rising share of skipped rules"),
      ("upstream_retired", "Catalog entries retired upstream"),
      ("upstream_new", "Upstream lists not in the catalog (candidates)")
    ]
  }

  function Sentence(report: Report): string {
    if report.findings == [] then "All " + Decimal(report.checked) + " feeds fetched, parsed and sized as expected."
    else "Checked " + Decimal(report.checked) + " feeds in `backend/app/data/dns_blocklist_catalog.json` " +
         "against the product's own parser. The catalog is never edited by this check."
  }

  function Head(report: Report): seq<string> {
    ["<!-- blocklist-catalog -->", "# Blocklist catalog check", ""] + [Sentence(report)] +
    (if report.registryOk then [] else ["", "_The AdGuard registry could not be fetched or read this run._"])
  }

  function RowsOf(findings: seq<Finding>, kind: string): seq<string> {
    if findings == [] then []
    else (if findings[0].kind == kind then ["- " + Code(findings[0].source) + ": " + findings[0].message] else []) +
         RowsOf(findings[1..], kind)
  }

  function SectionsOf(findings: seq<Finding>, kinds: seq<(string, string)>): seq<Section> {
    if kinds == [] then []
    else
      var rows := RowsOf(findings, kinds[0].0);
      (if rows == [] then [] else [Section("## " + kinds[0].1 + " (" + Decimal(|rows|) + ")", rows)]) +
      SectionsOf(findings, kinds[1..])
  }

  function TableOf(measured: seq<Measure>): seq<string> {
    seq(|measured|, i requires 0 <= i < |measured| =>
      "| " + Code(measured[i].source) + " | " + Grouped(measured[i].entries) + " | " +
      Grouped(measured[i].skipped) + " |")
  }

  function TailOpen(): seq<string> {
    ["", "<details><summary>Entry counts this run</summary>", "", "| source | entries | skipped |", "|---|---:|---:|"]
  }

  function TailClose(): seq<string> { ["", "</details>", ""] }

  function Note(omitted: nat): string {
    "- _... and " + Decimal(omitted) + " more, not shown (see the workflow log)_"
  }

  function TableNote(omitted: nat): seq<string> {
    ["", "_... and " + Decimal(omitted) + " more sources, not shown._"]
  }

  // ---------- What a cut report is ----------

  function TitleLines(title: string): seq<string> { ["", title, ""] }

  // A section with its first `kept` rows, and a note that counts the others.
  function Shown(section: Section, kept: nat): seq<string>
    requires kept <= |section.rows|
  {
    TitleLines(section.title) + section.rows[..kept] +
    (if kept < |section.rows| then [Note(|section.rows| - kept)] else [])
  }

  predicate Within(sections: seq<Section>, kept: seq<nat>) {
    |kept| == |sections| && forall i | 0 <= i < |kept| :: kept[i] <= |sections[i].rows|
  }

  function AllShown(sections: seq<Section>, kept: seq<nat>): seq<string>
    requires Within(sections, kept)
  {
    if sections == [] then []
    else
      var n := |sections| - 1;
      AllShown(sections[..n], kept[..n]) + Shown(sections[n], kept[n])
  }

  function TableShown(table: seq<string>, kept: nat): seq<string>
    requires kept <= |table|
  {
    table[..kept] + (if kept < |table| then TableNote(|table| - kept) else [])
  }

  datatype Parts =
    Parts(head: seq<string>, sections: seq<Section>, open: seq<string>, table: seq<string>, close: seq<string>)

  function PartsOf(report: Report, kinds: seq<(string, string)>): (parts: Parts)
    ensures parts.head != [] && parts.open != []
  {
    Parts(Head(report), SectionsOf(report.findings, kinds), TailOpen(), TableOf(report.measured), TailClose())
  }

  function Lines(parts: Parts, kept: seq<nat>, tableKept: nat): seq<string>
    requires Within(parts.sections, kept) && tableKept <= |parts.table|
  {
    parts.head + AllShown(parts.sections, kept) + parts.open + TableShown(parts.table, tableKept) + parts.close
  }

  function TitlesSize(sections: seq<Section>): nat {
    if sections == [] then 0
    else TitlesSize(sections[..|sections| - 1]) + Size(TitleLines(sections[|sections| - 1].title))
  }

  function NoteRoom(sections: seq<Section>): nat { 200 * (|sections| + 1) }

  // What is left for rows.
  function Budget(parts: Parts, maxBytes: int): int {
    maxBytes - Size(parts.head) - Size(parts.open + parts.close) - NoteRoom(parts.sections) - TitlesSize(parts.sections)
  }

  // As many rows as the budget pays for, in order, and not one more.
  ghost predicate Fills(rows: seq<string>, budget: int, kept: nat) {
    && kept <= |rows|
    && (kept > 0 ==> Cost(rows[..kept]) <= budget)
    && (kept < |rows| ==> Cost(rows[..kept + 1]) > budget)
  }

  function Spent(sections: seq<Section>, kept: seq<nat>): nat
    requires Within(sections, kept)
  {
    if sections == [] then 0
    else
      var n := |sections| - 1;
      Spent(sections[..n], kept[..n]) + Cost(sections[n].rows[..kept[n]])
  }

  ghost predicate FillsAll(sections: seq<Section>, budget: int, kept: seq<nat>)
    requires Within(sections, kept)
  {
    if sections == [] then true
    else
      var n := |sections| - 1;
      FillsAll(sections[..n], budget, kept[..n]) &&
      Fills(sections[n].rows, budget - Spent(sections[..n], kept[..n]), kept[n])
  }

  // Each section, and then the table, takes what it can of what the earlier ones left.
  ghost predicate Greedy(parts: Parts, maxBytes: int, kept: seq<nat>, tableKept: nat) {
    && Within(parts.sections, kept) && tableKept <= |parts.table|
    && FillsAll(parts.sections, Budget(parts, maxBytes), kept)
    && Fills(parts.table, Budget(parts, maxBytes) - Spent(parts.sections, kept), tableKept)
  }

  // ---------- The renderer ----------

  // The loop both kinds of rows go through.
  method Fill(rows: seq<string>, before: seq<string>, left: int)
    returns (out: seq<string>, budget: int, kept: nat)
    ensures Fills(rows, left, kept)
    ensures out == before + rows[..kept] && budget == left - Cost(rows[..kept])
  {
    out, budget, kept := before, left, 0;
    SumOfEmpty(before);
    assert rows[..0] == [];
    while kept < |rows|
      invariant kept <= |rows| && (kept > 0 ==> Cost(rows[..kept]) <= left)
      invariant out == before + rows[..kept] && budget == left - Cost(rows[..kept])
    {
      var row := rows[kept];
      var cost := Size([row]);
      TakeMore(rows, kept);
      CostSum(rows[..kept], [row]);
      CostOne(row);
      if cost > budget {
        break;
      }
      SumAssoc(before, rows[..kept], [row]);
      out := out + [row];
      budget := budget - cost;
      kept := kept + 1;
    }
  }

  method BuildSections(findings: seq<Finding>, kinds: seq<(string, string)>) returns (sections: seq<Section>)
    ensures sections == SectionsOf(findings, kinds)
  {
    sections := [];
    for i := 0 to |kinds|
      invariant sections + SectionsOf(findings, kinds[i..]) == SectionsOf(findings, kinds)
    {
      var rows := RowsOf(findings, kinds[i].0);
      TakeMore(kinds, i);
      SectionsStep(sections, findings, kinds[i..]);
      if rows != [] {
        sections := sections + [Section("## " + kinds[i].1 + " (" + Decimal(|rows|) + ")", rows)];
      }
    }
    TakeAll(kinds);
    SumOfEmpty(sections);
  }

  lemma SectionsStep(sections: seq<Section>, findings: seq<Finding>, kinds: seq<(string, string)>)
    requires kinds != []
    ensures var rows := RowsOf(findings, kinds[0].0);
            sections + SectionsOf(findings, kinds) ==
            (if rows == [] then sections
             else sections + [Section("## " + kinds[0].1 + " (" + Decimal(|rows|) + ")", rows)]) +
            SectionsOf(findings, kinds[1..])
  {
    var rows := RowsOf(findings, kinds[0].0);
    var rest := SectionsOf(findings, kinds[1..]);
    if rows == [] {
      SumOfEmpty(rest);
    } else {
      SumAssoc(sections, [Section("## " + kinds[0].1 + " (" + Decimal(|rows|) + ")", rows)], rest);
    }
  }

  // One section's turn of the outer loop.
  method ShowSection(section: Section, before: seq<string>, left: int)
    returns (out: seq<string>, budget: int, kept: nat)
    ensures Fills(section.rows, left, kept)
    ensures out == before + Shown(section, kept) && budget == left - Cost(section.rows[..kept])
  {
    out, budget, kept := Fill(section.rows, before + ["", section.title, ""], left);
    SumAssoc(before, TitleLines(section.title), section.rows[..kept]);
    SumOfEmpty(TitleLines(section.title) + section.rows[..kept]);
    if kept < |section.rows| {
      SumAssoc(before, TitleLines(section.title) + section.rows[..kept], [Note(|section.rows| - kept)]);
      out := out + [Note(|section.rows| - kept)];
    }
  }

  method ShowSections(sections: seq<Section>, before: seq<string>, left: int)
    returns (out: seq<string>, budget: int, kept: seq<nat>)
    ensures Within(sections, kept) && FillsAll(sections, left, kept)
    ensures out == before + AllShown(sections, kept) && budget == left - Spent(sections, kept)
  {
    out, budget, kept := before, left, [];
    SumOfEmpty(before);
    for i := 0 to |sections|
      invariant Within(sections[..i], kept) && FillsAll(sections[..i], left, kept)
      invariant out == before + AllShown(sections[..i], kept) && budget == left - Spent(sections[..i], kept)
    {
      TakeMore(sections, i);
      SumSlices(sections[..i], [sections[i]]);
      var k;
      ghost var shown := AllShown(sections[..i], kept);
      out, budget, k := ShowSection(sections[i], out, budget);
      SumSlices(kept, [k]);
      SumAssoc(before, shown, Shown(sections[i], k));
      kept := kept + [k];
    }
    TakeAll(sections);
  }

  method ShowTable(table: seq<string>, before: seq<string>, left: int) returns (out: seq<string>, kept: nat)
    ensures Fills(table, left, kept) && out == before + TableShown(table, kept)
  {
    var budget;
    out, budget, kept := Fill(table, before, left);
    SumOfEmpty(table[..kept]);
    if kept < |table| {
      SumAssoc(before, table[..kept], TableNote(|table| - kept));
      out := out + TableNote(|table| - kept);
    }
  }

  method Render(parts: Parts, maxBytes: int) returns (out: seq<string>, kept: seq<nat>, tableKept: nat)
    ensures Greedy(parts, maxBytes, kept, tableKept)
    ensures out == Lines(parts, kept, tableKept)
  {
    var budget := Budget(parts, maxBytes);
    out, budget, kept := ShowSections(parts.sections, parts.head, budget);
    out, tableKept := ShowTable(parts.table, out + parts.open, budget);
    out := out + parts.close;
  }

  // ---------- The byte bound ----------

  // What the notes of a cut report take.
  function NotesCost(sections: seq<Section>, kept: seq<nat>): nat
    requires Within(sections, kept)
  {
    if sections == [] then 0
    else
      var n := |sections| - 1;
      NotesCost(sections[..n], kept[..n]) +
      (if kept[n] < |sections[n].rows| then Cost([Note(|sections[n].rows| - kept[n])]) else 0)
  }

  function TableNoteCost(table: seq<string>, kept: nat): nat
    requires kept <= |table|
  {
    if kept < |table| then Cost(TableNote(|table| - kept)) else 0
  }

  // `sys.maxsize`: Python has no longer list.
  const MAX_LENGTH := 9223372036854775807

  lemma LengthDigits(n: nat)
    requires n <= MAX_LENGTH
    ensures |Decimal(n)| <= 20
  {
    assert Pow10(5) == 100000;
    assert Pow10(10) == 10000000000;
    assert Pow10(15) == 1000000000000000;
    assert Pow10(19) == 10000000000000000000;
    DecimalLength(n, 19);
  }

  ghost predicate Listable(parts: Parts) {
    |parts.table| <= MAX_LENGTH && forall s | s in parts.sections :: |s.rows| <= MAX_LENGTH
  }

  lemma NumeralIsAscii(s: string)
    requires Numeral(s)
    ensures Ascii(s)
  {
    forall i | 0 <= i < |s|
      ensures s[i] as int < 0x80
    {
      assert IsDigit(s[i]);
    }
  }

  lemma NumberedNote(open: string, close: string, omitted: nat)
    requires Ascii(open) && Ascii(close) && |open| + |close| <= 60 && omitted <= MAX_LENGTH
    ensures Bytes(open + Decimal(omitted) + close) <= 80
  {
    LengthDigits(omitted);
    DecimalReadsBack(omitted);
    AsciiBytes(open);
    AsciiBytes(close);
    NumeralIsAscii(Decimal(omitted));
    AsciiBytes(Decimal(omitted));
    BytesSum(open, Decimal(omitted));
    BytesSum(open + Decimal(omitted), close);
  }

  lemma NoteFits(omitted: nat)
    requires omitted <= MAX_LENGTH
    ensures Cost([Note(omitted)]) <= 200
  {
    NumberedNote("- _... and ", " more, not shown (see the workflow log)_", omitted);
    CostOne(Note(omitted));
  }

  lemma TableNoteFits(omitted: nat)
    requires omitted <= MAX_LENGTH
    ensures Cost(TableNote(omitted)) <= 200
  {
    NumberedNote("_... and ", " more sources, not shown._", omitted);
    var line := "_... and " + Decimal(omitted) + " more sources, not shown._";
    assert TableNote(omitted) == [""] + [line];
    CostSum([""], [line]);
    CostOne("");
    CostOne(line);
  }

  lemma {:induction false} NotesFitTheirRoom(sections: seq<Section>, kept: seq<nat>)
    requires Within(sections, kept) && forall s | s in sections :: |s.rows| <= MAX_LENGTH
    ensures NotesCost(sections, kept) <= 200 * |sections|
  {
    if sections != [] {
      var n := |sections| - 1;
      NotesFitTheirRoom(sections[..n], kept[..n]);
      if kept[n] < |sections[n].rows| {
        NoteFits(|sections[n].rows| - kept[n]);
      }
    }
  }

  function SectionsCost(sections: seq<Section>, kept: seq<nat>): nat
    requires Within(sections, kept)
  {
    if sections == [] then 0
    else
      var n := |sections| - 1;
      SectionsCost(sections[..n], kept[..n]) + Cost(Shown(sections[n], kept[n]))
  }

  lemma {:induction false} ShownCost(sections: seq<Section>, kept: seq<nat>)
    requires Within(sections, kept)
    ensures Cost(AllShown(sections, kept)) == SectionsCost(sections, kept)
  {
    if sections != [] {
      var n := |sections| - 1;
      ShownCost(sections[..n], kept[..n]);
      CostSum(AllShown(sections[..n], kept[..n]), Shown(sections[n], kept[n]));
    }
  }

  lemma {:induction false} SectionsCostParts(sections: seq<Section>, kept: seq<nat>)
    requires Within(sections, kept)
    ensures SectionsCost(sections, kept) == TitlesSize(sections) + Spent(sections, kept) + NotesCost(sections, kept)
  {
    if sections != [] {
      var n := |sections| - 1;
      SectionsCostParts(sections[..n], kept[..n]);
      SectionCost(sections[n], kept[n]);
      LastSectionCosts(sections, kept);
    }
  }

  lemma LastSectionCosts(sections: seq<Section>, kept: seq<nat>)
    requires Within(sections, kept) && sections != []
    ensures var n := |sections| - 1;
            && SectionsCost(sections, kept) ==
               SectionsCost(sections[..n], kept[..n]) + Cost(Shown(sections[n], kept[n]))
            && TitlesSize(sections) == TitlesSize(sections[..n]) + Size(TitleLines(sections[n].title))
            && Spent(sections, kept) == Spent(sections[..n], kept[..n]) + Cost(sections[n].rows[..kept[n]])
            && NotesCost(sections, kept) == NotesCost(sections[..n], kept[..n]) +
                 (if kept[n] < |sections[n].rows| then Cost([Note(|sections[n].rows| - kept[n])]) else 0)
  {
  }

  lemma SectionCost(section: Section, kept: nat)
    requires kept <= |section.rows|
    ensures Cost(Shown(section, kept)) == Size(TitleLines(section.title)) + Cost(section.rows[..kept]) +
              (if kept < |section.rows| then Cost([Note(|section.rows| - kept)]) else 0)
  {
    var title, rows := TitleLines(section.title), section.rows[..kept];
    SizeIsCost(title);
    CostSum(title, rows);
    CostSum(title + rows, if kept < |section.rows| then [Note(|section.rows| - kept)] else []);
  }

  lemma TableCost(table: seq<string>, kept: nat)
    requires kept <= |table|
    ensures Cost(TableShown(table, kept)) == Cost(table[..kept]) + TableNoteCost(table, kept)
  {
    CostSum(table[..kept], if kept < |table| then TableNote(|table| - kept) else []);
  }

  lemma CostOfFive(a: seq<string>, b: seq<string>, c: seq<string>, d: seq<string>, e: seq<string>)
    ensures Cost(a + b + c + d + e) == Cost(a) + Cost(b) + Cost(c) + Cost(d) + Cost(e)
  {
    CostSum(a, b);
    CostSum(a + b, c);
    CostSum(a + b + c, d);
    CostSum(a + b + c + d, e);
  }

  lemma LinesCost(parts: Parts, kept: seq<nat>, tableKept: nat)
    requires Within(parts.sections, kept) && tableKept <= |parts.table|
    ensures Cost(Lines(parts, kept, tableKept)) ==
            Cost(parts.head) + SectionsCost(parts.sections, kept) + Cost(parts.open) +
            Cost(TableShown(parts.table, tableKept)) + Cost(parts.close)
  {
    ShownCost(parts.sections, kept);
    CostOfFive(parts.head, AllShown(parts.sections, kept), parts.open, TableShown(parts.table, tableKept), parts.close);
  }

  // What a report has besides rows and notes.
  lemma SkeletonSize(parts: Parts, maxBytes: int)
    requires parts.head != [] && parts.open != []
    ensures maxBytes - Budget(parts, maxBytes) - NoteRoom(parts.sections) ==
            Cost(parts.head) + TitlesSize(parts.sections) + Cost(parts.open) + Cost(parts.close)
  {
    SizeIsCost(parts.head);
    SizeIsCost(parts.open + parts.close);
    CostSum(parts.open, parts.close);
  }

  // Every byte of a report is accounted for.
  lemma LinesSize(parts: Parts, maxBytes: int, kept: seq<nat>, tableKept: nat)
    requires parts.head != [] && parts.open != [] && Within(parts.sections, kept) && tableKept <= |parts.table|
    ensures Size(Lines(parts, kept, tableKept)) ==
            maxBytes - Budget(parts, maxBytes) - NoteRoom(parts.sections)
            + Spent(parts.sections, kept) + Cost(parts.table[..tableKept])
            + NotesCost(parts.sections, kept) + TableNoteCost(parts.table, tableKept)
  {
    SizeIsCost(Lines(parts, kept, tableKept));
    LinesCost(parts, kept, tableKept);
    SkeletonSize(parts, maxBytes);
    SectionsCostParts(parts.sections, kept);
    TableCost(parts.table, tableKept);
  }

  lemma {:induction false} NeverOverspent(sections: seq<Section>, budget: int, kept: seq<nat>)
    requires Within(sections, kept) && FillsAll(sections, budget, kept) && budget >= 0
    ensures Spent(sections, kept) <= budget
  {
    if sections != [] {
      var n := |sections| - 1;
      NeverOverspent(sections[..n], budget, kept[..n]);
      assert sections[n].rows[..0] == [];
    }
  }

  lemma {:induction false} NothingWithoutBudget(sections: seq<Section>, budget: int, kept: seq<nat>)
    requires Within(sections, kept) && FillsAll(sections, budget, kept) && budget < 0
    ensures kept == seq(|sections|, _ => 0) && Spent(sections, kept) == 0
  {
    if sections != [] {
      var n := |sections| - 1;
      NothingWithoutBudget(sections[..n], budget, kept[..n]);
      assert kept[n] == 0;
      assert sections[n].rows[..0] == [];
      assert kept == kept[..n] + [0];
    }
  }

  // The report with every row left out.
  function Bare(parts: Parts): seq<string> {
    var none := seq(|parts.sections|, _ => 0);
    Lines(parts, none, 0)
  }

  lemma {:induction false} NoneSpent(sections: seq<Section>)
    ensures Within(sections, seq(|sections|, _ => 0)) && Spent(sections, seq(|sections|, _ => 0)) == 0
  {
    if sections != [] {
      var n := |sections| - 1;
      NoneSpent(sections[..n]);
      assert seq(|sections|, _ => 0)[..n] == seq(n, _ => 0);
      assert sections[n].rows[..0] == [];
    }
  }

  // With a budget for rows the report is within its bound.
  lemma FitsWithBudget(parts: Parts, maxBytes: int, kept: seq<nat>, tableKept: nat)
    requires parts.head != [] && parts.open != [] && Listable(parts)
    requires Within(parts.sections, kept) && tableKept <= |parts.table|
    requires Spent(parts.sections, kept) + Cost(parts.table[..tableKept]) <= Budget(parts, maxBytes)
    ensures Size(Lines(parts, kept, tableKept)) <= maxBytes
  {
    LinesSize(parts, maxBytes, kept, tableKept);
    NotesFitTheirRoom(parts.sections, kept);
    if tableKept < |parts.table| {
      TableNoteFits(|parts.table| - tableKept);
    }
  }

  // The bound is kept exactly when the report with every row left out keeps it.
  lemma BoundKeptIff(parts: Parts, maxBytes: int, kept: seq<nat>, tableKept: nat)
    requires parts.head != [] && parts.open != [] && Listable(parts) && Greedy(parts, maxBytes, kept, tableKept)
    ensures Bytes(Join("\n", Lines(parts, kept, tableKept))) <= maxBytes <==> Bytes(Join("\n", Bare(parts))) <= maxBytes
  {
    var budget := Budget(parts, maxBytes);
    assert parts.table[..0] == [];
    if budget >= 0 {
      NeverOverspent(parts.sections, budget, kept);
      FitsWithBudget(parts, maxBytes, kept, tableKept);
      NoneSpent(parts.sections);
      FitsWithBudget(parts, maxBytes, seq(|parts.sections|, _ => 0), 0);
    } else {
      NothingWithoutBudget(parts.sections, budget, kept);
      assert tableKept == 0;
    }
  }

  // The skeleton and the room for its notes: when they fit, so does the report.
  lemma SkeletonFits(parts: Parts, maxBytes: int, kept: seq<nat>, tableKept: nat)
    requires parts.head != [] && parts.open != [] && Listable(parts) && Greedy(parts, maxBytes, kept, tableKept)
    requires Budget(parts, maxBytes) >= 0
    ensures Bytes(Join("\n", Lines(parts, kept, tableKept))) < maxBytes
  {
    assert parts.table[..0] == [];
    NeverOverspent(parts.sections, Budget(parts, maxBytes), kept);
    FitsWithBudget(parts, maxBytes, kept, tableKept);
  }

  // ---------- One cut, and no needless one ----------

  lemma {:induction false} CostGrows(rows: seq<string>, a: nat, b: nat)
    requires a < b <= |rows|
    ensures Cost(rows[..a]) < Cost(rows[..b])
  {
    TakeMore(rows, b - 1);
    CostSum(rows[..b - 1], [rows[b - 1]]);
    CostOne(rows[b - 1]);
    if a < b - 1 {
      CostGrows(rows, a, b - 1);
    }
  }

  lemma OneFill(rows: seq<string>, budget: int, a: nat, b: nat)
    requires Fills(rows, budget, a) && Fills(rows, budget, b)
    ensures a == b
  {
    if a + 1 < b {
      CostGrows(rows, a + 1, b);
    }
    if b + 1 < a {
      CostGrows(rows, b + 1, a);
    }
  }

  lemma {:induction false} OneCut(sections: seq<Section>, budget: int, kept: seq<nat>, other: seq<nat>)
    requires Within(sections, kept) && FillsAll(sections, budget, kept)
    requires Within(sections, other) && FillsAll(sections, budget, other)
    ensures kept == other
  {
    if sections != [] {
      var n := |sections| - 1;
      OneCut(sections[..n], budget, kept[..n], other[..n]);
      OneFill(sections[n].rows, budget - Spent(sections[..n], kept[..n]), kept[n], other[n]);
      SplitLast(kept);
      SplitLast(other);
    }
  }

  function TotalCost(sections: seq<Section>): nat {
    if sections == [] then 0 else TotalCost(sections[..|sections| - 1]) + Cost(sections[|sections| - 1].rows)
  }

  ghost predicate Complete(sections: seq<Section>, kept: seq<nat>) {
    |kept| == |sections| && forall i | 0 <= i < |kept| :: kept[i] == |sections[i].rows|
  }

  lemma {:induction false} CompleteSections(sections: seq<Section>, budget: int, kept: seq<nat>)
    requires Within(sections, kept) && FillsAll(sections, budget, kept) && budget >= 0
    ensures Complete(sections, kept) <==> TotalCost(sections) <= budget
    ensures Complete(sections, kept) ==> Spent(sections, kept) == TotalCost(sections)
  {
    if sections != [] {
      var n := |sections| - 1;
      CompleteSections(sections[..n], budget, kept[..n]);
      NeverOverspent(sections, budget, kept);
      TakeAll(sections[n].rows);
      FullRows(sections[n].rows, budget - Spent(sections[..n], kept[..n]), kept[n]);
      assert Complete(sections, kept) <==> Complete(sections[..n], kept[..n]) && kept[n] == |sections[n].rows|;
    }
  }

  lemma FullRows(rows: seq<string>, budget: int, kept: nat)
    requires Fills(rows, budget, kept) && budget >= 0
    ensures kept == |rows| <==> Cost(rows) <= budget
  {
    TakeAll(rows);
    if kept + 1 < |rows| {
      CostGrows(rows, kept + 1, |rows|);
    }
  }

  // Nothing is left out when the budget pays for every row, and only then.
  lemma CompleteIff(parts: Parts, maxBytes: int, kept: seq<nat>, tableKept: nat)
    requires Greedy(parts, maxBytes, kept, tableKept) && Budget(parts, maxBytes) >= 0
    ensures Complete(parts.sections, kept) && tableKept == |parts.table| <==>
            TotalCost(parts.sections) + Cost(parts.table) <= Budget(parts, maxBytes)
  {
    var budget := Budget(parts, maxBytes);
    NeverOverspent(parts.sections, budget, kept);
    CompleteSections(parts.sections, budget, kept);
    FullRows(parts.table, budget - Spent(parts.sections, kept), tableKept);
  }

  // The renderer's bound, on every report and every limit.
  method BoundedLines(parts: Parts, maxBytes: int) returns (out: seq<string>)
    requires parts.head != [] && parts.open != [] && Listable(parts)
    ensures Bytes(Join("\n", out)) <= maxBytes <==> Bytes(Join("\n", Bare(parts))) <= maxBytes
    ensures Budget(parts, maxBytes) >= 0 ==> Bytes(Join("\n", out)) < maxBytes
  {
    var kept, tableKept;
    out, kept, tableKept := Render(parts, maxBytes);
    BoundKeptIff(parts, maxBytes, kept, tableKept);
    if Budget(parts, maxBytes) >= 0 {
      SkeletonFits(parts, maxBytes, kept, tableKept);
    }
  }

  lemma ReportIsListable(report: Report, kinds: seq<(string, string)>, parts: Parts)
    requires |report.findings| <= MAX_LENGTH && |report.measured| <= MAX_LENGTH
    requires parts.sections == SectionsOf(report.findings, kinds) && |parts.table| == |report.measured|
    ensures Listable(parts)
  {
    RowsAreFindings(report.findings, kinds);
  }

  lemma {:induction false} RowCount(findings: seq<Finding>, kind: string)
    ensures |RowsOf(findings, kind)| <= |findings|
  {
    if findings != [] {
      RowCount(findings[1..], kind);
    }
  }

  lemma {:induction false} RowsAreFindings(findings: seq<Finding>, kinds: seq<(string, string)>)
    ensures forall s | s in SectionsOf(findings, kinds) :: |s.rows| <= |findings|
  {
    if kinds != [] {
      RowsAreFindings(findings, kinds[1..]);
      RowCount(findings, kinds[0].0);
    }
  }

  // ---------- The limits the report is made with ----------

  const MAX_REPORT_BYTES := 60000

  const LONG_LINE := 250

  predicate Short(lines: seq<string>) { forall i | 0 <= i < |lines| :: |lines[i]| <= LONG_LINE }

  lemma {:induction false} ShortCost(lines: seq<string>)
    requires Short(lines)
    ensures Cost(lines) <= 1001 * |lines|
  {
    if lines != [] {
      BytesBounds(lines[0]);
      ShortCost(lines[1..]);
    }
  }

  lemma CheckedLine(open: string, checked: nat, close: string)
    requires checked <= MAX_LENGTH && |open| + |close| <= 200
    ensures |open + Decimal(checked) + close| <= LONG_LINE
  {
    LengthDigits(checked);
  }

  lemma SentenceIsShort(report: Report)
    requires report.checked <= MAX_LENGTH
    ensures |Sentence(report)| <= LONG_LINE
  {
    if report.findings == [] {
      CheckedLine("All ", report.checked, " feeds fetched, parsed and sized as expected.");
    } else {
      CheckedLine("Checked ", report.checked, " feeds in `backend/app/data/dns_blocklist_catalog.json` " +
                  "against the product's own parser. The catalog is never edited by this check.");
      SumAssoc("Checked " + Decimal(report.checked), " feeds in `backend/app/data/dns_blocklist_catalog.json` ",
               "against the product's own parser. The catalog is never edited by this check.");
    }
  }

  lemma HeadIsShort(report: Report)
    requires report.checked <= MAX_LENGTH
    ensures Short(Head(report)) && |Head(report)| <= 6
  {
    SentenceIsShort(report);
  }

  lemma TailIsShort()
    ensures Short(TailOpen() + TailClose()) && |TailOpen() + TailClose()| == 8
  {
  }

  ghost predicate ShortTitles(sections: seq<Section>) {
    forall i | 0 <= i < |sections| :: |sections[i].title| <= LONG_LINE
  }

  lemma {:induction false} TitlesFit(sections: seq<Section>)
    requires ShortTitles(sections)
    ensures TitlesSize(sections) <= 3003 * |sections|
  {
    if sections != [] {
      var n := |sections| - 1;
      TitlesFit(sections[..n]);
      SizeIsCost(TitleLines(sections[n].title));
      ShortCost(TitleLines(sections[n].title));
    }
  }

  ghost predicate ShortKinds(kinds: seq<(string, string)>) {
    |kinds| <= 7 && forall i | 0 <= i < |kinds| :: |kinds[i].1| <= 100
  }

  lemma KindsAreShort()
    ensures ShortKinds(Kinds())
  {
  }

  lemma {:induction false} SectionsAreShort(findings: seq<Finding>, kinds: seq<(string, string)>)
    requires ShortKinds(kinds) && |findings| <= MAX_LENGTH
    ensures ShortTitles(SectionsOf(findings, kinds)) && |SectionsOf(findings, kinds)| <= |kinds|
  {
    if kinds != [] {
      SectionsAreShort(findings, kinds[1..]);
      RowCount(findings, kinds[0].0);
      LengthDigits(|RowsOf(findings, kinds[0].0)|);
    }
  }

  // Everything but the rows is of a bounded number of bounded lines.
  ghost predicate SmallSkeleton(parts: Parts) {
    && Short(parts.head) && 0 < |parts.head| <= 6 && parts.open != []
    && Short(parts.open + parts.close) && |parts.open + parts.close| == 8
    && ShortTitles(parts.sections) && |parts.sections| <= 7
  }

  // The skeleton leaves room for rows at the limit the report is made with.
  lemma BudgetIsLeft(parts: Parts, maxBytes: int)
    requires SmallSkeleton(parts) && maxBytes >= MAX_REPORT_BYTES
    ensures Budget(parts, maxBytes) >= 0
  {
    ShortCost(parts.head);
    SizeIsCost(parts.head);
    ShortCost(parts.open + parts.close);
    SizeIsCost(parts.open + parts.close);
    TitlesFit(parts.sections);
  }

  // No count is beyond what Python can count to.
  ghost predicate FewEnough(report: Report) {
    |report.findings| <= MAX_LENGTH && |report.measured| <= MAX_LENGTH && report.checked <= MAX_LENGTH
  }

  // From the limit the report is made with on, never at the limit; below that, the limit
  // is kept exactly when the report with every row left out keeps it.
  ghost predicate KeepsLimit(parts: Parts, maxBytes: int, md: string) {
    && (Bytes(md) <= maxBytes <==> Bytes(Join("\n", Bare(parts))) <= maxBytes)
    && (maxBytes >= MAX_REPORT_BYTES ==> Bytes(md) < maxBytes)
  }

  method RenderParts(parts: Parts, maxBytes: int) returns (md: string, kept: seq<nat>, tableKept: nat)
    ensures Greedy(parts, maxBytes, kept, tableKept)
    ensures md == Join("\n", Lines(parts, kept, tableKept))
    ensures Listable(parts) && SmallSkeleton(parts) ==> KeepsLimit(parts, maxBytes, md)
  {
    var lines;
    lines, kept, tableKept := Render(parts, maxBytes);
    md := Join("\n", lines);
    if Listable(parts) && SmallSkeleton(parts) {
      BoundKeptIff(parts, maxBytes, kept, tableKept);
      if maxBytes >= MAX_REPORT_BYTES {
        BudgetIsLeft(parts, maxBytes);
        SkeletonFits(parts, maxBytes, kept, tableKept);
      }
    }
  }

  lemma ReportIsSmall(report: Report, kinds: seq<(string, string)>, parts: Parts)
    requires FewEnough(report) && ShortKinds(kinds) && parts == PartsOf(report, kinds)
    ensures SmallSkeleton(parts) && Listable(parts)
  {
    HeadIsShort(report);
    TailIsShort();
    SectionsAreShort(report.findings, kinds);
    ReportIsListable(report, kinds, parts);
  }

  // The parts of the report, and what bounds them.
  method BuildParts(report: Report, kinds: seq<(string, string)>) returns (parts: Parts)
    ensures parts == PartsOf(report, kinds)
    ensures FewEnough(report) && ShortKinds(kinds) ==> Listable(parts) && SmallSkeleton(parts)
  {
    var sections := BuildSections(report.findings, kinds);
    parts := Parts(Head(report), sections, TailOpen(), TableOf(report.measured), TailClose());
    if FewEnough(report) && ShortKinds(kinds) {
      ReportIsSmall(report, kinds, parts);
    }
  }

  method RenderMarkdown(report: Report, maxBytes: int := MAX_REPORT_BYTES)
    returns (md: string, parts: Parts, kept: seq<nat>, tableKept: nat)
    ensures parts == PartsOf(report, Kinds())
    ensures Greedy(parts, maxBytes, kept, tableKept)
    ensures md == Join("\n", Lines(parts, kept, tableKept))
    ensures FewEnough(report) ==> KeepsLimit(parts, maxBytes, md)
  {
    KindsAreShort();
    parts := BuildParts(report, Kinds());
    md, kept, tableKept := RenderParts(parts, maxBytes);
  }

  // A limit that the first line alone uses up is not kept, whatever is cut.
  lemma LimitOf26Fails(report: Report, kinds: seq<(string, string)>, kept: seq<nat>, tableKept: nat)
    requires Greedy(PartsOf(report, kinds), 26, kept, tableKept)
    ensures Bytes(Join("\n", Lines(PartsOf(report, kinds), kept, tableKept))) > 26
  {
    var parts := PartsOf(report, kinds);
    SizeIsCost(Lines(parts, kept, tableKept));
    LinesCost(parts, kept, tableKept);
    HeadCosts(report);
  }

  lemma FirstCosts(lines: seq<string>)
    requires |lines| > 1
    ensures Cost(lines) > |lines[0]| + 1
  {
    BytesBounds(lines[0]);
    assert Cost(lines) == Bytes(lines[0]) + 1 + Cost(lines[1..]);
  }

  lemma HeadCosts(report: Report)
    ensures Cost(Head(report)) > 27
  {
    FirstCosts(Head(report));
  }
}
