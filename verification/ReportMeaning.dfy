// What the report shows: every finding in its section, in order, or counted among
// those that are left out.
module ReportMeaning {
  import opened Sequences
  import opened Text
  import opened Numerals
  import opened BoundedReport

  // ---------- The rows of a kind ----------

  function RowOf(f: Finding): string { "- " + Code(f.source) + ": " + f.message }

  // Which findings are of a kind.
  ghost function PlacesOf(findings: seq<Finding>, kind: string): set<nat> {
    set i | 0 <= i < |findings| && findings[i].kind == kind
  }

  lemma {:induction false} RowsOfSum(a: seq<Finding>, b: seq<Finding>, kind: string)
    ensures RowsOf(a + b, kind) == RowsOf(a, kind) + RowsOf(b, kind)
  {
    if a == [] {
      SumOfEmpty(b);
      SumOfEmpty(RowsOf(b, kind));
    } else {
      TailOfSum(a, b);
      RowsOfSum(a[1..], b, kind);
      SumAssoc(if a[0].kind == kind then [RowOf(a[0])] else [], RowsOf(a[1..], kind), RowsOf(b, kind));
    }
  }

  lemma RowsOfOne(f: Finding, kind: string)
    ensures RowsOf([f], kind) == if f.kind == kind then [RowOf(f)] else []
  {
    assert [f][1..] == [];
    SumOfEmpty(if f.kind == kind then [RowOf(f)] else []);
  }

  // A finding's row stands behind those of the earlier findings of its kind and ahead
  // of those of the later ones.
  lemma RowInPlace(findings: seq<Finding>, i: nat)
    requires i < |findings|
    ensures var kind := findings[i].kind;
            RowsOf(findings, kind) ==
            RowsOf(findings[..i], kind) + [RowOf(findings[i])] + RowsOf(findings[i + 1..], kind)
  {
    var kind := findings[i].kind;
    CutAt(findings, i);
    TakeMore(findings, i);
    RowsOfSum(findings[..i], findings[i..], kind);
    RowsOfSum([findings[i]], findings[i + 1..], kind);
    RowsOfOne(findings[i], kind);
    SumAssoc(RowsOf(findings[..i], kind), [RowOf(findings[i])], RowsOf(findings[i + 1..], kind));
  }

  lemma PlacesMore(findings: seq<Finding>, last: Finding, kind: string)
    ensures PlacesOf(findings + [last], kind) ==
            PlacesOf(findings, kind) + (if last.kind == kind then {|findings|} else {})
  {
    var more := findings + [last];
    assert more[|findings|] == last && forall i | 0 <= i < |findings| :: more[i] == findings[i];
  }

  // As many rows as findings of the kind.
  lemma {:induction false} RowsAreCounted(findings: seq<Finding>, kind: string)
    ensures |RowsOf(findings, kind)| == |PlacesOf(findings, kind)|
  {
    if findings != [] {
      var init, last := findings[..|findings| - 1], findings[|findings| - 1];
      SplitLast(findings);
      RowsOfSum(init, [last], kind);
      RowsOfOne(last, kind);
      RowsAreCounted(init, kind);
      PlacesMore(init, last, kind);
    }
  }

  // ---------- Counts in the table ----------

  function NoCommas(s: string): string {
    if s == "" then "" else (if s[0] == ',' then "" else [s[0]]) + NoCommas(s[1..])
  }

  lemma {:induction false} NoCommasSum(a: string, b: string)
    ensures NoCommas(a + b) == NoCommas(a) + NoCommas(b)
  {
    if a == "" {
      SumOfEmpty(b);
      SumOfEmpty(NoCommas(b));
    } else {
      TailOfSum(a, b);
      NoCommasSum(a[1..], b);
      SumAssoc(if a[0] == ',' then "" else [a[0]], NoCommas(a[1..]), NoCommas(b));
    }
  }

  lemma {:induction false} DigitsStay(s: string)
    requires AllDigits(s)
    ensures NoCommas(s) == s
  {
    if s != "" {
      SplitFirst(s);
      DigitsStay(s[1..]);
    }
  }

  lemma LastThree(n: nat)
    requires n >= 1000
    ensures Decimal(n) == Decimal(n / 1000) + Pad3(n % 1000)
  {
    ThreeSteps(n);
    assert n / 10 / 10 / 10 == n / 1000 && n / 10 / 10 % 10 == n % 1000 / 100;
    assert n / 10 % 10 == n % 1000 / 10 % 10 && n % 10 == n % 1000 % 10;
  }

  lemma ThreeSteps(n: nat)
    requires n >= 1000
    ensures Decimal(n) == Decimal(n / 10 / 10 / 10) + [Digit(n / 10 / 10 % 10), Digit(n / 10 % 10), Digit(n % 10)]
  {
    assert Decimal(n) == Decimal(n / 10) + [Digit(n % 10)];
    assert Decimal(n / 10) == Decimal(n / 10 / 10) + [Digit(n / 10 % 10)];
  }

  // Without its commas a grouped count is the count; the last comma stands three digits
  // before the end.
  lemma {:induction false} GroupedMeaning(n: nat)
    ensures NoCommas(Grouped(n)) == Decimal(n)
    ensures n >= 1000 ==> Grouped(n)[|Grouped(n)| - 4] == ','
  {
    if n < 1000 {
      DecimalReadsBack(n);
      DigitsStay(Decimal(n));
    } else {
      GroupedMeaning(n / 1000);
      LastThree(n);
      var last := Pad3(n % 1000);
      DigitsStay(last);
      NoCommasSum(Grouped(n / 1000) + ",", last);
      NoCommasSum(Grouped(n / 1000), ",");
      assert NoCommas(",") == "" by {
        assert ","[1..] == "";
      }
      SumOfEmpty(NoCommas(Grouped(n / 1000)));
    }
  }

  // A row of the table: the source, what it holds and what was skipped.
  lemma RowOfTable(measured: seq<Measure>, i: nat)
    requires i < |measured|
    ensures |TableOf(measured)| == |measured|
    ensures TableOf(measured)[i] == "| " + Code(measured[i].source) + " | " + Grouped(measured[i].entries) + " | " +
                                    Grouped(measured[i].skipped) + " |"
  {
  }

  // ---------- The head ----------

  function AllIsWell(checked: nat): string {
    "All " + Decimal(checked) + " feeds fetched, parsed and sized as expected."
  }

  lemma SentenceSays(report: Report)
    ensures Sentence(report) == AllIsWell(report.checked) <==> report.findings == []
  {
    if report.findings != [] {
      assert Sentence(report)[0] == 'C' && AllIsWell(report.checked)[0] == 'A';
    }
  }

  // It starts with the marker the issue is found by, says that all is well exactly when
  // there are no findings, and that the registry could not be read exactly when so.
  lemma HeadSays(report: Report)
    ensures |Head(report)| >= 4 && Head(report)[0] == "<!-- blocklist-catalog -->"
    ensures Head(report)[3] == AllIsWell(report.checked) <==> report.findings == []
    ensures |Head(report)| > 4 <==> !report.registryOk
  {
    SentenceSays(report);
    HeadIs(report, Sentence(report));
  }

  lemma HeadIs(report: Report, text: string)
    requires text == Sentence(report)
    ensures |Head(report)| >= 4 && Head(report)[0] == "<!-- blocklist-catalog -->" && Head(report)[3] == text
    ensures |Head(report)| > 4 <==> !report.registryOk
  {
  }

  // ---------- The sections ----------

  // The seven kinds, each with its own title.
  lemma KindsAre()
    ensures Kinds()[0] == ("dead", "Dead feeds")
    ensures Kinds()[1] == ("not_a_list", "Feeds that now return a web page")
    ensures Kinds()[2] == ("unparseable", "Feeds that no longer parse")
    ensures Kinds()[3] == ("shrunken", "Shrunken feeds")
    ensures Kinds()[4] == ("skipped", "Rising share of skipped rules")
    ensures Kinds()[5] == ("upstream_retired", "Catalog entries retired upstream")
    ensures Kinds()[6] == ("upstream_new", "Upstream lists not in the catalog (candidates)")
    ensures |Kinds()| == 7
  {
  }

  // One section for a kind that has findings, none for another.
  function SectionsFor(findings: seq<Finding>, kind: (string, string)): seq<Section> {
    var rows := RowsOf(findings, kind.0);
    if rows == [] then [] else [Section("## " + kind.1 + " (" + Decimal(|rows|) + ")", rows)]
  }

  lemma {:induction false} SectionsOfSum(findings: seq<Finding>, a: seq<(string, string)>, b: seq<(string, string)>)
    ensures SectionsOf(findings, a + b) == SectionsOf(findings, a) + SectionsOf(findings, b)
  {
    if a == [] {
      SumOfEmpty(b);
      SumOfEmpty(SectionsOf(findings, b));
    } else {
      TailOfSum(a, b);
      SectionsOfSum(findings, a[1..], b);
      SumAssoc(SectionsFor(findings, a[0]), SectionsOf(findings, a[1..]), SectionsOf(findings, b));
    }
  }

  lemma SectionsOfOne(findings: seq<Finding>, kind: (string, string))
    ensures SectionsOf(findings, [kind]) == SectionsFor(findings, kind)
  {
    assert [kind][1..] == [];
    SumOfEmpty(SectionsFor(findings, kind));
  }

  lemma KindInPlace(findings: seq<Finding>, kinds: seq<(string, string)>, i: nat)
    requires i < |kinds|
    ensures SectionsOf(findings, kinds) ==
            SectionsOf(findings, kinds[..i]) + SectionsFor(findings, kinds[i]) + SectionsOf(findings, kinds[i + 1..])
  {
    CutAt(kinds, i);
    TakeMore(kinds, i);
    SectionsOfSum(findings, kinds[..i], kinds[i..]);
    SectionsOfSum(findings, [kinds[i]], kinds[i + 1..]);
    SectionsOfOne(findings, kinds[i]);
    SumAssoc(SectionsOf(findings, kinds[..i]), SectionsFor(findings, kinds[i]), SectionsOf(findings, kinds[i + 1..]));
  }

  // The section of a kind with findings is titled with their number.
  lemma SectionOfKind(findings: seq<Finding>, kinds: seq<(string, string)>, i: nat) returns (j: nat)
    requires i < |kinds| && PlacesOf(findings, kinds[i].0) != {}
    ensures j == |SectionsOf(findings, kinds[..i])| < |SectionsOf(findings, kinds)|
    ensures var n := |PlacesOf(findings, kinds[i].0)|;
            SectionsOf(findings, kinds)[j] ==
            Section("## " + kinds[i].1 + " (" + Decimal(n) + ")", RowsOf(findings, kinds[i].0))
  {
    j := |SectionsOf(findings, kinds[..i])|;
    RowsAreCounted(findings, kinds[i].0);
    KindInPlace(findings, kinds, i);
  }

  // ---------- The report ----------

  lemma {:induction false} ShownInPlace(sections: seq<Section>, kept: seq<nat>, j: nat)
    returns (before: seq<string>, after: seq<string>)
    requires Within(sections, kept) && j < |sections|
    ensures AllShown(sections, kept) == before + Shown(sections[j], kept[j]) + after
    decreases |sections|
  {
    var n := |sections| - 1;
    if j == n {
      before, after := AllShown(sections[..n], kept[..n]), [];
      SumOfEmpty(AllShown(sections, kept));
    } else {
      before, after := ShownInPlace(sections[..n], kept[..n], j);
      SumAssoc(before + Shown(sections[j], kept[j]), after, Shown(sections[n], kept[n]));
      after := after + Shown(sections[n], kept[n]);
    }
  }

  lemma InTheMiddle<T>(a: seq<T>, b: seq<T>, m: seq<T>, c: seq<T>, d: seq<T>, e: seq<T>, f: seq<T>)
    ensures a + (b + m + c) + d + e + f == (a + b) + m + (c + d + e + f)
  {
  }

  function MoreThan(omitted: nat): string {
    "- _... and " + Decimal(omitted) + " more, not shown (see the workflow log)_"
  }

  // A heading, the first rows, and how many are not shown.
  function Described(heading: string, rows: seq<string>, shown: nat): seq<string>
    requires shown <= |rows|
  {
    ["", heading, ""] + rows[..shown] + (if shown < |rows| then [MoreThan(|rows| - shown)] else [])
  }

  lemma NoteCounts(omitted: nat)
    ensures Note(omitted) == MoreThan(omitted)
  {
  }

  lemma ShownIsDescribed(section: Section, shown: nat)
    requires shown <= |section.rows|
    ensures Shown(section, shown) == Described(section.title, section.rows, shown)
  {
    if shown < |section.rows| {
      NoteCounts(|section.rows| - shown);
    }
  }

  // For each kind that has findings, however the report is cut: the rows shown and the
  // number in the note are together all findings of that kind.
  lemma EveryFindingCounts(parts: Parts, findings: seq<Finding>, kinds: seq<(string, string)>, kept: seq<nat>,
                           tableKept: nat, i: nat)
    returns (before: seq<string>, shown: nat, after: seq<string>)
    requires parts.sections == SectionsOf(findings, kinds)
    requires Within(parts.sections, kept) && tableKept <= |parts.table|
    requires i < |kinds| && PlacesOf(findings, kinds[i].0) != {}
    ensures var rows := RowsOf(findings, kinds[i].0);
            && shown <= |rows| == |PlacesOf(findings, kinds[i].0)|
            && Lines(parts, kept, tableKept) ==
               before + Described("## " + kinds[i].1 + " (" + Decimal(|rows|) + ")", rows, shown) + after
  {
    var j := SectionOfKind(findings, kinds, i);
    RowsAreCounted(findings, kinds[i].0);
    shown := kept[j];
    ShownIsDescribed(parts.sections[j], shown);
    before, after := SectionInLines(parts, kept, tableKept, j);
  }

  lemma SectionInLines(parts: Parts, kept: seq<nat>, tableKept: nat, j: nat)
    returns (before: seq<string>, after: seq<string>)
    requires Within(parts.sections, kept) && tableKept <= |parts.table| && j < |parts.sections|
    ensures Lines(parts, kept, tableKept) == before + Shown(parts.sections[j], kept[j]) + after
  {
    var front, back := ShownInPlace(parts.sections, kept, j);
    InTheMiddle(parts.head, front, Shown(parts.sections[j], kept[j]), back, parts.open,
                TableShown(parts.table, tableKept), parts.close);
    before, after := parts.head + front, back + parts.open + TableShown(parts.table, tableKept) + parts.close;
  }
}
