// What the order of releases is, which tags `previous` and `is_newest` pick by it, and
// which name stands for which release.
module ReleaseOrder {
  import opened Options
  import opened Sequences
  import opened Text
  import opened Numerals
  import opened Splitting
  import opened StringOrder
  import opened ReleaseTags

  // ---------- The order ----------

  // The scheme first, then the numbers; behind those of a SemVer release, whether it
  // is final.
  function Key(r: Release): seq<nat> {
    match r
    case CalVer(year, month, day, n) => [0, year, month, day, n]
    case SemVer(major, minor, patch, pre) => [1, major, minor, patch, if pre.None? then 1 else 0]
  }

  // The first number in which two keys differ.
  ghost predicate SmallerAt(a: seq<nat>, b: seq<nat>, i: int) {
    0 <= i < |a| && i < |b| && (forall j | 0 <= j < i :: a[j] == b[j]) && a[i] < b[i]
  }

  ghost predicate IdentBelow(a: Ident, b: Ident) {
    match (a, b)
    case (Num(m), Num(n)) => m < n
    case (Alpha(s), Alpha(t)) => s < t || exists i :: StrDiffersAt(s, t, i)
    case _ => a.Num?
  }

  ghost predicate IdentBelowAt(a: seq<Ident>, b: seq<Ident>, i: int) {
    0 <= i < |a| && i < |b| && a[..i] == b[..i] && IdentBelow(a[i], b[i])
  }

  ghost predicate PreBelow(a: seq<Ident>, b: seq<Ident>) { a < b || exists i :: IdentBelowAt(a, b, i) }

  ghost predicate IsCandidate(r: Release) { r.SemVer? && r.pre.Some? }

  // Section 11 of SemVer 2.0.0 within SemVer, dates within CalVer, and CalVer below.
  ghost predicate Below(a: Release, b: Release) {
    || (exists i :: SmallerAt(Key(a), Key(b), i))
    || (Key(a) == Key(b) && IsCandidate(a) && IsCandidate(b) && PreBelow(a.pre.value, b.pre.value))
  }

  lemma IdentLessIff(a: Ident, b: Ident)
    ensures IdentLess(a, b) <==> IdentBelow(a, b)
  {
    if a.Alpha? && b.Alpha? {
      StrLessIff(a.text, b.text);
    }
  }

  lemma PreLessIff(a: seq<Ident>, b: seq<Ident>)
    ensures IdentsLess(a, b) <==> PreBelow(a, b)
  {
    IdentsLessIff(a, b);
    forall i | 0 <= i < |a| && i < |b|
      ensures DiffersAt(a, b, i) <==> IdentBelowAt(a, b, i)
    {
      IdentLessIff(a[i], b[i]);
    }
    if i :| DiffersAt(a, b, i) {
      assert IdentBelowAt(a, b, i);
    }
    if i :| IdentBelowAt(a, b, i) {
      assert DiffersAt(a, b, i);
    }
  }

  lemma FirstOfFive(a: seq<nat>, b: seq<nat>)
    requires |a| == |b| == 5
    ensures (exists i :: SmallerAt(a, b, i)) <==>
              a[0] < b[0] || (a[0] == b[0] &&
              (a[1] < b[1] || (a[1] == b[1] &&
              (a[2] < b[2] || (a[2] == b[2] &&
              (a[3] < b[3] || (a[3] == b[3] && a[4] < b[4])))))))
  {
    if a[0] < b[0] {
      assert SmallerAt(a, b, 0);
    } else if a[0] == b[0] && a[1] < b[1] {
      assert SmallerAt(a, b, 1);
    } else if a[0] == b[0] && a[1] == b[1] && a[2] < b[2] {
      assert SmallerAt(a, b, 2);
    } else if a[0] == b[0] && a[1] == b[1] && a[2] == b[2] && a[3] < b[3] {
      assert SmallerAt(a, b, 3);
    } else if a[0] == b[0] && a[1] == b[1] && a[2] == b[2] && a[3] == b[3] && a[4] < b[4] {
      assert SmallerAt(a, b, 4);
    }
  }

  // The first difference of the keys decides; two pre-releases of one version go by
  // their identifiers.
  lemma LessIff(a: Release, b: Release)
    ensures Less(a, b) <==> Below(a, b)
  {
    var x, y := Key(a), Key(b);
    FirstOfFive(x, y);
    assert x == y <==> x[0] == y[0] && x[1] == y[1] && x[2] == y[2] && x[3] == y[3] && x[4] == y[4];
    if IsCandidate(a) && IsCandidate(b) {
      PreLessIff(a.pre.value, b.pre.value);
    }
  }

  // Every SemVer release is above every calendar one.
  lemma SemVerIsAbove(calendar: Release, semantic: Release)
    requires calendar.CalVer? && semantic.SemVer?
    ensures Below(calendar, semantic) && Less(calendar, semantic) && !Less(semantic, calendar)
  {
    assert SmallerAt(Key(calendar), Key(semantic), 0);
    LessIff(calendar, semantic);
    ReleaseTotal(calendar, semantic);
  }

  // ---------- Previous and newest ----------

  // Whether the notes of `current` may start from `t`.
  ghost predicate MayPrecede(t: Release, current: Release) {
    Below(t, current) && (IsCandidate(t) ==> IsCandidate(current))
  }

  lemma PreviousMeaning(current: Release, tags: seq<Release>)
    ensures Previous(current, tags).None? <==> forall t | t in tags :: !MayPrecede(t, current)
    ensures var p := Previous(current, tags);
            p.Some? ==> p.value in tags && MayPrecede(p.value, current) &&
                        forall t | t in tags && MayPrecede(t, current) :: !Below(p.value, t)
  {
    forall t | t in tags
      ensures Eligible(t, current) <==> MayPrecede(t, current)
    {
      LessIff(t, current);
    }
    var p := Previous(current, tags);
    if p.Some? {
      forall t | t in tags && MayPrecede(t, current)
        ensures !Below(p.value, t)
      {
        LessIff(p.value, t);
      }
    }
  }

  lemma NewestIff(current: Release, tags: seq<Release>)
    ensures IsNewest(current, tags) <==>
              !IsCandidate(current) && forall t | t in tags && !IsCandidate(t) :: !Below(current, t)
  {
    forall t | t in tags
      ensures Less(current, t) <==> Below(current, t)
    {
      LessIff(current, t);
    }
  }

  // Once there is a final SemVer release, no calendar tag is the newest.
  lemma NoDateIsNewest(tags: seq<Release>, semantic: Release, calendar: Release)
    requires semantic in tags && semantic.SemVer? && semantic.pre.None? && calendar.CalVer?
    ensures !IsNewest(calendar, tags)
  {
    SemVerIsAbove(calendar, semantic);
    NewestIff(calendar, tags);
  }

  // The first final SemVer release follows the last calendar tag, if there is one.
  lemma BeforeFirstSemVer(current: Release, tags: seq<Release>)
    requires current.SemVer? && current.pre.None?
    requires forall t | t in tags && t.SemVer? && t.pre.None? :: !Below(t, current)
    ensures Previous(current, tags).None? <==> forall t | t in tags :: t.SemVer?
    ensures var p := Previous(current, tags);
            p.Some? ==> p.value in tags && p.value.CalVer? && forall t | t in tags && t.CalVer? :: !Below(p.value, t)
  {
    PreviousMeaning(current, tags);
    forall t | t in tags
      ensures MayPrecede(t, current) <==> t.CalVer?
    {
      OnlyDatesPrecede(t, current);
    }
  }

  lemma OnlyDatesPrecede(t: Release, current: Release)
    requires current.SemVer? && current.pre.None? && (t.SemVer? && t.pre.None? ==> !Below(t, current))
    ensures MayPrecede(t, current) <==> t.CalVer?
  {
    if t.CalVer? {
      SemVerIsAbove(t, current);
    }
  }

  // ---------- Dates ----------

  // The days of the calendar: 30 or 31 a month, and February's.
  lemma DateIff(year: nat, month: nat, day: nat)
    ensures IsDate(year, month, day) <==>
              && 1 <= year <= 9999 && day >= 1
              && ((month in {1, 3, 5, 7, 8, 10, 12} && day <= 31) || (month in {4, 6, 9, 11} && day <= 30)
                  || (month == 2 && day <= 28) || (month == 2 && day == 29 && LongYear(year)))
  {
  }

  // Every fourth year, but of the full centuries only every fourth.
  predicate LongYear(year: nat) { if year % 100 == 0 then year / 100 % 4 == 0 else year % 4 == 0 }

  // ---------- Names ----------

  // The last `k` digits.
  function Padded(n: nat, k: nat): (s: string)
    ensures |s| == k
  {
    if k == 0 then "" else Padded(n / 10, k - 1) + [Digit(n % 10)]
  }

  lemma {:induction false} PaddedReadsBack(n: nat, k: nat)
    requires n < Pow10(k)
    ensures AllDigits(Padded(n, k)) && Value(Padded(n, k)) == n
  {
    if k > 0 {
      PaddedReadsBack(n / 10, k - 1);
      SumSlices(Padded(n / 10, k - 1), [Digit(n % 10)]);
    }
  }

  function IdentText(id: Ident): string { if id.Num? then Decimal(id.n) else id.text }

  function IdentTexts(ids: seq<Ident>): (r: seq<string>)
    ensures |r| == |ids|
  {
    seq(|ids|, i requires 0 <= i < |ids| => IdentText(ids[i]))
  }

  // How a release is written in ASCII.
  function Name(r: Release): string {
    match r
    case CalVer(year, month, day, n) =>
      Padded(year, 4) + "." + Padded(month, 2) + "." + Padded(day, 2) + "-" + Decimal(n)
    case SemVer(major, minor, patch, pre) =>
      Decimal(major) + "." + Decimal(minor) + "." + Decimal(patch) +
      (if pre.Some? then "-" + Join(".", IdentTexts(pre.value)) else "")
  }

  predicate Writable(id: Ident) {
    id.Alpha? ==> (forall i | 0 <= i < |id.text| :: IdentChar(id.text[i])) && !AllDigits(id.text)
  }

  // What may be tagged: a date with an N from 1 on, or a version from 1.0.0 to 999.
  predicate IsRelease(r: Release) {
    match r
    case CalVer(year, month, day, n) => IsDate(year, month, day) && n > 0
    case SemVer(major, _, _, pre) =>
      1 <= major <= 999 && (pre.Some? ==> pre.value != [] && forall id | id in pre.value :: Writable(id))
  }

  function NameCut(r: Release): Cut {
    match r
    case CalVer(year, month, day, n) => Cut([Padded(year, 4), Padded(month, 2), Padded(day, 2)], Some(Decimal(n)))
    case SemVer(major, minor, patch, pre) =>
      Cut([Decimal(major), Decimal(minor), Decimal(patch)],
          if pre.Some? then Some(Join(".", IdentTexts(pre.value))) else None)
  }

  lemma NameIsRebuilt(r: Release)
    ensures Name(r) == Rebuilt(NameCut(r))
  {
    match r
    case CalVer(year, month, day, n) =>
      JoinThree(Padded(year, 4), Padded(month, 2), Padded(day, 2));
      SumAssoc(Join(".", NameCut(r).version), "-", Decimal(n));
    case SemVer(major, minor, patch, pre) =>
      JoinThree(Decimal(major), Decimal(minor), Decimal(patch));
  }

  lemma PartReadsBack(n: nat, k: nat)
    requires n < Pow10(k)
    ensures AllDigits(Padded(n, k)) && Value(Padded(n, k)) == n && Free(Padded(n, k), '.') && Free(Padded(n, k), '-')
  {
    PaddedReadsBack(n, k);
  }

  lemma DateFits(year: nat, month: nat, day: nat)
    requires IsDate(year, month, day)
    ensures year < Pow10(4) && month < Pow10(2) && day < Pow10(2)
  {
    assert Pow10(2) == 100;
    assert Pow10(4) == 10000;
  }

  lemma DateName(r: Release)
    requires r.CalVer? && IsRelease(r)
    ensures IsCalVer(NameCut(r)) && CalVerOf(NameCut(r)) == r
    ensures AllFree(NameCut(r).version, '.') && AllFree(NameCut(r).version, '-')
  {
    DateFits(r.year, r.month, r.day);
    PartReadsBack(r.year, 4);
    PartReadsBack(r.month, 2);
    PartReadsBack(r.day, 2);
    DecimalReadsBack(r.n);
  }

  lemma IdentReadsBack(id: Ident)
    requires Writable(id)
    ensures IsIdent(IdentText(id)) && ToIdent(IdentText(id)) == id && Free(IdentText(id), '.')
  {
    if id.Num? {
      PlainDecimal(id.n);
      NumeralIsFree(id.n);
    } else {
      assert forall i | 0 <= i < |id.text| :: id.text[i] != '.';
    }
  }

  lemma IdentsReadBack(ids: seq<Ident>)
    requires ids != [] && forall id | id in ids :: Writable(id)
    ensures var rest := Join(".", IdentTexts(ids));
            (forall p | p in Split(rest, '.') :: IsIdent(p)) && ToIdents(Split(rest, '.')) == ids
  {
    var texts := IdentTexts(ids);
    forall i | 0 <= i < |ids|
      ensures IsIdent(texts[i]) && ToIdent(texts[i]) == ids[i] && Free(texts[i], '.')
    {
      IdentReadsBack(ids[i]);
    }
    SplitOfJoin(texts, '.');
  }

  lemma VersionName(r: Release)
    requires r.SemVer? && IsRelease(r)
    ensures IsSemVer(NameCut(r)) && SemVerOf(NameCut(r)) == r
    ensures AllFree(NameCut(r).version, '.') && AllFree(NameCut(r).version, '-') && |NameCut(r).version[0]| < 4
  {
    PlainDecimal(r.major);
    PlainDecimal(r.minor);
    PlainDecimal(r.patch);
    NumeralIsFree(r.major);
    NumeralIsFree(r.minor);
    NumeralIsFree(r.patch);
    ThreeDigits(r.major);
    if r.pre.Some? {
      IdentsReadBack(r.pre.value);
    }
  }

  lemma ThreeDigits(n: nat)
    requires n <= 999
    ensures |Decimal(n)| < 4
  {
    assert Pow10(2) == 100;
    if n >= 10 {
      DecimalLength(n / 10, 2);
      assert |Decimal(n / 10 / 10)| == 1;
    }
  }

  lemma NameIsRead(r: Release)
    requires IsRelease(r)
    ensures Parse(Name(r)) == Some(r) && Ascii(Name(r))
  {
    var cut := NameCut(r);
    NameIsRebuilt(r);
    if r.CalVer? {
      DateName(r);
      CutOfRebuilt(cut);
      CalVerIsTag(cut);
    } else {
      VersionName(r);
      CutOfRebuilt(cut);
      SemVerIsTag(cut);
    }
    PartsAreAscii(cut);
  }

  lemma ReadIsRelease(name: string)
    requires Parse(name).Some?
    ensures IsRelease(Parse(name).value)
  {
    var r := Parse(name).value;
    NarrowName(name);
    if r.CalVer? {
      CalVerCounts(name);
    } else if r.pre.Some? {
      IdentsAreWritable(Split(NarrowCut(CutName(name)).rest.value, '.'));
    }
  }

  lemma IdentsAreWritable(parts: seq<string>)
    requires forall p | p in parts :: IsIdent(p)
    ensures forall id | id in ToIdents(parts) :: Writable(id)
  {
    forall i | 0 <= i < |parts|
      ensures Writable(ToIdents(parts)[i])
    {
      assert parts[i] in parts;
    }
  }

  // An ASCII name is a release tag exactly when it is how that release is written.
  lemma NameIff(name: string, r: Release)
    requires Ascii(name)
    ensures Parse(name) == Some(r) <==> IsRelease(r) && name == Name(r)
  {
    if Parse(name) == Some(r) {
      ReadIsRelease(name);
      NameIsRead(r);
      OneSpelling(name, Name(r));
    }
    if IsRelease(r) {
      NameIsRead(r);
    }
  }
}
