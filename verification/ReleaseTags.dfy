// Release tags: scripts/release_version.py, over the ordering of
// backend/app/core/versions.py. Its `\d` takes the decimal digits of every script.
module ReleaseTags {
  import opened Characters
  import opened Options
  import opened Sequences
  import opened Text
  import opened Numerals
  import opened Splitting
  import opened StringOrder

  // A pre-release identifier (sections 9 and 11 of SemVer 2.0.0).
  datatype Ident = Num(n: nat) | Alpha(text: string)

  datatype Release =
    | CalVer(year: nat, month: nat, day: nat, n: nat)
    | SemVer(major: nat, minor: nat, patch: nat, pre: Option<seq<Ident>>)

  // ---------- Parsing ----------

  predicate IdentChar(c: char) { IsDigit(c) || 'a' <= c <= 'z' || 'A' <= c <= 'Z' || c == '-' }

  predicate IsIdent(s: string) {
    s != "" && (forall i | 0 <= i < |s| :: IdentChar(s[i])) && (AllDigits(s) ==> Plain(s))
  }

  function ToIdent(s: string): Ident { if AllDigits(s) then Num(Value(s)) else Alpha(s) }

  function ToIdents(parts: seq<string>): (r: seq<Ident>)
    ensures |r| == |parts|
  {
    seq(|parts|, i requires 0 <= i < |parts| => ToIdent(parts[i]))
  }

  predicate IsLeap(year: nat) { year % 4 == 0 && (year % 100 != 0 || year % 400 == 0) }

  function DaysIn(year: nat, month: nat): nat {
    if month == 2 then (if IsLeap(year) then 29 else 28)
    else if month == 4 || month == 6 || month == 9 || month == 11 then 30
    else 31
  }

  // What `date` takes.
  predicate IsDate(year: nat, month: nat, day: nat) {
    1 <= year <= 9999 && 1 <= month <= 12 && 1 <= day <= DaysIn(year, month)
  }

  // A name, cut at its first hyphen.
  datatype Cut = Cut(version: seq<string>, rest: Option<string>)

  function CutName(name: string): Cut {
    var n := Find(name, '-');
    Cut(Split(name[..n], '.'), if n < |name| then Some(name[n + 1..]) else None)
  }

  // YYYY.MM.DD-N, in ASCII digits.
  predicate IsCalVer(cut: Cut) {
    && |cut.version| == 3 && AllDigits(cut.version[0]) && AllDigits(cut.version[1]) && AllDigits(cut.version[2])
    && |cut.version[0]| == 4 && |cut.version[1]| == 2 && |cut.version[2]| == 2
    && cut.rest.Some? && Numeral(cut.rest.value) && cut.rest.value[0] != '0'
  }

  // MAJOR.MINOR.PATCH[-PRERELEASE]: strict SemVer.
  predicate IsSemVer(cut: Cut) {
    && |cut.version| == 3 && Plain(cut.version[0]) && Plain(cut.version[1]) && Plain(cut.version[2])
    && (cut.rest.Some? ==> forall p | p in Split(cut.rest.value, '.') :: IsIdent(p))
  }

  // `[1-9]\d*`, and `_NUM`.
  predicate IsPositive(s: string) { s != "" && '1' <= s[0] <= '9' && AllDecimals(s) }

  predicate IsNumber(s: string) { s == "0" || IsPositive(s) }

  // `_CALVER_TAG`.
  predicate IsCalVerTag(cut: Cut) {
    && |cut.version| == 3 && AllDecimals(cut.version[0]) && AllDecimals(cut.version[1]) && AllDecimals(cut.version[2])
    && |cut.version[0]| == 4 && |cut.version[1]| == 2 && |cut.version[2]| == 2
    && cut.rest.Some? && IsPositive(cut.rest.value)
  }

  // `_SEMVER_TAG` and `_SEMVER_RE`, whose pre-releases are ASCII.
  predicate IsSemVerTag(cut: Cut) {
    && |cut.version| == 3 && IsNumber(cut.version[0]) && IsNumber(cut.version[1]) && IsNumber(cut.version[2])
    && (cut.rest.Some? ==> forall p | p in Split(cut.rest.value, '.') :: IsIdent(p))
  }

  // A cut with its digits in ASCII, which is what `int` reads them as.
  function NarrowCut(cut: Cut): Cut {
    Cut(NarrowParts(cut.version), if cut.rest.Some? then Some(Narrowed(cut.rest.value)) else None)
  }

  function NarrowParts(parts: seq<string>): (r: seq<string>)
    ensures |r| == |parts|
  {
    seq(|parts|, i requires 0 <= i < |parts| => Narrowed(parts[i]))
  }

  lemma PositiveIsPlain(s: string)
    requires IsPositive(s)
    ensures Plain(Narrowed(s)) && Narrowed(s)[0] == s[0] != '0'
  {
    NarrowedMeaning(s);
    NarrowMeaning(s[0]);
  }

  lemma NumberIsPlain(s: string)
    requires IsNumber(s)
    ensures Plain(Narrowed(s))
  {
    if s == "0" {
      NarrowedMeaning(s);
    } else {
      PositiveIsPlain(s);
    }
  }

  lemma CalVerTagIsCalVer(cut: Cut)
    requires IsCalVerTag(cut)
    ensures IsCalVer(NarrowCut(cut))
  {
    NarrowedMeaning(cut.version[0]);
    NarrowedMeaning(cut.version[1]);
    NarrowedMeaning(cut.version[2]);
    PositiveIsPlain(cut.rest.value);
  }

  lemma IdentsAreAscii(s: string)
    requires forall p | p in Split(s, '.') :: IsIdent(p)
    ensures Ascii(s)
  {
    JoinOfSplit(s, '.');
    JoinIsAscii(Split(s, '.'));
  }

  lemma {:induction false} JoinIsAscii(parts: seq<string>)
    requires forall p | p in parts :: Ascii(p)
    ensures Ascii(Join(".", parts))
  {
    if |parts| > 1 {
      JoinIsAscii(parts[1..]);
      assert parts[0] in parts;
    } else if |parts| == 1 {
      assert parts[0] in parts;
    }
  }

  lemma SemVerTagIsSemVer(cut: Cut)
    requires IsSemVerTag(cut)
    ensures IsSemVer(NarrowCut(cut)) && NarrowCut(cut).rest == cut.rest
  {
    NumberIsPlain(cut.version[0]);
    NumberIsPlain(cut.version[1]);
    NumberIsPlain(cut.version[2]);
    if cut.rest.Some? {
      IdentsAreAscii(cut.rest.value);
      NarrowedMeaning(cut.rest.value);
    }
  }

  const MAX_MAJOR := 999

  function CalVerOf(cut: Cut): (r: Release)
    requires IsCalVer(cut)
  {
    CalVer(Value(cut.version[0]), Value(cut.version[1]), Value(cut.version[2]), Value(cut.rest.value))
  }

  function SemVerOf(cut: Cut): (r: Release)
    requires IsSemVer(cut)
  {
    SemVer(Value(cut.version[0]), Value(cut.version[1]), Value(cut.version[2]),
           if cut.rest.Some? then Some(ToIdents(Split(cut.rest.value, '.'))) else None)
  }

  // `parse_tag`, of a name without outer spaces.
  function Parse(name: string): Option<Release> {
    var cut := CutName(name);
    if IsCalVerTag(cut) then
      CalVerTagIsCalVer(cut);
      var r := CalVerOf(NarrowCut(cut));
      if IsDate(r.year, r.month, r.day) then Some(r) else None
    else if IsSemVerTag(cut) then
      SemVerTagIsSemVer(cut);
      var r := SemVerOf(NarrowCut(cut));
      if 1 <= r.major <= MAX_MAJOR then Some(r) else None
    else None
  }

  function ParseTag(name: string): Option<Release> { Parse(Strip(name)) }

  function Tags(lines: seq<string>): seq<Release> {
    if lines == [] then []
    else (match ParseTag(lines[0]) case Some(r) => [r] case None => []) + Tags(lines[1..])
  }

  lemma {:induction false} TagsMeaning(lines: seq<string>, r: Release)
    ensures r in Tags(lines) <==> exists line | line in lines :: ParseTag(line) == Some(r)
  {
    if lines != [] {
      TagsMeaning(lines[1..], r);
      assert forall line :: line in lines <==> line == lines[0] || line in lines[1..];
    }
  }

  predicate IsPrerelease(r: Release) { r.SemVer? && r.pre.Some? }

  // ---------- Order ----------

  predicate IdentLess(a: Ident, b: Ident) {
    match (a, b)
    case (Num(m), Num(n)) => m < n
    case (Num(_), Alpha(_)) => true
    case (Alpha(_), Num(_)) => false
    case (Alpha(s), Alpha(t)) => StrLess(s, t)
  }

  predicate IdentsLess(a: seq<Ident>, b: seq<Ident>) {
    b != [] && (a == [] || IdentLess(a[0], b[0]) || (a[0] == b[0] && IdentsLess(a[1..], b[1..])))
  }

  predicate PreLess(a: Option<seq<Ident>>, b: Option<seq<Ident>>) {
    a.Some? && (b.None? || IdentsLess(a.value, b.value))
  }

  predicate Less(a: Release, b: Release) {
    match (a, b)
    case (CalVer(_, _, _, _), SemVer(_, _, _, _)) => true
    case (SemVer(_, _, _, _), CalVer(_, _, _, _)) => false
    case (CalVer(y, m, d, n), CalVer(y', m', d', n')) =>
      y < y' || (y == y' && (m < m' || (m == m' && (d < d' || (d == d' && n < n')))))
    case (SemVer(x, y, z, p), SemVer(x', y', z', p')) =>
      x < x' || (x == x' && (y < y' || (y == y' && (z < z' || (z == z' && PreLess(p, p'))))))
  }

  // Where two lists of identifiers first differ.
  ghost predicate DiffersAt(a: seq<Ident>, b: seq<Ident>, i: int) {
    0 <= i < |a| && i < |b| && a[..i] == b[..i] && IdentLess(a[i], b[i])
  }

  // Section 11 of SemVer 2.0.0: the first difference decides, and without one the
  // longer list is higher.
  lemma {:induction false} IdentsLessIff(a: seq<Ident>, b: seq<Ident>)
    ensures IdentsLess(a, b) <==> a < b || exists i :: DiffersAt(a, b, i)
  {
    if a != [] && b != [] {
      IdentTotal(a[0], a[0]);
      if a[0] == b[0] {
        IdentsLessIff(a[1..], b[1..]);
        PrefixTail(a, b);
        DifferenceTail(a, b);
      } else {
        DifferenceFirst(a, b);
      }
    }
  }

  lemma DifferenceFirst(a: seq<Ident>, b: seq<Ident>)
    requires a != [] && b != [] && a[0] != b[0]
    ensures (exists i :: DiffersAt(a, b, i)) <==> IdentLess(a[0], b[0])
  {
    if i :| DiffersAt(a, b, i) {
      SameFirst(a, b, i);
    }
    if IdentLess(a[0], b[0]) {
      assert DiffersAt(a, b, 0);
    }
  }

  lemma DifferenceTail(a: seq<Ident>, b: seq<Ident>)
    requires a != [] && b != [] && a[0] == b[0] && !IdentLess(a[0], b[0])
    ensures (exists i :: DiffersAt(a, b, i)) <==> exists i :: DiffersAt(a[1..], b[1..], i)
  {
    if i :| DiffersAt(a, b, i) {
      SameHead(a, b, i - 1);
      assert DiffersAt(a[1..], b[1..], i - 1);
    }
    if i :| DiffersAt(a[1..], b[1..], i) {
      SameHead(a, b, i);
      assert DiffersAt(a, b, i + 1);
    }
  }

  lemma IdentTotal(a: Ident, b: Ident)
    ensures !(IdentLess(a, b) && IdentLess(b, a)) && !IdentLess(a, a)
    ensures IdentLess(a, b) || a == b || IdentLess(b, a)
  {
    if a.Alpha? {
      StrTotal(a.text, a.text);
      if b.Alpha? {
        StrTotal(a.text, b.text);
      }
    }
  }

  lemma IdentTransitive(a: Ident, b: Ident, c: Ident)
    requires IdentLess(a, b) && IdentLess(b, c)
    ensures IdentLess(a, c)
  {
    if a.Alpha? {
      StrTransitive(a.text, b.text, c.text);
    }
  }

  lemma {:induction false} IdentsTotal(a: seq<Ident>, b: seq<Ident>)
    ensures !(IdentsLess(a, b) && IdentsLess(b, a)) && !IdentsLess(a, a)
    ensures IdentsLess(a, b) || a == b || IdentsLess(b, a)
  {
    if a != [] {
      IdentTotal(a[0], a[0]);
      IdentsTotal(a[1..], a[1..]);
    }
    if a != [] && b != [] {
      IdentTotal(a[0], b[0]);
      IdentsTotal(a[1..], b[1..]);
      SplitFirst(a);
      SplitFirst(b);
    }
  }

  lemma {:induction false} IdentsTransitive(a: seq<Ident>, b: seq<Ident>, c: seq<Ident>)
    requires IdentsLess(a, b) && IdentsLess(b, c)
    ensures IdentsLess(a, c)
  {
    if a != [] {
      if a[0] == b[0] && b[0] == c[0] {
        IdentTotal(a[0], a[0]);
        IdentsTransitive(a[1..], b[1..], c[1..]);
      } else if IdentLess(a[0], b[0]) && IdentLess(b[0], c[0]) {
        IdentTransitive(a[0], b[0], c[0]);
      }
    }
  }

  // Releases are totally ordered.
  lemma ReleaseTotal(a: Release, b: Release)
    ensures !(Less(a, b) && Less(b, a)) && !Less(a, a)
    ensures Less(a, b) || a == b || Less(b, a)
  {
    if a.SemVer? && a.pre.Some? {
      IdentsTotal(a.pre.value, a.pre.value);
      if b.SemVer? && b.pre.Some? {
        IdentsTotal(a.pre.value, b.pre.value);
      }
    }
  }

  lemma ReleaseTransitive(a: Release, b: Release, c: Release)
    requires Less(a, b) && Less(b, c)
    ensures Less(a, c)
  {
    if a.SemVer? && a.pre.Some? && b.pre.Some? && c.pre.Some? && PreLess(a.pre, b.pre) && PreLess(b.pre, c.pre) {
      IdentsTransitive(a.pre.value, b.pre.value, c.pre.value);
    }
  }

  // ---------- Previous and newest ----------

  predicate Eligible(t: Release, current: Release) {
    Less(t, current) && (IsPrerelease(current) || !IsPrerelease(t))
  }

  function Previous(current: Release, tags: seq<Release>): (r: Option<Release>)
    ensures r.None? <==> forall t | t in tags :: !Eligible(t, current)
    ensures r.Some? ==> r.value in tags && Eligible(r.value, current)
    ensures r.Some? ==> forall t | t in tags && Eligible(t, current) :: !Less(r.value, t)
  {
    if tags == [] then None
    else
      var (first, best) := (tags[0], Previous(current, tags[1..]));
      assert forall t :: t in tags <==> t == first || t in tags[1..];
      if !Eligible(first, current) then best
      else if best.None? || !Less(first, best.value) then
        (ReleaseTotal(first, first);
         FirstIsBest(first, best, tags[1..], current);
         Some(first))
      else
        (ReleaseTotal(first, best.value); best)
  }

  lemma FirstIsBest(first: Release, best: Option<Release>, rest: seq<Release>, current: Release)
    requires best.Some? ==> !Less(first, best.value)
    requires best.Some? ==> forall t | t in rest && Eligible(t, current) :: !Less(best.value, t)
    requires best.None? ==> forall t | t in rest :: !Eligible(t, current)
    ensures forall t | t in rest && Eligible(t, current) :: !Less(first, t)
  {
    forall t | t in rest && Eligible(t, current)
      ensures !Less(first, t)
    {
      ReleaseTotal(best.value, t);
      if Less(first, t) && Less(t, best.value) {
        ReleaseTransitive(first, t, best.value);
      }
    }
  }

  predicate IsNewest(current: Release, tags: seq<Release>) {
    !IsPrerelease(current) && forall t | t in tags && !IsPrerelease(t) :: !Less(current, t)
  }

  function OlderFinals(current: Release, tags: seq<Release>): set<Release> {
    set t | t in tags && !IsPrerelease(t) && Less(t, current)
  }

  lemma FewerOlder(current: Release, tags: seq<Release>)
    requires !IsPrerelease(current) && Previous(current, tags).Some?
    ensures var p := Previous(current, tags).value;
            !IsPrerelease(p) && p !in OlderFinals(p, tags) && OlderFinals(current, tags) == OlderFinals(p, tags) + {p}
  {
    var p := Previous(current, tags).value;
    ReleaseTotal(p, p);
    forall t
      ensures t in OlderFinals(current, tags) <==> t in OlderFinals(p, tags) || t == p
    {
      ReleaseTotal(p, t);
      if Less(t, p) {
        ReleaseTransitive(t, p, current);
      }
    }
  }

  // Following `previous` from a final release.
  function History(current: Release, tags: seq<Release>): seq<Release>
    requires !IsPrerelease(current)
    decreases |OlderFinals(current, tags)|
  {
    match Previous(current, tags)
    case None => []
    case Some(p) => FewerOlder(current, tags); [p] + History(p, tags)
  }

  ghost predicate Descending(rs: seq<Release>) { forall i, j | 0 <= i < j < |rs| :: Less(rs[j], rs[i]) }

  lemma DescendingMore(p: Release, rest: seq<Release>)
    requires Descending(rest) && forall t | t in rest :: Less(t, p)
    ensures Descending([p] + rest)
  {
    var all := [p] + rest;
    forall i, j | 0 <= i < j < |all|
      ensures Less(all[j], all[i])
    {
      assert all[j] == rest[j - 1] && all[j] in rest;
    }
  }

  // It visits exactly the older final releases, each once, newest first.
  lemma {:induction false} HistoryVisitsAll(current: Release, tags: seq<Release>)
    requires !IsPrerelease(current)
    ensures Descending(History(current, tags))
    ensures forall t :: t in History(current, tags) <==> t in OlderFinals(current, tags)
    decreases |OlderFinals(current, tags)|
  {
    if Previous(current, tags).Some? {
      var p := Previous(current, tags).value;
      FewerOlder(current, tags);
      HistoryVisitsAll(p, tags);
      DescendingMore(p, History(p, tags));
    } else {
      assert forall t | t in OlderFinals(current, tags) :: Eligible(t, current);
    }
  }

  // One release is the newest, when there is a final one.
  lemma {:induction false} OneNewest(tags: seq<Release>) returns (newest: Release)
    requires exists t | t in tags :: !IsPrerelease(t)
    ensures newest in tags && forall t | t in tags :: IsNewest(t, tags) <==> t == newest
  {
    newest :| newest in tags && !IsPrerelease(newest);
    newest := Climb(newest, tags);
    forall t | t in tags
      ensures IsNewest(t, tags) <==> t == newest
    {
      ReleaseTotal(t, newest);
    }
  }

  function NewerFinals(current: Release, tags: seq<Release>): set<Release> {
    set t | t in tags && !IsPrerelease(t) && Less(current, t)
  }

  lemma {:induction false} Climb(current: Release, tags: seq<Release>) returns (newest: Release)
    requires current in tags && !IsPrerelease(current)
    ensures newest in tags && IsNewest(newest, tags)
    decreases |NewerFinals(current, tags)|
  {
    if t :| t in tags && !IsPrerelease(t) && Less(current, t) {
      forall s | s in NewerFinals(t, tags)
        ensures s in NewerFinals(current, tags)
      {
        ReleaseTransitive(current, t, s);
      }
      ReleaseTotal(t, t);
      assert t in NewerFinals(current, tags) && t !in NewerFinals(t, tags);
      SubsetSize(NewerFinals(t, tags), NewerFinals(current, tags));
      newest := Climb(t, tags);
    } else {
      newest := current;
    }
  }

  // ---------- Charts ----------

  function Rebuilt(cut: Cut): string {
    Join(".", cut.version) + (if cut.rest.Some? then "-" + cut.rest.value else "")
  }

  lemma RebuiltIsName(name: string)
    ensures Rebuilt(CutName(name)) == name
  {
    var n := Find(name, '-');
    JoinOfSplit(name[..n], '.');
    if n < |name| {
      assert name == name[..n] + ("-" + name[n + 1..]);
    } else {
      TakeAll(name);
      SumOfEmpty(name);
    }
  }

  lemma {:induction false} FreeJoin(parts: seq<string>, c: char)
    requires c != '.' && AllFree(parts, c)
    ensures Free(Join(".", parts), c)
  {
    if |parts| > 1 {
      FreeJoin(parts[1..], c);
      FreeSum(parts[0], ".", c);
      FreeSum(parts[0] + ".", Join(".", parts[1..]), c);
    }
  }

  lemma FreeSum(a: string, b: string, c: char)
    requires Free(a, c) && Free(b, c)
    ensures Free(a + b, c)
  {
  }

  lemma CutOfRebuilt(cut: Cut)
    requires cut.version != [] && AllFree(cut.version, '.') && AllFree(cut.version, '-')
    ensures CutName(Rebuilt(cut)) == cut
  {
    var head := Join(".", cut.version);
    FreeJoin(cut.version, '-');
    SplitOfJoin(cut.version, '.');
    if cut.rest.Some? {
      FindIn(head, '-', cut.rest.value);
      SumAssoc(head, "-", cut.rest.value);
    } else {
      FindIn(head, '-', "");
      SumOfEmpty(head);
      TakeAll(head);
    }
  }

  lemma IdentsDiffer(a: string, b: string)
    requires IsIdent(a) && IsIdent(b) && ToIdent(a) == ToIdent(b)
    ensures a == b
  {
    if AllDigits(a) {
      PlainWritesBack(a);
      PlainWritesBack(b);
    }
  }

  lemma RestIsUnique(a: string, b: string)
    requires forall p | p in Split(a, '.') :: IsIdent(p)
    requires forall p | p in Split(b, '.') :: IsIdent(p)
    requires ToIdents(Split(a, '.')) == ToIdents(Split(b, '.'))
    ensures a == b
  {
    var x, y := Split(a, '.'), Split(b, '.');
    assert |x| == |ToIdents(x)| == |ToIdents(y)| == |y|;
    forall i | 0 <= i < |x|
      ensures x[i] == y[i]
    {
      assert ToIdents(x)[i] == ToIdents(y)[i];
      IdentsDiffer(x[i], y[i]);
    }
    assert x == y;
    JoinOfSplit(a, '.');
    JoinOfSplit(b, '.');
  }

  lemma PlainIsUnique(a: string, b: string)
    requires Plain(a) && Plain(b) && Value(a) == Value(b)
    ensures a == b
  {
    PlainWritesBack(a);
    PlainWritesBack(b);
  }

  lemma CalVerCutIsUnique(a: Cut, b: Cut)
    requires IsCalVer(a) && IsCalVer(b) && CalVerOf(a) == CalVerOf(b)
    ensures a == b
  {
    PaddedIsUnique(a.version[0], b.version[0]);
    PaddedIsUnique(a.version[1], b.version[1]);
    PaddedIsUnique(a.version[2], b.version[2]);
    PlainIsUnique(a.rest.value, b.rest.value);
    assert a.version == b.version;
  }

  lemma SemVerCutIsUnique(a: Cut, b: Cut)
    requires IsSemVer(a) && IsSemVer(b) && SemVerOf(a) == SemVerOf(b)
    ensures a == b
  {
    PlainIsUnique(a.version[0], b.version[0]);
    PlainIsUnique(a.version[1], b.version[1]);
    PlainIsUnique(a.version[2], b.version[2]);
    if a.rest.Some? {
      RestIsUnique(a.rest.value, b.rest.value);
    }
    assert a.version == b.version;
  }

  // ---------- Spellings ----------

  lemma {:induction false} FindNarrowed(s: string, c: char)
    requires c as int < 0x80 && !IsDigit(c)
    ensures Find(Narrowed(s), c) == Find(s, c)
  {
    if s != "" {
      NarrowMeaning(s[0]);
      NarrowedSlices(s, 1);
      FindNarrowed(s[1..], c);
    }
  }

  lemma NarrowedSlices(s: string, i: nat)
    requires i <= |s|
    ensures Narrowed(s)[i..] == Narrowed(s[i..]) && Narrowed(s)[..i] == Narrowed(s[..i])
  {
  }

  lemma SplitOnce(s: string, c: char, head: string, tail: string)
    requires Find(s, c) == |head| < |s| && head == s[..|head|] && tail == s[|head| + 1..]
    ensures Split(s, c) == [head] + Split(tail, c)
  {
  }

  lemma NarrowedFirst(part: string, rest: seq<string>)
    ensures NarrowParts([part] + rest) == [Narrowed(part)] + NarrowParts(rest)
  {
  }

  lemma NarrowedAlone(part: string)
    ensures NarrowParts([part]) == [Narrowed(part)]
  {
  }

  lemma {:induction false} SplitNarrowed(s: string, c: char)
    requires c as int < 0x80 && !IsDigit(c)
    ensures Split(Narrowed(s), c) == NarrowParts(Split(s, c))
    decreases |s|
  {
    var n := Find(s, c);
    FindNarrowed(s, c);
    if n < |s| {
      NarrowedSlices(s, n);
      NarrowedSlices(s, n + 1);
      SplitNarrowed(s[n + 1..], c);
      SplitBoth(s, Narrowed(s), c, s[..n], s[n + 1..]);
    } else {
      NarrowedAlone(s);
      SplitNone(Narrowed(s), c);
      SplitNone(s, c);
    }
  }

  lemma SplitNone(s: string, c: char)
    requires Find(s, c) == |s|
    ensures Split(s, c) == [s]
  {
  }

  lemma SplitBoth(s: string, narrow: string, c: char, head: string, tail: string)
    requires Find(s, c) == |head| < |s| && head == s[..|head|] && tail == s[|head| + 1..]
    requires Find(narrow, c) == |head| < |narrow|
    requires Narrowed(head) == narrow[..|head|] && Narrowed(tail) == narrow[|head| + 1..]
    requires Split(Narrowed(tail), c) == NarrowParts(Split(tail, c))
    ensures Split(narrow, c) == NarrowParts(Split(s, c))
  {
    SplitOnce(s, c, head, tail);
    SplitOnce(narrow, c, Narrowed(head), Narrowed(tail));
    NarrowedFirst(head, Split(tail, c));
  }

  lemma CutIs(name: string, version: string, rest: Option<string>)
    requires Find(name, '-') == |version| && version <= name
    requires rest == if |version| < |name| then Some(name[|version| + 1..]) else None
    ensures CutName(name) == Cut(Split(version, '.'), rest)
  {
    assert name[..|version|] == version;
  }

  // Narrowing a name narrows its parts.
  lemma CutNarrowed(name: string)
    ensures CutName(Narrowed(name)) == NarrowCut(CutName(name))
  {
    var n := Find(name, '-');
    var version := name[..n];
    FindNarrowed(name, '-');
    NarrowedSlices(name, n);
    SplitNarrowed(version, '.');
    if n < |name| {
      NarrowedSlices(name, n + 1);
    }
    CutIs(name, version, if n < |name| then Some(name[n + 1..]) else None);
    CutIs(Narrowed(name), Narrowed(version), if n < |name| then Some(Narrowed(name[n + 1..])) else None);
  }

  lemma PartsAreAscii(cut: Cut)
    requires IsCalVer(cut) || IsSemVer(cut)
    ensures Ascii(Rebuilt(cut))
  {
    forall p | p in cut.version
      ensures Ascii(p)
    {
      assert AllDigits(p);
    }
    JoinIsAscii(cut.version);
    if IsSemVer(cut) && cut.rest.Some? {
      IdentsAreAscii(cut.rest.value);
    }
  }

  // What an accepted name is in ASCII.
  lemma NarrowName(name: string)
    requires Parse(name).Some?
    ensures Ascii(Narrowed(name)) && CutName(Narrowed(name)) == NarrowCut(CutName(name))
    ensures Parse(name).value.CalVer? ==>
              IsCalVer(NarrowCut(CutName(name))) && CalVerOf(NarrowCut(CutName(name))) == Parse(name).value
    ensures Parse(name).value.SemVer? ==>
              IsSemVer(NarrowCut(CutName(name))) && SemVerOf(NarrowCut(CutName(name))) == Parse(name).value
  {
    CutNarrowed(name);
    if IsCalVerTag(CutName(name)) {
      CalVerTagIsCalVer(CutName(name));
    } else {
      SemVerTagIsSemVer(CutName(name));
    }
    PartsAreAscii(CutName(Narrowed(name)));
    RebuiltIsName(Narrowed(name));
  }

  lemma CalVerIsTag(cut: Cut)
    requires IsCalVer(cut)
    ensures IsCalVerTag(cut) && NarrowCut(cut) == cut
  {
    DigitsAreDecimals(cut.version[0]);
    DigitsAreDecimals(cut.version[1]);
    DigitsAreDecimals(cut.version[2]);
    DigitsAreDecimals(cut.rest.value);
    assert NarrowParts(cut.version) == cut.version;
  }

  lemma DigitsAreDecimals(s: string)
    requires AllDigits(s)
    ensures AllDecimals(s) && Narrowed(s) == s
  {
    NarrowedMeaning(s);
  }

  lemma PlainIsNumber(s: string)
    requires Plain(s)
    ensures IsNumber(s) && Narrowed(s) == s
  {
    DigitsAreDecimals(s);
    if s[0] == '0' {
      assert s == "0";
    }
  }

  lemma SemVerIsTag(cut: Cut)
    requires IsSemVer(cut)
    ensures IsSemVerTag(cut) && NarrowCut(cut) == cut
  {
    PlainIsNumber(cut.version[0]);
    PlainIsNumber(cut.version[1]);
    PlainIsNumber(cut.version[2]);
    SemVerTagIsSemVer(cut);
    assert NarrowParts(cut.version) == cut.version;
  }

  lemma NarrowedBack(s: string)
    requires AllDecimals(Narrowed(s))
    ensures AllDecimals(s)
  {
    forall i | 0 <= i < |s|
      ensures IsDecimal(s[i])
    {
      NarrowMeaning(s[i]);
      assert IsDecimal(Narrowed(s)[i]);
    }
  }

  // Narrowing makes no date of a SemVer tag.
  lemma SemVerStays(cut: Cut)
    requires IsSemVerTag(cut) && IsCalVerTag(NarrowCut(cut))
    ensures IsCalVerTag(cut)
  {
    SemVerTagIsSemVer(cut);
    var narrow := NarrowParts(cut.version);
    assert narrow == NarrowCut(cut).version;
    NarrowedBack(cut.version[0]);
    NarrowedBack(cut.version[1]);
    NarrowedBack(cut.version[2]);
  }

  // Every accepted name has one spelling in ASCII digits, and all its spellings are
  // that one up to their digits' script.
  lemma OneSpelling(a: string, b: string)
    requires Parse(a).Some? && Parse(a) == Parse(b)
    ensures Narrowed(a) == Narrowed(b)
    ensures Ascii(a) && Ascii(b) ==> a == b
  {
    NarrowName(a);
    NarrowName(b);
    if Parse(a).value.CalVer? {
      CalVerCutIsUnique(NarrowCut(CutName(a)), NarrowCut(CutName(b)));
    } else {
      SemVerCutIsUnique(NarrowCut(CutName(a)), NarrowCut(CutName(b)));
    }
    RebuiltIsName(Narrowed(a));
    RebuiltIsName(Narrowed(b));
    NarrowedMeaning(a);
    NarrowedMeaning(b);
  }

  lemma AsciiSpelling(name: string)
    requires Parse(name).Some?
    ensures Ascii(Narrowed(name)) && Parse(Narrowed(name)) == Parse(name)
  {
    NarrowName(name);
    var cut := NarrowCut(CutName(name));
    if Parse(name).value.CalVer? {
      CalVerIsTag(cut);
    } else {
      SemVerIsTag(cut);
      if IsCalVerTag(cut) {
        SemVerStays(CutName(name));
      }
    }
  }

  // The chart's parts: a date loses its zeros.
  function ChartCut(r: Release): Cut
    requires r.CalVer?
  {
    Cut([Decimal(r.year), Decimal(r.month), Decimal(r.day)], Some(Decimal(r.n)))
  }

  // `chart_version`, of an accepted name.
  function Chart(name: string): string {
    if !IsCalVerTag(CutName(name)) then name
    else
      CalVerTagIsCalVer(CutName(name));
      var r := CalVerOf(NarrowCut(CutName(name)));
      Decimal(r.year) + "." + Decimal(r.month) + "." + Decimal(r.day) + "-" + Decimal(r.n)
  }

  lemma JoinThree(a: string, b: string, c: string)
    ensures Join(".", [a, b, c]) == a + "." + b + "." + c
  {
    assert [a, b, c][1..] == [b, c] && [b, c][1..] == [c];
    assert Join(".", [b, c]) == b + "." + c;
    SumAssoc(a + ".", b + ".", c);
    SumAssoc(a + ".", b, ".");
  }

  lemma NumeralIsFree(n: nat)
    ensures Free(Decimal(n), '.') && Free(Decimal(n), '-')
  {
    DecimalReadsBack(n);
    assert forall i | 0 <= i < |Decimal(n)| :: IsDigit(Decimal(n)[i]);
  }

  lemma ChartCutMeaning(name: string)
    requires Parse(name).Some? && Parse(name).value.CalVer?
    ensures CutName(Chart(name)) == ChartCut(Parse(name).value)
  {
    var r := Parse(name).value;
    var chart := ChartCut(r);
    NumeralIsFree(r.year);
    NumeralIsFree(r.month);
    NumeralIsFree(r.day);
    CutOfRebuilt(chart);
    JoinThree(Decimal(r.year), Decimal(r.month), Decimal(r.day));
    SumAssoc(Join(".", chart.version), "-", Decimal(r.n));
  }

  // What a chart repository reads: SemVer 2.0.0, with no limit on the major.
  function ChartRelease(chart: string): Option<Release> {
    if IsSemVer(CutName(chart)) then Some(SemVerOf(CutName(chart))) else None
  }

  lemma PlainDecimal(n: nat)
    ensures Plain(Decimal(n)) && Value(Decimal(n)) == n
  {
    DecimalReadsBack(n);
  }

  function ChartOf(r: Release): Release
    requires r.CalVer?
  {
    SemVer(r.year, r.month, r.day, Some([Num(r.n)]))
  }

  lemma NumberIdents(n: nat)
    ensures (forall p | p in Split(Decimal(n), '.') :: IsIdent(p)) && ToIdents(Split(Decimal(n), '.')) == [Num(n)]
  {
    PlainDecimal(n);
    NumeralIsFree(n);
    FindIn(Decimal(n), '.', "");
    assert Split(Decimal(n), '.') == [Decimal(n)];
    assert forall i | 0 <= i < |Decimal(n)| :: IdentChar(Decimal(n)[i]);
    assert IsIdent(Decimal(n));
    assert ToIdents([Decimal(n)]) == [Num(n)];
  }

  lemma ChartCutRelease(r: Release)
    requires r.CalVer? && r.n > 0
    ensures IsSemVer(ChartCut(r)) && SemVerOf(ChartCut(r)) == ChartOf(r)
  {
    PlainDecimal(r.year);
    PlainDecimal(r.month);
    PlainDecimal(r.day);
    NumberIdents(r.n);
  }

  lemma CalVerCounts(name: string)
    requires Parse(name).Some? && Parse(name).value.CalVer?
    ensures Parse(name).value.n > 0
  {
    NarrowName(name);
    PlainWritesBack(NarrowCut(CutName(name)).rest.value);
  }

  // A calendar chart is a pre-release of that date.
  lemma CalVerChart(name: string)
    requires Parse(name).Some? && Parse(name).value.CalVer?
    ensures ChartRelease(Chart(name)) == Some(ChartOf(Parse(name).value))
  {
    CalVerCounts(name);
    ChartCutMeaning(name);
    ChartCutRelease(Parse(name).value);
  }

  // An accepted tag makes a chart version of strict SemVer exactly when it is a date or
  // its digits are ASCII.
  lemma ChartIsSemVerIff(name: string)
    requires Parse(name).Some?
    ensures ChartRelease(Chart(name)).Some? <==> Parse(name).value.CalVer? || Ascii(name)
    ensures Parse(name).value.SemVer? && Ascii(name) ==> ChartRelease(Chart(name)) == Parse(name)
  {
    if Parse(name).value.CalVer? {
      CalVerChart(name);
    } else {
      NarrowName(name);
      AsciiCut(name);
      SemVerIsAscii(name);
      SemVerChart(name, CutName(name));
    }
  }

  lemma AsciiCut(name: string)
    ensures Ascii(name) ==> NarrowCut(CutName(name)) == CutName(name)
  {
    NarrowedMeaning(name);
    CutNarrowed(name);
  }

  // A SemVer tag is published unchanged.
  lemma SemVerChart(name: string, cut: Cut)
    requires Parse(name).Some? && Parse(name).value.SemVer? && cut == CutName(name)
    ensures Chart(name) == name
    ensures ChartRelease(Chart(name)) == if IsSemVer(cut) then Some(SemVerOf(cut)) else None
  {
  }

  lemma SemVerIsAscii(name: string)
    ensures IsSemVer(CutName(name)) ==> Ascii(name)
  {
    if IsSemVer(CutName(name)) {
      PartsAreAscii(CutName(name));
      RebuiltIsName(name);
    }
  }

  lemma ChartOrder(a: Release, b: Release)
    requires a.CalVer? && b.CalVer?
    ensures Less(ChartOf(a), ChartOf(b)) <==> Less(a, b)
  {
    var x, y := [Num(a.n)], [Num(b.n)];
    assert x[1..] == [] && y[1..] == [];
    assert IdentsLess(x, y) <==> a.n < b.n;
  }

  // Calendar charts are ordered as their tags are.
  lemma CalVerChartsInOrder(a: string, b: string, x: Release, y: Release)
    requires Parse(a) == Some(x) && x.CalVer? && Parse(b) == Some(y) && y.CalVer?
    ensures ChartRelease(Chart(a)).Some? && ChartRelease(Chart(b)).Some?
    ensures Less(ChartRelease(Chart(a)).value, ChartRelease(Chart(b)).value) <==> Less(x, y)
  {
    CalVerChart(a);
    CalVerChart(b);
    ChartOrder(x, y);
  }

  predicate YearFrom(r: Release, year: nat) { r.CalVer? ==> r.year >= year }

  // Of the tags with years from `year` on, or of those in ASCII, no two share a chart.
  ghost predicate OneTagPerChart(year: nat, ascii: bool) {
    forall a, b | Published(a, year, ascii) && Published(b, year, ascii) :: Chart(a) == Chart(b) ==> a == b
  }

  predicate Published(name: string, year: nat, ascii: bool) {
    Parse(name).Some? && YearFrom(Parse(name).value, year) && (ascii ==> Ascii(name))
  }

  // From the year 1000 on a chart version stands for one release.
  lemma ChartsDiffer(a: string, b: string)
    requires Parse(a).Some? && Parse(b).Some? && Chart(a) == Chart(b)
    requires YearFrom(Parse(a).value, 1000) && YearFrom(Parse(b).value, 1000)
    ensures a == b || (Parse(a) == Parse(b) && Parse(a).value.CalVer?)
  {
    ChartIsSemVerIff(a);
    ChartIsSemVerIff(b);
    if Parse(a).value.CalVer? {
      CalVerChart(a);
    }
    if Parse(b).value.CalVer? {
      CalVerChart(b);
    }
  }

  lemma ChartsTellApart(a: string, b: string, year: nat, ascii: bool)
    requires year >= 1000 && (ascii || year > 9999)
    requires Published(a, year, ascii) && Published(b, year, ascii) && Chart(a) == Chart(b)
    ensures a == b
  {
    ChartsDiffer(a, b);
    if Parse(a) == Parse(b) {
      OneSpelling(a, b);
    }
  }

  // Two tags share a chart version where a date's year has leading zeros, and where one
  // has digits outside ASCII; nowhere else.
  lemma OneTagPerChartIff(year: nat, ascii: bool)
    ensures OneTagPerChart(year, ascii) <==> year >= 1000 && (ascii || year > 9999)
  {
    if year >= 1000 && (ascii || year > 9999) {
      forall a, b | Published(a, year, ascii) && Published(b, year, ascii)
        ensures Chart(a) == Chart(b) ==> a == b
      {
        if Chart(a) == Chart(b) {
          ChartsTellApart(a, b, year, ascii);
        }
      }
    } else if year < 1000 {
      var a, b := SharedChart();
      assert Published(a, year, ascii) && Published(b, year, ascii);
    } else {
      var a := DateTag(9999);
      var b := FullWidthYear(a);
      assert Published(a, year, ascii) && Published(b, year, ascii);
    }
  }

  // A date in October of any year.
  function DateCut(year: string): Cut { Cut([year, Decimal(10), Decimal(10)], Some(Decimal(1))) }

  lemma DateName(year: string) returns (name: string)
    requires AllDigits(year) && |year| == 4 && 1 <= Value(year) <= 9999
    ensures Parse(name) == Some(CalVer(Value(year), 10, 10, 1)) && Ascii(name) && CutName(name) == DateCut(year)
  {
    var cut := DateCut(year);
    name := Rebuilt(cut);
    PlainDecimal(10);
    PlainDecimal(1);
    NumeralIsFree(10);
    assert Free(year, '.') && Free(year, '-');
    CutOfRebuilt(cut);
    assert |Decimal(10)| == 2;
    assert IsCalVer(cut) && CalVerOf(cut) == CalVer(Value(year), 10, 10, 1);
    CalVerIsTag(cut);
    PartsAreAscii(cut);
  }

  lemma DateTag(year: nat) returns (name: string)
    requires 1000 <= year <= 9999
    ensures Parse(name) == Some(CalVer(year, 10, 10, 1)) && Ascii(name)
  {
    DecimalReadsBack(year);
    FourDigits(year);
    name := DateName(Decimal(year));
  }

  lemma FourDigits(year: nat)
    requires 1000 <= year <= 9999
    ensures |Decimal(year)| == 4
  {
    assert |Decimal(year / 1000)| == 1;
    assert |Decimal(year / 10 / 10)| == 2;
    assert |Decimal(year / 10)| == 3;
  }

  // 0999.10.10-1 and 999.10.10-1.
  lemma SharedChart() returns (a: string, b: string)
    ensures Parse(a) == Some(CalVer(999, 10, 10, 1)) && Parse(b) == Some(SemVer(999, 10, 10, Some([Num(1)])))
    ensures Ascii(a) && Ascii(b) && Chart(a) == Chart(b)
  {
    PlainDecimal(999);
    LeadingZero(Decimal(999));
    a := DateName("0" + Decimal(999));
    b := Chart(a);
    CalVerChart(a);
    ChartCutMeaning(a);
    CalVerCounts(a);
    ChartCutRelease(Parse(a).value);
    var cut := CutName(b);
    assert |Decimal(999)| == 3;
    SemVerIsTag(cut);
    PartsAreAscii(cut);
    RebuiltIsName(b);
  }

  function FullWidth(c: char): char
    requires IsDigit(c)
  {
    (c as int - '0' as int + 0xFF10) as char
  }

  // Any calendar tag with the first digit of its year typed full width is accepted as
  // the same release, and published as the same chart.
  lemma FullWidthYear(name: string) returns (wide: string)
    requires Parse(name).Some? && Parse(name).value.CalVer? && Ascii(name)
    ensures wide != name && Parse(wide) == Parse(name) && Chart(wide) == Chart(name)
  {
    NarrowName(name);
    NarrowedMeaning(name);
    FirstOfYear(name);
    wide := name[0 := FullWidth(name[0])];
    FullWidthNarrows(name, wide);
    CutNarrowed(wide);
    SameRest(name, wide);
    WideIsTag(CutName(wide), CutName(name));
  }

  lemma FullWidthNarrows(name: string, wide: string)
    requires Ascii(name) && name != "" && IsDigit(name[0]) && wide == name[0 := FullWidth(name[0])]
    ensures Narrowed(wide) == name && wide[1..] == name[1..] && wide[0] != '-' && wide != name
  {
    NarrowedMeaning(name);
    FullWidthDecimal(wide[0]);
    forall i | 0 <= i < |name|
      ensures Narrowed(wide)[i] == name[i]
    {
      assert i > 0 ==> wide[i] == name[i] == Narrowed(name)[i];
    }
  }

  lemma FirstOfYear(name: string)
    requires Parse(name).Some? && Parse(name).value.CalVer? && Ascii(name)
    ensures name != "" && IsDigit(name[0])
  {
    NarrowName(name);
    NarrowedMeaning(name);
    var cut := CutName(name);
    RebuiltIsName(name);
    JoinOfSplit(name[..Find(name, '-')], '.');
    assert Rebuilt(cut)[0] == cut.version[0][0];
  }

  lemma SameRest(name: string, wide: string)
    requires |wide| == |name| > 0 && wide[1..] == name[1..] && wide[0] != '-' && name[0] != '-'
    ensures CutName(wide).rest == CutName(name).rest
  {
    var n := Find(name[1..], '-');
    assert Find(wide, '-') == 1 + n == Find(name, '-');
    if n < |name| - 1 {
      DropMore(wide, n + 1);
      DropMore(name, n + 1);
    }
  }

  lemma DropMore<T>(s: seq<T>, n: nat)
    requires 0 < n < |s|
    ensures s[n + 1..] == s[1..][n..]
  {
  }

  lemma WideIsTag(wide: Cut, narrow: Cut)
    requires IsCalVer(narrow) && NarrowCut(wide) == narrow && wide.rest == narrow.rest
    ensures IsCalVerTag(wide)
  {
    assert NarrowParts(wide.version) == narrow.version;
    NarrowedMeaning(wide.version[0]);
    NarrowedMeaning(wide.version[1]);
    NarrowedMeaning(wide.version[2]);
    DigitsAreDecimals(narrow.rest.value);
  }

  lemma WideDigit(c: char)
    requires IsDigit(c)
    ensures var w := FullWidth(c); IsDecimal(w) && Narrow(w) == c && !IsDigit(w) && w != '.' && w != '-'
  {
    FullWidthDecimal(FullWidth(c));
  }

  lemma NarrowedTwo(a: char, b: char)
    ensures Narrowed([a, b]) == [Narrow(a), Narrow(b)]
  {
  }

  lemma FullWidthThree() returns (minor: string)
    ensures IsNumber(minor) && Narrowed(minor) == "13" && !Plain(minor) && Free(minor, '.') && Free(minor, '-')
  {
    WideDigit('3');
    NarrowDigit('1');
    minor := ['1', FullWidth('3')];
    NarrowedTwo(minor[0], minor[1]);
    assert !IsDigit(minor[1]);
  }

  // 1.1x.0 with a full-width 3 for x is accepted as 1.13.0, and published as no SemVer.
  lemma FullWidthMinor() returns (name: string)
    ensures Parse(name) == Some(SemVer(1, 13, 0, None)) && ChartRelease(Chart(name)).None?
  {
    var minor := FullWidthThree();
    var cut := Cut(["1", minor, "0"], None);
    name := Rebuilt(cut);
    SmallValues();
    PlainIsNumber("1");
    PlainIsNumber("0");
    CutOfRebuilt(cut);
    ThreeParts("1", minor, "0");
    SemVerTagIsSemVer(cut);
    assert !IsCalVerTag(cut);
  }

  lemma ThreeParts(a: string, b: string, c: string)
    ensures NarrowParts([a, b, c]) == [Narrowed(a), Narrowed(b), Narrowed(c)]
  {
  }

  lemma SmallValues()
    ensures Plain("1") && Plain("13") && Plain("0") && Value("1") == 1 && Value("13") == 13 && Value("0") == 0
  {
    assert "1"[..0] == "" && "0"[..0] == "" && "13"[..1] == "1";
  }

  lemma {:induction false} LeadingZero(s: string)
    requires AllDigits(s)
    ensures AllDigits("0" + s) && Value("0" + s) == Value(s)
  {
    var t := "0" + s;
    if s != "" {
      assert t[..|t| - 1] == "0" + s[..|s| - 1];
      LeadingZero(s[..|s| - 1]);
    } else {
      assert t == "0" && t[..0] == "";
    }
  }

  // ---------- The changelog section of a release ----------

  predicate IsHeading(line: string, version: string) {
    line == "## " + version || "## " + version + " " <= line
  }

  // The lines under the first heading of that version, up to the next heading.
  ghost predicate IsSection(lines: seq<string>, version: string, body: seq<string>) {
    || (body == [] && forall i | 0 <= i < |lines| :: !IsHeading(lines[i], version))
    || (exists h, e | 0 <= h < e <= |lines| :: SectionAt(lines, version, h, e) && body == lines[h + 1..e])
  }

  ghost predicate SectionAt(lines: seq<string>, version: string, h: nat, e: nat)
    requires h < e <= |lines|
  {
    && IsHeading(lines[h], version) && (forall i | 0 <= i < h :: !IsHeading(lines[i], version))
    && (forall i | h < i < e :: !("## " <= lines[i])) && (e < |lines| ==> "## " <= lines[e])
  }

  method ChangelogSection(version: string, lines: seq<string>) returns (out: seq<string>)
    ensures IsSection(lines, version, out)
  {
    out := [];
    var found := false;
    ghost var h: nat := 0;
    for i := 0 to |lines|
      invariant !found ==> out == [] && forall j | 0 <= j < i :: !IsHeading(lines[j], version)
      invariant found ==> h < i && out == lines[h + 1..i] && IsHeading(lines[h], version)
      invariant found ==> forall j | 0 <= j < h :: !IsHeading(lines[j], version)
      invariant found ==> forall j | h < j < i :: !("## " <= lines[j])
    {
      if found {
        if "## " <= lines[i] {
          assert SectionAt(lines, version, h, i);
          return;
        }
        out := out + [lines[i]];
      } else if IsHeading(lines[i], version) {
        found := true;
        h := i;
      }
    }
    if found {
      assert SectionAt(lines, version, h, |lines|);
    }
  }

  // The heading of a version is its own: that of a longer version with the same start
  // is none of it.
  lemma OtherVersionIsNoHeading(version: string, longer: string, rest: string)
    requires version < longer && ' ' !in longer
    ensures !IsHeading("## " + longer, version)
    ensures IsHeading("## " + version, version) && IsHeading("## " + version + (" " + rest), version)
  {
    var line := "## " + longer;
    assert line[3 + |version|] == longer[|version|] != ' ';
    assert ("## " + version + " ")[3 + |version|] == ' ';
    SumAssoc("## " + version, " ", rest);
  }
}
