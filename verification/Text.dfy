// Characters and lines, as the scripts' string methods and patterns see them.
module Text {
  import opened Characters
  import opened Sequences

  // `str.isspace`, which is also what `\s` matches.
  predicate IsSpace(c: char) {
    var n := c as int;
    || 9 <= n <= 13 || 28 <= n <= 32 || n == 0x85 || n == 0xA0 || n == 0x1680
    || 0x2000 <= n <= 0x200A || n == 0x2028 || n == 0x2029 || n == 0x202F || n == 0x205F || n == 0x3000
  }

  predicate IsDigit(c: char) { '0' <= c <= '9' }

  predicate Ascii(s: string) { forall i | 0 <= i < |s| :: s[i] as int < 0x80 }

  // `\w`; from U+00AA on, every visible character that is no known symbol.
  predicate IsWord(c: char) {
    || IsDigit(c) || 'a' <= c <= 'z' || 'A' <= c <= 'Z' || c == '_'
    || (c as int >= 0xAA && !IsSpace(c) && !IsSymbol(c as int, 0))
  }

  lemma DecimalIsNoSpace(c: char)
    requires IsDecimal(c)
    ensures !IsSpace(c) && (IsDigit(c) || c as int >= 0x660)
  {
    DecimalIsHigh(c);
  }

  function LStrip(s: string): string {
    if s == "" then "" else if IsSpace(s[0]) then LStrip(s[1..]) else s
  }

  function RStrip(s: string): string {
    if s == "" then "" else if IsSpace(s[|s| - 1]) then RStrip(s[..|s| - 1]) else s
  }

  function Strip(s: string): string { RStrip(LStrip(s)) }

  predicate Blank(s: string) { forall i | 0 <= i < |s| :: IsSpace(s[i]) }

  // Neither end is a space.
  predicate Tight(s: string) { s != "" ==> !IsSpace(s[0]) && !IsSpace(s[|s| - 1]) }

  lemma {:induction false} LStripMeaning(s: string)
    ensures LStrip(s) != "" ==> !IsSpace(LStrip(s)[0])
    ensures LStrip(s) == "" <==> Blank(s)
    ensures LStrip(s) != "" ==> LStrip(s)[|LStrip(s)| - 1] == s[|s| - 1]
    ensures |LStrip(s)| <= |s|
  {
    if s != "" && IsSpace(s[0]) {
      LStripMeaning(s[1..]);
      if Blank(s[1..]) {
        assert forall i | 1 <= i < |s| :: s[i] == s[1..][i - 1];
      }
    }
  }

  lemma {:induction false} RStripMeaning(s: string)
    ensures RStrip(s) != "" ==> !IsSpace(RStrip(s)[|RStrip(s)| - 1])
    ensures RStrip(s) == "" <==> Blank(s)
    ensures RStrip(s) <= s
    ensures RStrip(s) != "" ==> RStrip(s)[0] == s[0]
  {
    if s != "" && IsSpace(s[|s| - 1]) {
      RStripMeaning(s[..|s| - 1]);
    }
  }

  lemma RStripTwice(s: string)
    ensures RStrip(RStrip(s)) == RStrip(s)
  {
    RStripMeaning(s);
  }

  lemma StripMeaning(s: string)
    ensures Tight(Strip(s))
    ensures Strip(s) == "" <==> Blank(s)
    ensures Tight(s) ==> Strip(s) == s
    ensures s != "" && !IsSpace(s[0]) ==> Strip(s) == RStrip(s)
  {
    LStripMeaning(s);
    RStripMeaning(LStrip(s));
  }

  lemma TightSum(a: string, b: string)
    requires a != "" && Tight(a) && b != "" && Tight(b)
    ensures Tight(a + b) && Tight(a + (" " + b))
  {
  }

  lemma LStripSpaced(s: string)
    ensures LStrip(" " + s) == LStrip(s)
  {
    TailOfSum(" ", s);
    SumOfEmpty(s);
    assert " "[1..] == "";
  }

  lemma StripSpaced(s: string)
    requires s != "" && Tight(s)
    ensures Strip(" " + s) == s
  {
    TailOfSum(" ", s);
    SumOfEmpty(s);
    assert " "[1..] == "";
    assert LStrip(" " + s) == LStrip(s);
    StripMeaning(s);
  }

  // What a reader sees: the characters that are no spaces.
  function Ink(s: string): string {
    if s == "" then "" else (if IsSpace(s[0]) then "" else [s[0]]) + Ink(s[1..])
  }

  lemma {:induction false} InkSum(a: string, b: string)
    ensures Ink(a + b) == Ink(a) + Ink(b)
  {
    if a == "" {
      assert a + b == b;
    } else {
      assert (a + b)[1..] == a[1..] + b;
      InkSum(a[1..], b);
    }
  }

  lemma InkAfterSpace(s: string)
    ensures Ink(" " + s) == Ink(s)
  {
    TailOfSum(" ", s);
    assert " "[1..] == "";
    SumOfEmpty(s);
    SumOfEmpty(Ink(s));
  }

  lemma {:induction false} InkOfBlank(s: string)
    requires Blank(s)
    ensures Ink(s) == ""
  {
    if s != "" {
      InkOfBlank(s[1..]);
    }
  }

  lemma {:induction false} InkOfLStrip(s: string)
    ensures Ink(LStrip(s)) == Ink(s)
  {
    if s != "" && IsSpace(s[0]) {
      InkOfLStrip(s[1..]);
    }
  }

  lemma {:induction false} InkOfRStrip(s: string)
    ensures Ink(RStrip(s)) == Ink(s)
  {
    if s != "" && IsSpace(s[|s| - 1]) {
      InkOfRStrip(s[..|s| - 1]);
      InkSum(s[..|s| - 1], [s[|s| - 1]]);
      assert s == s[..|s| - 1] + [s[|s| - 1]];
    }
  }

  lemma InkOfStrip(s: string)
    ensures Ink(Strip(s)) == Ink(s)
  {
    InkOfLStrip(s);
    InkOfRStrip(LStrip(s));
  }

  // `sep.join(parts)`.
  function Join(sep: string, parts: seq<string>): string {
    if parts == [] then ""
    else if |parts| == 1 then parts[0]
    else parts[0] + sep + Join(sep, parts[1..])
  }

  lemma {:induction false} JoinSnoc(sep: string, parts: seq<string>, last: string)
    requires parts != []
    ensures Join(sep, parts + [last]) == Join(sep, parts) + sep + last
  {
    if |parts| == 1 {
      assert (parts + [last])[1..] == [last];
    } else {
      assert (parts + [last])[1..] == parts[1..] + [last];
      JoinSnoc(sep, parts[1..], last);
    }
  }
}
