// Decimal numerals, as `str(int)` writes and `int(str)` reads them.
module Numerals {
  import opened Characters
  import opened Sequences
  import opened Text

  function Digit(d: nat): char
    requires d < 10
  {
    '0' + d as char
  }

  function Decimal(n: nat): string {
    if n < 10 then [Digit(n)] else Decimal(n / 10) + [Digit(n % 10)]
  }

  function DigitValue(c: char): (d: nat)
    requires IsDigit(c)
    ensures d < 10
  {
    (c - '0') as nat
  }

  predicate AllDigits(s: string) { forall i | 0 <= i < |s| :: IsDigit(s[i]) }

  predicate Numeral(s: string) { s != "" && AllDigits(s) }

  function Value(s: string): nat
    requires AllDigits(s)
  {
    if s == "" then 0 else 10 * Value(s[..|s| - 1]) + DigitValue(s[|s| - 1])
  }

  // Reading what was written; and only zero starts with a zero.
  lemma {:induction false} DecimalReadsBack(n: nat)
    ensures Numeral(Decimal(n)) && Value(Decimal(n)) == n
    ensures n > 0 ==> Decimal(n)[0] != '0'
  {
    if n >= 10 {
      DecimalReadsBack(n / 10);
      SumSlices(Decimal(n / 10), [Digit(n % 10)]);
      assert Decimal(n)[0] == Decimal(n / 10)[0];
    }
  }

  function Pow10(k: nat): (p: nat)
    ensures p > 0
  {
    if k == 0 then 1 else 10 * Pow10(k - 1)
  }

  lemma {:induction false} DecimalLength(n: nat, k: nat)
    requires n < Pow10(k)
    ensures |Decimal(n)| <= k + 1
  {
    if n >= 10 {
      DecimalLength(n / 10, k - 1);
    }
  }

  // A numeral without a leading zero.
  predicate Plain(s: string) { Numeral(s) && (s[0] == '0' ==> |s| == 1) }

  lemma {:induction false} PlainWritesBack(s: string)
    requires Plain(s)
    ensures Decimal(Value(s)) == s
    ensures s[0] != '0' ==> Value(s) > 0
  {
    if |s| > 1 {
      var init := s[..|s| - 1];
      assert init[0] == s[0];
      PlainWritesBack(init);
      assert Value(s) / 10 == Value(init) && Value(s) % 10 == DigitValue(s[|s| - 1]);
      SplitLast(s);
    } else {
      assert s[..0] == "";
      assert s == [s[0]];
    }
  }

  // Numerals of one length that say the same are the same.
  lemma {:induction false} PaddedIsUnique(s: string, t: string)
    requires AllDigits(s) && AllDigits(t) && |s| == |t| && Value(s) == Value(t)
    ensures s == t
  {
    if s != "" {
      PaddedIsUnique(s[..|s| - 1], t[..|t| - 1]);
      SplitLast(s);
      SplitLast(t);
    }
  }

  // ---------- Digits of other scripts ----------

  // The ASCII digit of the same value; anything else stays.
  function Narrow(c: char): char { if IsDecimal(c) then Digit(DecimalValue(c)) else c }

  function Narrowed(s: string): (r: string)
    ensures |r| == |s| && forall i | 0 <= i < |s| :: r[i] == Narrow(s[i])
  {
    seq(|s|, i requires 0 <= i < |s| => Narrow(s[i]))
  }

  predicate AllDecimals(s: string) { forall i | 0 <= i < |s| :: IsDecimal(s[i]) }

  lemma DigitIsDigit(d: nat)
    requires d < 10
    ensures IsDigit(Digit(d))
  {
  }

  lemma NarrowDigit(c: char)
    requires IsDigit(c)
    ensures IsDecimal(c) && Narrow(c) == c
  {
    AsciiDecimal(c);
  }

  lemma NarrowMeaning(c: char)
    ensures IsDigit(Narrow(c)) <==> IsDecimal(c)
    ensures c as int < 0x80 ==> Narrow(c) == c
    ensures !IsDecimal(c) ==> Narrow(c) == c
  {
    if IsDigit(c) {
      NarrowDigit(c);
    } else if IsDecimal(c) {
      DigitIsDigit(DecimalValue(c));
      DecimalIsHigh(c);
    }
  }

  lemma NarrowedMeaning(s: string)
    ensures AllDigits(Narrowed(s)) <==> AllDecimals(s)
    ensures Ascii(s) ==> Narrowed(s) == s
  {
    forall i | 0 <= i < |s|
      ensures IsDigit(Narrowed(s)[i]) <==> IsDecimal(s[i])
      ensures s[i] as int < 0x80 ==> Narrowed(s)[i] == s[i]
    {
      NarrowMeaning(s[i]);
    }
  }
}
