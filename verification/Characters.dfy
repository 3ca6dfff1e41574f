// Character classes of Unicode 15.0, as Python's patterns and `int` see them.
module Characters {
  // ---------- Decimal digits: `\d`, and what `int` reads ----------

  const SCRIPTS := 68

  // The zeros, ASCII and full-width first; each is followed by its script's other digits.
  function Zero(k: nat): int {
    if k == 0 then 0x30 else if k == 1 then 0xFF10 else if k == 2 then 0x660 else if k == 3 then 0x6F0 else
    if k == 4 then 0x7C0 else if k == 5 then 0x966 else if k == 6 then 0x9E6 else if k == 7 then 0xA66 else
    if k == 8 then 0xAE6 else if k == 9 then 0xB66 else if k == 10 then 0xBE6 else if k == 11 then 0xC66 else
    if k == 12 then 0xCE6 else if k == 13 then 0xD66 else if k == 14 then 0xDE6 else if k == 15 then 0xE50 else
    if k == 16 then 0xED0 else if k == 17 then 0xF20 else if k == 18 then 0x1040 else if k == 19 then 0x1090 else
    if k == 20 then 0x17E0 else if k == 21 then 0x1810 else if k == 22 then 0x1946 else if k == 23 then 0x19D0 else
    if k == 24 then 0x1A80 else if k == 25 then 0x1A90 else if k == 26 then 0x1B50 else if k == 27 then 0x1BB0 else
    if k == 28 then 0x1C40 else if k == 29 then 0x1C50 else if k == 30 then 0xA620 else if k == 31 then 0xA8D0 else
    if k == 32 then 0xA900 else if k == 33 then 0xA9D0 else if k == 34 then 0xA9F0 else if k == 35 then 0xAA50 else
    if k == 36 then 0xABF0 else if k == 37 then 0x104A0 else if k == 38 then 0x10D30 else if k == 39 then 0x11066 else
    if k == 40 then 0x110F0 else if k == 41 then 0x11136 else if k == 42 then 0x111D0 else if k == 43 then 0x112F0 else
    if k == 44 then 0x11450 else if k == 45 then 0x114D0 else if k == 46 then 0x11650 else if k == 47 then 0x116C0 else
    if k == 48 then 0x11730 else if k == 49 then 0x118E0 else if k == 50 then 0x11950 else if k == 51 then 0x11C50 else
    if k == 52 then 0x11D50 else if k == 53 then 0x11DA0 else if k == 54 then 0x11F50 else if k == 55 then 0x16A60 else
    if k == 56 then 0x16AC0 else if k == 57 then 0x16B50 else if k == 58 then 0x1D7CE else if k == 59 then 0x1D7D8 else
    if k == 60 then 0x1D7E2 else if k == 61 then 0x1D7EC else if k == 62 then 0x1D7F6 else if k == 63 then 0x1E140 else
    if k == 64 then 0x1E2F0 else if k == 65 then 0x1E4F0 else if k == 66 then 0x1E950 else 0x1FBF0
  }

  // The first script from `k` on of which `n` is a digit.
  function Script(n: int, k: nat): (s: nat)
    requires k <= SCRIPTS
    ensures k <= s <= SCRIPTS && (s < SCRIPTS ==> Zero(s) <= n <= Zero(s) + 9)
    decreases SCRIPTS - k
  {
    if k == SCRIPTS || Zero(k) <= n <= Zero(k) + 9 then k else Script(n, k + 1)
  }

  predicate IsDecimal(c: char) { Script(c as int, 0) < SCRIPTS }

  function DecimalValue(c: char): (d: nat)
    requires IsDecimal(c)
    ensures d <= 9
  {
    c as int - Zero(Script(c as int, 0))
  }

  // No script has its digits among spaces, ASCII punctuation or letters.
  lemma ZeroIsHigh(k: nat)
    requires 0 < k < SCRIPTS
    ensures 0x660 <= Zero(k) && (Zero(k) + 9 < 0x1680 || 0x1680 < Zero(k))
    ensures Zero(k) + 9 < 0x2000 || 0x3000 < Zero(k)
  {
  }

  lemma DecimalIsHigh(c: char)
    requires IsDecimal(c)
    ensures '0' <= c <= '9' || c as int >= 0x660
    ensures c as int != 0x1680 && (c as int < 0x2000 || c as int > 0x3000)
  {
    var s := Script(c as int, 0);
    if s > 0 {
      ZeroIsHigh(s);
    }
  }

  lemma AsciiDecimal(c: char)
    requires '0' <= c <= '9'
    ensures IsDecimal(c) && DecimalValue(c) == (c - '0') as int
  {
  }

  lemma FullWidthDecimal(c: char)
    requires 0xFF10 <= c as int <= 0xFF19
    ensures IsDecimal(c) && DecimalValue(c) == c as int - 0xFF10
  {
    assert Script(c as int, 0) == Script(c as int, 1) == 1;
  }

  // ---------- Symbols: what `\w` leaves out ----------

  const SYMBOL_BLOCKS := 85

  // Punctuation, symbols, separators and combining marks: all of them up to U+058F, in
  // U+2000-2BFF, U+2E00-33FF, U+4DC0-4DFF, U+E000-F8FF, U+FDFC-FFFF and U+1F000-1FFFF,
  // and everything from U+E0000 on.
  function SymbolBlock(k: nat): (int, int) {
    if k == 0 then (0x1F10D, 0x1FBEF) else if k == 1 then (0x2500, 0x2775) else if k == 2 then (0xFDFC, 0xFE6F) else
    if k == 3 then (0xAB, 0xB1) else if k == 4 then (0xB4, 0xB4) else if k == 5 then (0xB6, 0xB8) else
    if k == 6 then (0xBB, 0xBB) else if k == 7 then (0xBF, 0xBF) else if k == 8 then (0xD7, 0xD7) else
    if k == 9 then (0xF7, 0xF7) else if k == 10 then (0x2C2, 0x2C5) else if k == 11 then (0x2D2, 0x2DF) else
    if k == 12 then (0x2E5, 0x2EB) else if k == 13 then (0x2ED, 0x2ED) else if k == 14 then (0x2EF, 0x36F) else
    if k == 15 then (0x375, 0x375) else if k == 16 then (0x378, 0x379) else if k == 17 then (0x37E, 0x37E) else
    if k == 18 then (0x380, 0x385) else if k == 19 then (0x387, 0x387) else if k == 20 then (0x38B, 0x38B) else
    if k == 21 then (0x38D, 0x38D) else if k == 22 then (0x3A2, 0x3A2) else if k == 23 then (0x3F6, 0x3F6) else
    if k == 24 then (0x482, 0x489) else if k == 25 then (0x530, 0x530) else if k == 26 then (0x557, 0x558) else
    if k == 27 then (0x55A, 0x55F) else if k == 28 then (0x589, 0x58F) else if k == 29 then (0x2000, 0x206F) else
    if k == 30 then (0x2072, 0x2073) else if k == 31 then (0x207A, 0x207E) else if k == 32 then (0x208A, 0x208F) else
    if k == 33 then (0x209D, 0x2101) else if k == 34 then (0x2103, 0x2106) else if k == 35 then (0x2108, 0x2109) else
    if k == 36 then (0x2114, 0x2114) else if k == 37 then (0x2116, 0x2118) else if k == 38 then (0x211E, 0x2123) else
    if k == 39 then (0x2125, 0x2125) else if k == 40 then (0x2127, 0x2127) else if k == 41 then (0x2129, 0x2129) else
    if k == 42 then (0x212E, 0x212E) else if k == 43 then (0x213A, 0x213B) else if k == 44 then (0x2140, 0x2144) else
    if k == 45 then (0x214A, 0x214D) else if k == 46 then (0x214F, 0x214F) else if k == 47 then (0x218A, 0x245F) else
    if k == 48 then (0x249C, 0x24E9) else if k == 49 then (0x2794, 0x2BFF) else if k == 50 then (0x2E00, 0x2E2E) else
    if k == 51 then (0x2E30, 0x3004) else if k == 52 then (0x3008, 0x3020) else if k == 53 then (0x302A, 0x3030) else
    if k == 54 then (0x3036, 0x3037) else if k == 55 then (0x303D, 0x3040) else if k == 56 then (0x3097, 0x309C) else
    if k == 57 then (0x30A0, 0x30A0) else if k == 58 then (0x30FB, 0x30FB) else if k == 59 then (0x3100, 0x3104) else
    if k == 60 then (0x3130, 0x3130) else if k == 61 then (0x318F, 0x3191) else if k == 62 then (0x3196, 0x319F) else
    if k == 63 then (0x31C0, 0x31EF) else if k == 64 then (0x3200, 0x321F) else if k == 65 then (0x322A, 0x3247) else
    if k == 66 then (0x3250, 0x3250) else if k == 67 then (0x3260, 0x327F) else if k == 68 then (0x328A, 0x32B0) else
    if k == 69 then (0x32C0, 0x33FF) else if k == 70 then (0x4DC0, 0x4DFF) else if k == 71 then (0xE000, 0xF8FF) else
    if k == 72 then (0xFE75, 0xFE75) else if k == 73 then (0xFEFD, 0xFF0F) else if k == 74 then (0xFF1A, 0xFF20) else
    if k == 75 then (0xFF3B, 0xFF40) else if k == 76 then (0xFF5B, 0xFF65) else if k == 77 then (0xFFBF, 0xFFC1) else
    if k == 78 then (0xFFC8, 0xFFC9) else if k == 79 then (0xFFD0, 0xFFD1) else if k == 80 then (0xFFD8, 0xFFD9) else
    if k == 81 then (0xFFDD, 0xFFFF) else if k == 82 then (0x1F000, 0x1F0FF) else
    if k == 83 then (0x1FBFA, 0x1FFFF) else
    (0xE0000, 0x10FFFF)
  }

  predicate IsSymbol(n: int, k: nat)
    requires k <= SYMBOL_BLOCKS
    decreases SYMBOL_BLOCKS - k
  {
    k < SYMBOL_BLOCKS && (SymbolBlock(k).0 <= n <= SymbolBlock(k).1 || IsSymbol(n, k + 1))
  }

  // Pictographs, dingbats and what selects between their forms.
  lemma PictureIsSymbol(n: int)
    requires 0x1F10D <= n <= 0x1FBEF || 0x2500 <= n <= 0x2775 || 0xFE00 <= n <= 0xFE0F
    ensures IsSymbol(n, 0)
  {
    assert IsSymbol(n, 2) || n < 0xFE00 || n > 0xFE0F;
    assert IsSymbol(n, 1) || n >= 0x1F10D;
  }
}
