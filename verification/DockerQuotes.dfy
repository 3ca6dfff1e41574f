// What a comment of a Dockerfile line is, told from the quoted strings before it.
module DockerQuotes {
  import opened Sequences
  import opened Text
  import opened DockerStages

  // ---------- Words and strings ----------

  // A character outside quotes, or a quoted string.
  datatype Token = Bare(c: char) | Single(s: string) | Double(s: string)

  // A backslash takes the character behind it along.
  predicate Spelled(s: string) {
    || s == ""
    || (s[0] == '\\' && |s| > 1 && Spelled(s[2..]))
    || (s[0] != '\\' && s[0] != '"' && Spelled(s[1..]))
  }

  predicate IsToken(t: Token) {
    match t
    case Bare(c) => c != '\'' && c != '"'
    case Single(s) => '\'' !in s
    case Double(s) => Spelled(s)
  }

  function TokenText(t: Token): string {
    match t
    case Bare(c) => [c]
    case Single(s) => "'" + s + "'"
    case Double(s) => "\"" + s + "\""
  }

  function TokensText(tokens: seq<Token>): string {
    if tokens == [] then ""
    else TokensText(tokens[..|tokens| - 1]) + TokenText(tokens[|tokens| - 1])
  }

  ghost predicate Reads(tokens: seq<Token>, text: string) {
    (forall t | t in tokens :: IsToken(t)) && TokensText(tokens) == text
  }

  // Every quotation that was opened is closed.
  ghost predicate Balanced(text: string) { exists tokens :: Reads(tokens, text) }

  // ---------- The scanner ----------

  function Scan(q: Quoting, s: string): Quoting {
    if s == "" then q else Next(Scan(q, s[..|s| - 1]), s[|s| - 1])
  }

  lemma {:induction false} ScanSum(q: Quoting, a: string, b: string)
    ensures Scan(q, a + b) == Scan(Scan(q, a), b)
    decreases |b|
  {
    if b == "" {
      SumOfEmpty(a);
    } else {
      var init, last := b[..|b| - 1], b[|b| - 1];
      SplitLast(b);
      SumAssoc(a, init, [last]);
      SumSlices(a + init, [last]);
      ScanSum(q, a, init);
    }
  }

  lemma ScanOne(q: Quoting, c: char)
    ensures Scan(q, [c]) == Next(q, c)
  {
    assert [c][..0] == "";
  }

  lemma {:induction false} ScanIsQuoting(line: string, n: nat)
    requires n <= |line|
    ensures QuotingAt(line, n) == Scan(Outside, line[..n])
  {
    if n > 0 {
      ScanIsQuoting(line, n - 1);
      assert line[..n][..n - 1] == line[..n - 1];
    }
  }

  lemma {:induction false} ScanSingle(s: string)
    requires '\'' !in s
    ensures Scan(Inside('\''), s) == Inside('\'')
  {
    if s != "" {
      SplitLast(s);
      InSumOf(s[..|s| - 1], [s[|s| - 1]], '\'');
      ScanSingle(s[..|s| - 1]);
    }
  }

  lemma {:induction false} ScanDouble(s: string)
    requires Spelled(s)
    ensures Scan(Inside('"'), s) == Inside('"')
    decreases |s|
  {
    if s != "" {
      if s[0] == '\\' {
        assert s == [s[0]] + ([s[1]] + s[2..]);
        ScanSum(Inside('"'), [s[0]], [s[1]] + s[2..]);
        ScanOne(Inside('"'), s[0]);
        ScanSum(Escaped, [s[1]], s[2..]);
        ScanOne(Escaped, s[1]);
        ScanDouble(s[2..]);
      } else {
        SplitFirst(s);
        ScanSum(Inside('"'), [s[0]], s[1..]);
        ScanOne(Inside('"'), s[0]);
        ScanDouble(s[1..]);
      }
    }
  }

  lemma ScanQuoted(quote: char, s: string)
    requires quote == '\'' || quote == '"'
    requires Scan(Inside(quote), s) == Inside(quote)
    ensures Scan(Outside, [quote] + s + [quote]) == Outside
  {
    ScanSum(Outside, [quote] + s, [quote]);
    ScanSum(Outside, [quote], s);
    ScanOne(Outside, quote);
    ScanOne(Inside(quote), quote);
  }

  lemma ScanToken(t: Token)
    requires IsToken(t)
    ensures Scan(Outside, TokenText(t)) == Outside
  {
    match t
    case Bare(c) => ScanOne(Outside, c);
    case Single(s) =>
      ScanSingle(s);
      ScanQuoted('\'', s);
    case Double(s) =>
      ScanDouble(s);
      ScanQuoted('"', s);
  }

  lemma {:induction false} ScanTokens(tokens: seq<Token>)
    requires forall t | t in tokens :: IsToken(t)
    ensures Scan(Outside, TokensText(tokens)) == Outside
  {
    if tokens != [] {
      var init, last := tokens[..|tokens| - 1], tokens[|tokens| - 1];
      ScanTokens(init);
      ScanToken(last);
      ScanSum(Outside, TokensText(init), TokenText(last));
    }
  }

  // What a prefix looks like in each state: tokens, and the string that is open.
  ghost predicate Looks(q: Quoting, tokens: seq<Token>, s: string, text: string) {
    && (forall t | t in tokens :: IsToken(t))
    && match q
       case Outside => s == "" && text == TokensText(tokens)
       case Inside(quote) =>
         && text == TokensText(tokens) + ([quote] + s)
         && ((quote == '\'' && '\'' !in s) || (quote == '"' && Spelled(s)))
       case Escaped => text == TokensText(tokens) + (['"'] + s + ['\\']) && Spelled(s)
  }

  lemma TokensMore(tokens: seq<Token>, t: Token)
    ensures TokensText(tokens + [t]) == TokensText(tokens) + TokenText(t)
    ensures (forall x | x in tokens :: IsToken(x)) && IsToken(t) ==> forall x | x in tokens + [t] :: IsToken(x)
  {
    SumSlices(tokens, [t]);
  }

  lemma {:induction false} SpelledMore(s: string, more: string)
    requires Spelled(s) && Spelled(more)
    ensures Spelled(s + more)
    decreases |s|
  {
    if s == "" {
      SumOfEmpty(more);
    } else {
      var n := if s[0] == '\\' then 2 else 1;
      assert (s + more)[n..] == s[n..] + more;
      SpelledMore(s[n..], more);
    }
  }

  lemma SpelledOne(c: char)
    requires c != '\\' && c != '"'
    ensures Spelled([c])
  {
    assert [c][1..] == "";
  }

  lemma SpelledTwo(c: char)
    ensures Spelled(['\\', c])
  {
    assert ['\\', c][2..] == "";
  }

  lemma LooksMore(q: Quoting, tokens: seq<Token>, s: string, text: string, c: char)
    returns (tokens': seq<Token>, s': string)
    requires Looks(q, tokens, s, text)
    ensures Looks(Next(q, c), tokens', s', text + [c])
  {
    var told := TokensText(tokens);
    match q
    case Outside =>
      if c == '\'' || c == '"' {
        tokens', s' := tokens, "";
        SumOfEmpty([c]);
      } else {
        tokens', s' := tokens + [Bare(c)], "";
        TokensMore(tokens, Bare(c));
      }
    case Escaped =>
      tokens', s' := tokens, s + ['\\', c];
      SpelledTwo(c);
      SpelledMore(s, ['\\', c]);
      EscapeEnds(told, s, c);
    case Inside(quote) =>
      if c == '\\' && quote == '"' {
        tokens', s' := tokens, s;
        SumAssoc(told, ['"'] + s, [c]);
      } else if c == quote {
        var t := if quote == '"' then Double(s) else Single(s);
        tokens', s' := tokens + [t], "";
        TokensMore(tokens, t);
        SumAssoc(told, [quote] + s, [c]);
      } else {
        tokens', s' := tokens, s + [c];
        SumAssoc(told, [quote] + s, [c]);
        SumAssoc([quote], s, [c]);
        InSumOf(s, [c], '\'');
        if quote == '"' {
          SpelledOne(c);
          SpelledMore(s, [c]);
        }
      }
  }

  lemma EscapeEnds(told: string, s: string, c: char)
    ensures told + (['"'] + s + ['\\']) + [c] == told + (['"'] + (s + ['\\', c]))
  {
  }

  lemma {:induction false} EveryPrefixLooks(text: string) returns (tokens: seq<Token>, s: string)
    ensures Looks(Scan(Outside, text), tokens, s, text)
  {
    if text == "" {
      tokens, s := [], "";
    } else {
      var init, last := text[..|text| - 1], text[|text| - 1];
      SplitLast(text);
      tokens, s := EveryPrefixLooks(init);
      tokens, s := LooksMore(Scan(Outside, init), tokens, s, init, last);
    }
  }

  // A place is outside quotes exactly when what is before it reads as words and strings
  // that are closed.
  lemma OutsideIff(line: string, n: nat)
    requires n <= |line|
    ensures QuotingAt(line, n) == Outside <==> Balanced(line[..n])
  {
    ScanIsQuoting(line, n);
    if QuotingAt(line, n) == Outside {
      var tokens, s := EveryPrefixLooks(line[..n]);
      assert Reads(tokens, line[..n]);
    }
    if tokens :| Reads(tokens, line[..n]) {
      ScanTokens(tokens);
    }
  }

  // A hash starts a comment when no quotation is open there and it starts the line or
  // stands behind a space; the code of a line is what is before the first such hash.
  lemma CodeIs(line: string, code: string)
    requires code <= line
    ensures IsCode(line, code) <==>
              (forall i | 0 <= i < |code| :: !CommentAt(line, i)) && (|code| < |line| ==> CommentAt(line, |code|))
  {
    forall i: nat | i < |line|
      ensures StartsComment(line, i) <==> CommentAt(line, i)
    {
      OutsideIff(line, i);
    }
  }

  ghost predicate CommentAt(line: string, i: int) {
    0 <= i < |line| && line[i] == '#' && Balanced(line[..i]) && (i == 0 || IsSpace(line[i - 1]))
  }

  // ---------- Whole-line comments ----------

  // The lines that are no comment stay, in order.
  lemma {:induction false} UncommentedSum(a: seq<string>, b: seq<string>)
    ensures Uncommented(a + b) == Uncommented(a) + Uncommented(b)
    decreases |b|
  {
    if b == [] {
      SumOfEmpty(a);
      SumOfEmpty(Uncommented(a));
    } else {
      var init, last := b[..|b| - 1], b[|b| - 1];
      SplitLast(b);
      SumAssoc(a, init, [last]);
      SumSlices(a + init, [last]);
      UncommentedSum(a, init);
      SumAssoc(Uncommented(a), Uncommented(init), if WholeComment(last) then [] else [last]);
    }
  }

  lemma {:induction false} UncommentedOne(line: string)
    ensures Uncommented([line]) == if HashFirst(line) then [] else [line]
  {
    assert [line][..0] == [];
    HashFirstIff(line);
  }

  // The first character that is no space is a hash.
  ghost predicate HashFirst(line: string) { exists n :: HashAt(line, n) }

  ghost predicate HashAt(line: string, n: int) { 0 <= n < |line| && Blank(line[..n]) && line[n] == '#' }

  lemma {:induction false} HashFirstIff(line: string)
    ensures WholeComment(line) <==> HashFirst(line)
  {
    if line != "" && IsSpace(line[0]) {
      HashFirstIff(line[1..]);
      if n :| HashAt(line[1..], n) {
        BlankTail(line, n + 1);
        assert HashAt(line, n + 1);
      }
      if n :| HashAt(line, n) {
        BlankTail(line, n);
        assert HashAt(line[1..], n - 1);
      }
    } else if line != "" {
      assert line[..0] == "";
      assert line[0] == '#' ==> HashAt(line, 0);
      if n :| HashAt(line, n) {
        assert n > 0 ==> line[..n][0] == line[0];
      }
    }
  }

  lemma BlankTail(line: string, n: int)
    requires 0 < n <= |line| && IsSpace(line[0])
    ensures Blank(line[..n]) <==> Blank(line[1..][..n - 1])
  {
    assert line[..n] == [line[0]] + line[1..][..n - 1];
    if Blank(line[..n]) {
      assert line[1..][..n - 1] == line[..n][1..];
    }
  }
}
