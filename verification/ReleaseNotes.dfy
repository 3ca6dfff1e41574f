// The release-notes formatter of scripts/format_release_notes.py. A text is its
// list of lines; the blocks it falls into are found first and rendered after.
module ReleaseNotes {
  import opened Characters
  import opened Sequences
  import opened Text

  // ---------- Kinds of line ----------

  const FENCE := "```"
  const HIGHLIGHTS := "### \U{1F680} Highlights"

  predicate IsFence(line: string) { FENCE <= line }

  // How many hashes a line starts with.
  function Level(line: string): nat {
    if line != "" && line[0] == '#' then 1 + Level(line[1..]) else 0
  }

  predicate IsHeading(line: string) {
    var n := Level(line);
    1 <= n <= 6 && (n < |line| ==> IsSpace(line[n]))
  }

  function Digits(line: string): nat {
    if line != "" && IsDecimal(line[0]) then 1 + Digits(line[1..]) else 0
  }

  predicate IsListItem(line: string) {
    var n := Digits(line);
    || "- " <= line || "* " <= line
    || (n > 0 && n + 1 < |line| && line[n] == '.' && IsSpace(line[n + 1]))
  }

  // How a list item starts.
  lemma ItemFirst(line: string)
    requires IsListItem(line)
    ensures line != "" && !IsSpace(line[0]) && line[0] !in "#>`"
  {
    if line != "" && IsDecimal(line[0]) {
      DecimalIsNoSpace(line[0]);
    }
  }

  predicate IsBlockquote(line: string) { ">" <= LStrip(line) }

  predicate IsContinuation(line: string) { ("  " <= line || "\t" <= line) && !IsBlockquote(line) }

  // The line without its quote marker and the one space a marker may carry.
  function StripQuoteMarker(line: string): string {
    var s := LStrip(line);
    if !(">" <= s) then line
    else if |s| > 1 && IsSpace(s[1]) then s[2..] else s[1..]
  }

  // ---------- Headings ----------

  function SectionEmoji(title: string): string {
    if title == "Added" then "\U{2728}"
    else if title == "Changed" then "\U{1F527}"
    else if title == "Fixed" then "\U{1F41B}"
    else if title == "Removed" then "\U{1F5D1}\U{FE0F}"
    else if title == "Deprecated" then "\U{26A0}\U{FE0F}"
    else if title == "Security" then "\U{1F512}"
    else if title == "Migrations" then "\U{1F5C3}\U{FE0F}"
    else if title == "Breaking" then "\U{1F4A5}"
    else ""
  }

  // What a heading is titled; none when nothing follows the hashes.
  function Title(line: string): string {
    if Level(line) < |line| then Strip(line[Level(line)..]) else ""
  }

  // Whether the formatter puts an emoji before the title.
  predicate TakesEmoji(line: string) { IsHeading(line) && SectionEmoji(Title(line)) != "" }

  function RewriteHeading(line: string): string {
    var title := Title(line);
    if !IsHeading(line) || Level(line) == |line| then line
    else if title != "" && title[0] as int > 127 then line
    else if SectionEmoji(title) == "" then line
    else line[..Level(line)] + (" " + (SectionEmoji(title) + (" " + title)))
  }

  lemma {:induction false} LevelOfSum(hashes: string, rest: string)
    requires forall i | 0 <= i < |hashes| :: hashes[i] == '#'
    requires rest != "" ==> rest[0] != '#'
    ensures Level(hashes + rest) == |hashes|
  {
    if hashes == "" {
      assert hashes + rest == rest;
    } else {
      assert (hashes + rest)[1..] == hashes[1..] + rest;
      LevelOfSum(hashes[1..], rest);
    }
  }

  lemma {:induction false} LevelMeaning(line: string)
    ensures Level(line) <= |line|
    ensures forall i | 0 <= i < Level(line) :: line[i] == '#'
    ensures Level(line) < |line| ==> line[Level(line)] != '#'
  {
    if line != "" && line[0] == '#' {
      LevelMeaning(line[1..]);
    }
  }

  lemma SectionTitles(title: string)
    requires SectionEmoji(title) != ""
    ensures title != "" && Tight(title) && title[0] as int <= 127
    ensures SectionEmoji(title)[0] as int > 127 && Tight(SectionEmoji(title))
  {
  }

  // A heading made of hashes, an emoji and a title is read back as one.
  lemma ReadEmojiHeading(hashes: string, emoji: string, title: string)
    requires forall i | 0 <= i < |hashes| :: hashes[i] == '#'
    requires emoji != "" && Tight(emoji) && title != "" && Tight(title)
    ensures Level(hashes + (" " + (emoji + (" " + title)))) == |hashes|
    ensures Title(hashes + (" " + (emoji + (" " + title)))) == emoji + (" " + title)
  {
    var tail := " " + (emoji + (" " + title));
    LevelOfSum(hashes, tail);
    SumSlices(hashes, tail);
    TightSum(emoji, title);
    StripSpaced(emoji + (" " + title));
  }

  // Prefixing a title twice changes nothing: an emoji is not ASCII.
  lemma RewriteHeadingOnce(line: string)
    requires IsHeading(line)
    ensures IsHeading(RewriteHeading(line)) && Level(RewriteHeading(line)) == Level(line)
    ensures RewriteHeading(RewriteHeading(line)) == RewriteHeading(line)
    ensures RewriteHeading(line) == line <==> !TakesEmoji(line)
  {
    LevelMeaning(line);
    if TakesEmoji(line) {
      var hashes, title := line[..Level(line)], Title(line);
      SectionTitles(title);
      ReadEmojiHeading(hashes, SectionEmoji(title), title);
      assert Title(RewriteHeading(line))[0] != title[0];
    }
  }

  lemma EmojiHeadingInk(hashes: string, emoji: string, title: string)
    ensures Ink(hashes + (" " + (emoji + (" " + title)))) == Ink(hashes) + (Ink(emoji) + Ink(title))
  {
    var titled := " " + title;
    var tail := emoji + titled;
    assert Ink(titled) == Ink(title) by { InkAfterSpace(title); }
    assert Ink(tail) == Ink(emoji) + Ink(titled) by { InkSum(emoji, titled); }
    assert Ink(" " + tail) == Ink(tail) by { InkAfterSpace(tail); }
    InkSum(hashes, " " + tail);
  }

  // The emoji is all a rewritten heading gains.
  lemma RewriteHeadingInk(line: string)
    requires IsHeading(line)
    ensures !TakesEmoji(line) ==> Ink(RewriteHeading(line)) == Ink(line)
    ensures Level(line) <= |line|
    ensures TakesEmoji(line) ==>
              Ink(RewriteHeading(line)) ==
                Ink(line[..Level(line)]) + (SectionEmoji(Title(line)) + Ink(line[Level(line)..]))
    ensures Ink(line) == Ink(line[..Level(line)]) + Ink(line[Level(line)..])
  {
    LevelMeaning(line);
    var hashes, tail, title := line[..Level(line)], line[Level(line)..], Title(line);
    CutAt(line, Level(line));
    InkSum(hashes, tail);
    if TakesEmoji(line) {
      SectionTitles(title);
      InkOfStrip(tail);
      EmojiInk(title);
      EmojiHeadingInk(hashes, SectionEmoji(title), title);
    }
  }

  lemma EmojiInk(title: string)
    ensures Ink(SectionEmoji(title)) == SectionEmoji(title)
  {
    var emoji := SectionEmoji(title);
    if |emoji| == 1 {
      assert emoji == [emoji[0]];
    } else if |emoji| == 2 {
      assert emoji[1..] == [emoji[1]];
      assert Ink(emoji[1..]) == [emoji[1]];
    }
  }
}
