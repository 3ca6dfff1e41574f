// Stage ancestry and comments of a Dockerfile, as scripts/lint_image_upgrades.py
// reads them.
module DockerStages {
  import opened Options
  import opened Sequences
  import opened Text

  // A FROM line (what its pattern catches), or any other line.
  datatype Line = From(base: string, name: Option<string>) | Other(text: string)

  datatype Stage = Stage(name: Option<string>, base: string, lines: seq<string>)

  // ---------- Names ----------

  // `lower` is `str.lower`, about which nothing is needed.
  function LowerLine(line: Line, lower: string -> string): Line {
    match line
    case From(base, name) => From(lower(base), if name.Some? then Some(lower(name.value)) else None)
    case Other(text) => line
  }

  // The file with the names and bases of its stages in lower case.
  function Lowered(file: seq<Line>, lower: string -> string): seq<Line> {
    seq(|file|, i requires 0 <= i < |file| => LowerLine(file[i], lower))
  }

  // ---------- Stages ----------

  function Others(lines: seq<string>): seq<Line> {
    seq(|lines|, i requires 0 <= i < |lines| => Other(lines[i]))
  }

  // The file a list of stages was cut from.
  function Written(stages: seq<Stage>): seq<Line> {
    if stages == [] then []
    else
      var last := stages[|stages| - 1];
      Written(stages[..|stages| - 1]) + [From(last.base, last.name)] + Others(last.lines)
  }

  // Every line after the first FROM is in a stage, in order; what comes before is in none.
  method Stages(file: seq<Line>, lower: string -> string) returns (stages: seq<Stage>, lead: nat)
    ensures lead <= |file| && (forall i | 0 <= i < lead :: file[i].Other?)
    ensures Lowered(file[lead..], lower) == Written(stages)
  {
    stages, lead := [], 0;
    assert file[0..0] == [];
    for i := 0 to |file|
      invariant lead <= i && (forall j | 0 <= j < lead :: file[j].Other?)
      invariant Lowered(file[lead..i], lower) == Written(stages)
      invariant stages == [] ==> lead == i
    {
      LoweredMore(file, lower, lead, i);
      match file[i]
      case From(base, name) =>
        var stage := if name.Some? then Some(lower(name.value)) else None;
        WrittenNew(stages, lower(base), stage);
        stages := stages + [Stage(stage, lower(base), [])];
      case Other(text) =>
        if stages != [] {
          var last := stages[|stages| - 1];
          WrittenMore(stages, text);
          stages := stages[..|stages| - 1] + [last.(lines := last.lines + [text])];
        } else {
          lead := lead + 1;
        }
    }
    assert file[lead..|file|] == file[lead..];
  }

  lemma LoweredMore(file: seq<Line>, lower: string -> string, lead: nat, i: nat)
    requires lead <= i < |file|
    ensures Lowered(file[lead..i + 1], lower) == Lowered(file[lead..i], lower) + [LowerLine(file[i], lower)]
  {
    assert file[lead..i + 1] == file[lead..i] + [file[i]];
  }

  lemma WrittenNew(stages: seq<Stage>, base: string, name: Option<string>)
    ensures Written(stages + [Stage(name, base, [])]) == Written(stages) + [From(base, name)]
  {
    SumSlices(stages, [Stage(name, base, [])]);
    SumOfEmpty(Written(stages) + [From(base, name)]);
  }

  lemma WrittenMore(stages: seq<Stage>, text: string)
    requires stages != []
    ensures var last := stages[|stages| - 1];
            Written(stages[..|stages| - 1] + [last.(lines := last.lines + [text])]) == Written(stages) + [Other(text)]
  {
    var last, init := stages[|stages| - 1], stages[..|stages| - 1];
    WrittenLast(init, last.(lines := last.lines + [text]));
    OthersMore(last.lines, text);
    SumAssoc(Written(init) + [From(last.base, last.name)], Others(last.lines), [Other(text)]);
  }

  lemma WrittenLast(init: seq<Stage>, last: Stage)
    ensures Written(init + [last]) == Written(init) + [From(last.base, last.name)] + Others(last.lines)
  {
    SumSlices(init, [last]);
  }

  lemma OthersMore(lines: seq<string>, text: string)
    ensures Others(lines + [text]) == Others(lines) + [Other(text)]
  {
  }

  // The comprehension keeps the last stage of a name.
  function ByName(stages: seq<Stage>): (m: map<string, nat>)
    ensures forall n :: n in m <==> HasName(stages, n)
    ensures forall n | n in m :: m[n] < |stages| && NamedAt(stages, m[n], n)
    ensures forall n, i | n in m && m[n] < i < |stages| :: !NamedAt(stages, i, n)
  {
    if stages == [] then map[]
    else
      var last := |stages| - 1;
      var rest := ByName(stages[..last]);
      NamedInit(stages);
      if stages[last].name.Some? && stages[last].name.value != "" then rest[stages[last].name.value := last] else rest
  }

  ghost predicate HasName(stages: seq<Stage>, n: string) { exists i :: NamedAt(stages, i, n) }

  lemma NamedInit(stages: seq<Stage>)
    requires stages != []
    ensures forall i, n :: NamedAt(stages[..|stages| - 1], i, n) ==> NamedAt(stages, i, n)
    ensures forall i, n :: NamedAt(stages, i, n) && i < |stages| - 1 ==> NamedAt(stages[..|stages| - 1], i, n)
    ensures forall n :: HasName(stages, n) <==>
                          HasName(stages[..|stages| - 1], n) || NamedAt(stages, |stages| - 1, n)
  {
    var init := stages[..|stages| - 1];
    forall n
      ensures HasName(stages, n) <==> HasName(init, n) || NamedAt(stages, |stages| - 1, n)
    {
      if i :| NamedAt(init, i, n) { assert NamedAt(stages, i, n); }
      if i :| NamedAt(stages, i, n) { assert i == |stages| - 1 || NamedAt(init, i, n); }
    }
  }

  predicate NamedAt(stages: seq<Stage>, i: int, n: string) {
    0 <= i < |stages| && n != "" && stages[i].name == Some(n)
  }

  // ---------- Ancestry ----------

  function Parent(stages: seq<Stage>, i: nat): (p: Option<nat>)
    ensures p.Some? ==> i < |stages| && p.value < |stages|
  {
    var names := ByName(stages);
    if i < |stages| && stages[i].base in names then Some(names[stages[i].base]) else None
  }

  // Following FROM `n` times.
  ghost predicate AncestorAt(stages: seq<Stage>, i: nat, n: nat, a: nat)
    requires i < |stages|
    decreases n
  {
    if n == 0 then a == i
    else exists b: nat | b < |stages| :: AncestorAt(stages, i, n - 1, b) && Parent(stages, b) == Some(a)
  }

  ghost predicate Ancestor(stages: seq<Stage>, i: nat, a: nat)
    requires i < |stages|
  {
    exists n: nat :: AncestorAt(stages, i, n, a)
  }

  // The target last; each stage built FROM the one before it; the first from an outside
  // image, or from a stage already there.
  ghost predicate IsChain(stages: seq<Stage>, target: nat, chain: seq<nat>)
    requires target < |stages|
  {
    && Linked(stages, target, chain)
    && (Parent(stages, chain[0]).Some? ==> Parent(stages, chain[0]).value in chain)
  }

  ghost predicate Linked(stages: seq<Stage>, target: nat, chain: seq<nat>)
    requires target < |stages|
  {
    && chain != [] && chain[|chain| - 1] == target && (forall i | 0 <= i < |chain| :: chain[i] < |stages|)
    && (forall i | 0 < i < |chain| :: Parent(stages, chain[i]) == Some(chain[i - 1]))
    && (forall i, j | 0 <= i < j < |chain| :: chain[i] != chain[j])
  }

  function Below(n: nat): (r: set<nat>)
    ensures |r| == n && forall i: nat :: i in r <==> i < n
  {
    if n == 0 then {} else Below(n - 1) + {n - 1}
  }

  // The loop that walks up.
  method Ancestry(stages: seq<Stage>, index: nat) returns (chain: seq<nat>)
    requires index < |stages|
    ensures IsChain(stages, index, chain)
  {
    var names := ByName(stages);
    chain := [index];
    var seen: set<nat> := {index};
    while true
      invariant Linked(stages, index, chain)
      invariant (forall c :: c in seen <==> c in chain) && seen <= Below(|stages|)
      decreases |stages| - |seen|
    {
      var base := stages[chain[0]].base;
      if base !in names || names[base] in seen {
        break;
      }
      var parent := names[base];
      SubsetSize(seen + {parent}, Below(|stages|));
      LinkedMore(stages, index, chain, parent);
      chain := [parent] + chain;
      seen := seen + {parent};
    }
  }

  lemma LinkedMore(stages: seq<Stage>, target: nat, chain: seq<nat>, parent: nat)
    requires target < |stages| && Linked(stages, target, chain)
    requires Parent(stages, chain[0]) == Some(parent) && parent !in chain
    ensures Linked(stages, target, [parent] + chain)
  {
    var more := [parent] + chain;
    forall i | 0 < i < |more|
      ensures Parent(stages, more[i]) == Some(more[i - 1])
    {
      assert more[i] == chain[i - 1];
    }
    forall i, j | 0 <= i < j < |more|
      ensures more[i] != more[j]
    {
      assert more[j] == chain[j - 1];
    }
  }

  lemma {:induction false} ChainIsAncestry(stages: seq<Stage>, target: nat, chain: seq<nat>, i: nat)
    requires target < |stages| && Linked(stages, target, chain) && i < |chain|
    ensures AncestorAt(stages, target, |chain| - 1 - i, chain[i])
    decreases |chain| - i
  {
    if i < |chain| - 1 {
      ChainIsAncestry(stages, target, chain, i + 1);
      assert Parent(stages, chain[i + 1]) == Some(chain[i + 1 - 1]);
    }
  }

  lemma {:induction false} AncestryIsChain(stages: seq<Stage>, target: nat, chain: seq<nat>, n: nat, a: nat)
    requires target < |stages| && IsChain(stages, target, chain) && AncestorAt(stages, target, n, a)
    ensures a in chain
  {
    if n == 0 {
      assert a == chain[|chain| - 1];
    } else {
      var b := OneStepBack(stages, target, n, a);
      AncestryIsChain(stages, target, chain, n - 1, b);
      ParentInChain(stages, target, chain, b);
    }
  }

  lemma OneStepBack(stages: seq<Stage>, target: nat, n: nat, a: nat) returns (b: nat)
    requires target < |stages| && n > 0 && AncestorAt(stages, target, n, a)
    ensures b < |stages| && AncestorAt(stages, target, n - 1, b) && Parent(stages, b) == Some(a)
  {
    b :| b < |stages| && AncestorAt(stages, target, n - 1, b) && Parent(stages, b) == Some(a);
  }

  lemma ParentInChain(stages: seq<Stage>, target: nat, chain: seq<nat>, b: nat)
    requires target < |stages| && IsChain(stages, target, chain) && b in chain
    ensures Parent(stages, b).Some? ==> Parent(stages, b).value in chain
  {
    var i :| 0 <= i < |chain| && chain[i] == b;
    if i > 0 {
      assert Parent(stages, chain[i]) == Some(chain[i - 1]);
    }
  }

  // The chain is the target and its ancestors, all of them and nothing else.
  lemma ChainIsAllAncestors(stages: seq<Stage>, target: nat, chain: seq<nat>, a: nat)
    requires target < |stages| && IsChain(stages, target, chain)
    ensures a in chain <==> Ancestor(stages, target, a)
  {
    if a in chain {
      var i :| 0 <= i < |chain| && chain[i] == a;
      ChainIsAncestry(stages, target, chain, i);
    }
    if n: nat :| AncestorAt(stages, target, n, a) {
      AncestryIsChain(stages, target, chain, n, a);
    }
  }

  lemma {:induction false} OneChain(stages: seq<Stage>, target: nat, chain: seq<nat>, other: seq<nat>, n: nat)
    requires target < |stages| && IsChain(stages, target, chain) && Linked(stages, target, other)
    requires n <= |chain| && n <= |other|
    ensures chain[|chain| - n..] == other[|other| - n..]
  {
    if n > 0 {
      OneChain(stages, target, chain, other, n - 1);
      TakeMore(chain, |chain| - n);
      TakeMore(other, |other| - n);
      if n > 1 {
        var i, j := |chain| - n + 1, |other| - n + 1;
        assert chain[i..][0] == chain[i] && other[j..][0] == other[j];
        assert Parent(stages, chain[i]) == Some(chain[i - 1]) && Parent(stages, other[j]) == Some(other[j - 1]);
      }
    }
  }

  lemma NoLonger(stages: seq<Stage>, target: nat, chain: seq<nat>, other: seq<nat>)
    requires target < |stages| && IsChain(stages, target, chain) && Linked(stages, target, other)
    ensures |other| <= |chain|
  {
    forall a | a in other
      ensures a in chain
    {
      var i :| 0 <= i < |other| && other[i] == a;
      ChainIsAncestry(stages, target, other, i);
      AncestryIsChain(stages, target, chain, |other| - 1 - i, a);
    }
    DistinctSize(chain);
    DistinctSize(other);
    SubsetSize(Elements(other), Elements(chain));
  }

  // There is one chain.
  lemma ChainIsUnique(stages: seq<Stage>, target: nat, chain: seq<nat>, other: seq<nat>)
    requires target < |stages| && IsChain(stages, target, chain) && IsChain(stages, target, other)
    ensures chain == other
  {
    NoLonger(stages, target, chain, other);
    NoLonger(stages, target, other, chain);
    OneChain(stages, target, chain, other, |chain|);
    assert chain[0..] == chain && other[0..] == other;
  }

  datatype Shipped = Body(text: string) | UnknownTarget

  function Bodies(stages: seq<Stage>, chain: seq<nat>): seq<string>
    requires forall i | 0 <= i < |chain| :: chain[i] < |stages|
  {
    seq(|chain|, i requires 0 <= i < |chain| => Join("\n", stages[chain[i]].lines))
  }

  // Which stage is published: the named one, or the last.
  function TargetOf(stages: seq<Stage>, target: Option<string>): (i: Option<nat>)
    requires stages != []
    ensures i.Some? ==> i.value < |stages|
  {
    if target.None? then Some(|stages| - 1)
    else if target.value in ByName(stages) then Some(ByName(stages)[target.value])
    else None
  }

  ghost predicate IsShipped(stages: seq<Stage>, target: Option<string>, r: Shipped) {
    if stages == [] then r == Body("")
    else if TargetOf(stages, target).None? then r == UnknownTarget
    else exists chain ::
      IsChain(stages, TargetOf(stages, target).value, chain) && r == Body(Join("\n", Bodies(stages, chain)))
  }

  // The stage a target asks for; the empty one asks for none by name.
  function Asked(target: string, lower: string -> string): Option<string> {
    if target == "" then None else Some(lower(target))
  }

  method ShippedBody(file: seq<Line>, target: string, lower: string -> string)
    returns (r: Shipped, stages: seq<Stage>, lead: nat)
    ensures lead <= |file| && (forall i | 0 <= i < lead :: file[i].Other?)
    ensures Lowered(file[lead..], lower) == Written(stages) && IsShipped(stages, Asked(target, lower), r)
  {
    stages, lead := Stages(file, lower);
    if stages == [] { return Body(""), stages, lead; }
    var index := TargetOf(stages, Asked(target, lower));
    if index.None? { return UnknownTarget, stages, lead; }
    var chain := Ancestry(stages, index.value);
    r := Body(Join("\n", Bodies(stages, chain)));
  }

  // ---------- Comments ----------

  // Inside which quotes a character is; `Escaped` is right after a backslash in double quotes.
  datatype Quoting = Outside | Inside(quote: char) | Escaped

  function Next(q: Quoting, c: char): Quoting {
    match q
    case Escaped => Inside('"')
    case Inside(quote) => if c == '\\' && quote == '"' then Escaped else if c == quote then Outside else q
    case Outside => if c == '\'' || c == '"' then Inside(c) else Outside
  }

  function QuotingAt(line: string, n: nat): Quoting
    requires n <= |line|
  {
    if n == 0 then Outside else Next(QuotingAt(line, n - 1), line[n - 1])
  }

  predicate StartsComment(line: string, i: nat)
    requires i < |line|
  {
    line[i] == '#' && QuotingAt(line, i) == Outside && (i == 0 || IsSpace(line[i - 1]))
  }

  // What is left: everything before the first comment outside quotes.
  ghost predicate IsCode(line: string, code: string) {
    && code <= line && (forall i | 0 <= i < |code| :: !StartsComment(line, i))
    && (|code| < |line| ==> StartsComment(line, |code|))
  }

  method StripTrailingComment(line: string) returns (code: string)
    ensures IsCode(line, code)
  {
    var quote: Option<char> := None;
    var index: nat := 0;
    while index < |line|
      invariant index <= |line| + 1
      invariant index <= |line| ==> QuotingAt(line, index) == (if quote.Some? then Inside(quote.value) else Outside)
      invariant forall i | 0 <= i < index && i < |line| :: !StartsComment(line, i)
    {
      var c := line[index];
      if quote.Some? {
        if c == '\\' && quote.value == '"' {
          index := index + 1;
        } else if c == quote.value {
          quote := None;
        }
      } else if c == '\'' || c == '"' {
        quote := Some(c);
      } else if c == '#' && (index == 0 || IsSpace(line[index - 1])) {
        return line[..index];
      }
      index := index + 1;
    }
    code := line;
  }

  lemma {:induction false} QuotingOfPrefix(line: string, code: string, n: nat)
    requires code <= line && n <= |code|
    ensures QuotingAt(code, n) == QuotingAt(line, n)
  {
    if n > 0 {
      QuotingOfPrefix(line, code, n - 1);
    }
  }

  lemma SameStart(line: string, code: string, i: nat)
    requires code <= line && i < |code|
    ensures StartsComment(code, i) <==> StartsComment(line, i)
  {
    QuotingOfPrefix(line, code, i);
    assert forall j | 0 <= j <= i :: code[j] == line[j];
  }

  // One line has one code, and what is left of it is left alone the second time.
  lemma CodeIsCode(line: string, code: string, again: string)
    requires IsCode(line, code) && IsCode(code, again)
    ensures again == code
  {
    if |again| < |code| {
      SameStart(line, code, |again|);
    }
  }

  predicate WholeComment(line: string) { "#" <= LStrip(line) }

  ghost predicate AreCode(lines: seq<string>, codes: seq<string>) {
    |codes| == |lines| && forall i | 0 <= i < |lines| :: IsCode(lines[i], codes[i])
  }

  function Uncommented(lines: seq<string>): seq<string> {
    if lines == [] then []
    else
      Uncommented(lines[..|lines| - 1]) +
      (if WholeComment(lines[|lines| - 1]) then [] else [lines[|lines| - 1]])
  }

  method StripComments(lines: seq<string>) returns (codes: seq<string>)
    ensures AreCode(Uncommented(lines), codes)
  {
    codes := [];
    for i := 0 to |lines|
      invariant AreCode(Uncommented(lines[..i]), codes)
    {
      TakeMore(lines, i);
      SumSlices(lines[..i], [lines[i]]);
      if !WholeComment(lines[i]) {
        var code := StripTrailingComment(lines[i]);
        codes := codes + [code];
      }
    }
    TakeAll(lines);
  }

  lemma {:induction false} NoWholeComments(lines: seq<string>)
    ensures forall l | l in Uncommented(lines) :: !WholeComment(l)
    ensures (forall l | l in lines :: !WholeComment(l)) ==> Uncommented(lines) == lines
  {
    if lines != [] {
      NoWholeComments(lines[..|lines| - 1]);
      SplitLast(lines);
    }
  }

  lemma {:induction false} CodeIsNoComment(line: string, code: string)
    requires code <= line && !WholeComment(line)
    ensures !WholeComment(code)
  {
    if code != "" && IsSpace(code[0]) {
      CodeIsNoComment(line[1..], code[1..]);
    }
  }

  // Lines without comments stay as they are.
  lemma StrippedStaysStripped(lines: seq<string>, codes: seq<string>, again: seq<string>)
    requires AreCode(Uncommented(lines), codes) && AreCode(Uncommented(codes), again)
    ensures again == codes
  {
    NoWholeComments(lines);
    forall l | l in codes
      ensures !WholeComment(l)
    {
      var i :| 0 <= i < |codes| && codes[i] == l;
      CodeIsNoComment(Uncommented(lines)[i], l);
    }
    NoWholeComments(codes);
    forall i | 0 <= i < |codes|
      ensures again[i] == codes[i]
    {
      CodeIsCode(Uncommented(lines)[i], codes[i], again[i]);
    }
  }

  // ---------- Stages by name ----------

  // The last stage of a name.
  ghost predicate LastNamed(stages: seq<Stage>, name: string, i: int) {
    NamedAt(stages, i, name) && forall j | i < j < |stages| :: !NamedAt(stages, j, name)
  }

  // A stage is built from the last stage that its base names, or from an outside image.
  lemma ParentIff(stages: seq<Stage>, i: nat, p: nat)
    requires i < |stages|
    ensures Parent(stages, i) == Some(p) <==> LastNamed(stages, stages[i].base, p)
    ensures Parent(stages, i).None? <==> forall j :: !NamedAt(stages, j, stages[i].base)
  {
    OnlyLastNamed(stages, stages[i].base, p);
  }

  lemma OnlyLastNamed(stages: seq<Stage>, name: string, p: nat)
    ensures name in ByName(stages) && ByName(stages)[name] == p <==> LastNamed(stages, name, p)
    ensures name in ByName(stages) <==> exists j :: NamedAt(stages, j, name)
  {
    if LastNamed(stages, name, p) {
      assert HasName(stages, name);
      var q := ByName(stages)[name];
      assert q < p ==> !NamedAt(stages, p, name);
    }
  }

  // Published is the last stage, or the last one of the name that is asked for.
  lemma TargetIff(stages: seq<Stage>, name: string, p: nat)
    requires stages != []
    ensures TargetOf(stages, None) == Some(|stages| - 1)
    ensures TargetOf(stages, Some(name)) == Some(p) <==> LastNamed(stages, name, p)
    ensures TargetOf(stages, Some(name)).None? <==> forall j :: !NamedAt(stages, j, name)
  {
    OnlyLastNamed(stages, name, p);
  }

  // What is published is the lines of each stage of the chain, in order.
  lemma {:induction false} BodiesAre(stages: seq<Stage>, chain: seq<nat>, more: seq<nat>)
    requires forall i | 0 <= i < |chain + more| :: (chain + more)[i] < |stages|
    requires forall i | 0 <= i < |chain| :: chain[i] < |stages|
    requires forall i | 0 <= i < |more| :: more[i] < |stages|
    ensures Bodies(stages, chain + more) == Bodies(stages, chain) + Bodies(stages, more)
    ensures |more| == 1 ==> Bodies(stages, more) == [Join("\n", stages[more[0]].lines)]
  {
  }
}
