// The path label of a request (backend/app/metrics.py): the route's template behind
// the template of the prefixes it was included under. Parameters match one segment.
module PathLabels {
  import opened Sequences
  import opened Text
  import opened Splitting

  datatype Segment = Literal(text: string) | Param(name: string)

  datatype Route = Route(template: seq<Segment>)

  datatype Request = Unrouted | Routed(route: Route, path: string, params: seq<(string, string)>)

  const UNMATCHED_PATH := "<unmatched>"

  // ---------- Templates ----------

  function Placeholder(name: string): string { "{" + name + "}" }

  function SegmentText(s: Segment): string { if s.Literal? then s.text else Placeholder(s.name) }

  function Texts(segments: seq<Segment>): seq<string> {
    seq(|segments|, i requires 0 <= i < |segments| => SegmentText(segments[i]))
  }

  // "/a/{b}": a slash before each segment.
  function Slashed(texts: seq<string>): string {
    if texts == [] then "" else "/" + Join("/", texts)
  }

  function Template(segments: seq<Segment>): string { Slashed(Texts(segments)) }

  // ---------- The label ----------

  predicate SegmentMatches(s: Segment, text: string) {
    if s.Literal? then s.text == text else text != ""
  }

  predicate Matches(segments: seq<Segment>, texts: seq<string>) {
    |segments| == |texts| && forall i | 0 <= i < |texts| :: SegmentMatches(segments[i], texts[i])
  }

  // What stands before the part of the path that the route's own pattern matches.
  function IncludePrefix(route: Route, path: string): string {
    var parts, n := Split(path, '/'), |route.template|;
    if |parts| <= n || !Matches(route.template, parts[|parts| - n..]) then ""
    else Join("/", parts[..|parts| - n])
  }

  predicate Owned(route: Route, name: string) { Param(name) in route.template }

  // Later parameters win.
  function ByValue(params: seq<(string, string)>, route: Route): map<string, string> {
    if params == [] then map[]
    else
      var last := params[|params| - 1];
      var rest := ByValue(params[..|params| - 1], route);
      if Owned(route, last.0) || last.1 == "" then rest else rest[last.1 := last.0]
  }

  function Relabel(names: map<string, string>, text: string): string {
    if text in names then Placeholder(names[text]) else text
  }

  function Relabelled(names: map<string, string>, texts: seq<string>): seq<string> {
    seq(|texts|, i requires 0 <= i < |texts| => Relabel(names, texts[i]))
  }

  function TemplatePrefix(prefix: string, params: seq<(string, string)>, route: Route): string {
    Join("/", Relabelled(ByValue(params, route), Split(prefix, '/')))
  }

  function PathTemplateLabel(request: Request): string {
    match request
    case Unrouted => UNMATCHED_PATH
    case Routed(route, path, params) =>
      if route.template == [] then UNMATCHED_PATH
      else
        var prefix := IncludePrefix(route, path);
        if prefix == "" then Template(route.template)
        else TemplatePrefix(prefix, params, route) + Template(route.template)
  }

  // ---------- Filling a template ----------

  function Fill(s: Segment, values: map<string, string>): string
    requires s.Param? ==> s.name in values
  {
    if s.Literal? then s.text else values[s.name]
  }

  ghost predicate Fillable(segments: seq<Segment>, values: map<string, string>) {
    forall i | 0 <= i < |segments| :: FillsSegment(segments[i], values)
  }

  // No text has a slash; a value is not empty.
  predicate FillsSegment(s: Segment, values: map<string, string>) {
    match s
    case Literal(text) => Free(text, '/')
    case Param(name) => Free(name, '/') && name in values && values[name] != "" && Free(values[name], '/')
  }

  function Filled(segments: seq<Segment>, values: map<string, string>): (r: seq<string>)
    requires Fillable(segments, values)
    ensures |r| == |segments|
  {
    seq(|segments|, i requires 0 <= i < |segments| => Fill(segments[i], values))
  }

  // The request parameters: every parameter of the path once, with its value.
  ghost predicate ParamsOf(params: seq<(string, string)>, prefix: seq<Segment>, route: Route,
                           values: map<string, string>) {
    && (forall p | p in params :: p.0 in values && p.1 == values[p.0] && (Param(p.0) in prefix || Owned(route, p.0)))
    && (forall s | s in prefix && s.Param? ::
          s.name in values && (s.name, values[s.name]) in params && !Owned(route, s.name))
  }

  // Values that tell the parameters of a prefix apart, and from its own words.
  ghost predicate TellsApart(prefix: seq<Segment>, values: map<string, string>)
    requires Fillable(prefix, values)
  {
    forall s, t | s in prefix && t in prefix && t.Param? && FillsSegment(s, values) && FillsSegment(t, values) ::
      Fill(s, values) == values[t.name] ==> SegmentText(s) == Placeholder(t.name)
  }

  lemma {:induction false} ByValueMeaning(params: seq<(string, string)>, route: Route, v: string)
    ensures v in ByValue(params, route) ==>
              var n := ByValue(params, route)[v]; v != "" && !Owned(route, n) && (n, v) in params
    ensures v != "" && (exists n :: (n, v) in params && !Owned(route, n)) ==> v in ByValue(params, route)
  {
    if params != [] {
      ByValueMeaning(params[..|params| - 1], route, v);
      SplitLast(params);
    }
  }

  ghost predicate Marks(params: seq<(string, string)>, route: Route, v: string, i: int) {
    0 <= i < |params| && v != "" && params[i].1 == v && !Owned(route, params[i].0)
  }

  // A value stands for the last of the parameters that hold it.
  lemma {:induction false} LastParamWins(params: seq<(string, string)>, route: Route, v: string, i: nat)
    requires Marks(params, route, v, i) && forall j | i < j < |params| :: !Marks(params, route, v, j)
    ensures v in ByValue(params, route) && ByValue(params, route)[v] == params[i].0
  {
    var n := |params| - 1;
    if i < n {
      assert !Marks(params, route, v, n);
      forall j | i < j < n
        ensures !Marks(params[..n], route, v, j)
      {
        assert !Marks(params, route, v, j);
      }
      LastParamWins(params[..n], route, v, i);
    }
  }

  // Which placeholder a filled segment turns into.
  lemma RelabelMeaning(prefix: seq<Segment>, route: Route, params: seq<(string, string)>,
                       values: map<string, string>, v: string)
    requires Fillable(prefix, values) && ParamsOf(params, prefix, route, values)
    ensures v in ByValue(params, route) ==>
              var n := ByValue(params, route)[v]; Param(n) in prefix && n in values && values[n] == v
    ensures (exists t | t in prefix && t.Param? :: t.name in values && values[t.name] == v) ==>
              v in ByValue(params, route)
  {
    ByValueMeaning(params, route, v);
    if t :| t in prefix && t.Param? && t.name in values && values[t.name] == v {
      var i :| 0 <= i < |prefix| && prefix[i] == t;
      assert FillsSegment(prefix[i], values);
      assert (t.name, v) in params;
    }
  }

  // The prefix's own segments come back exactly when the values tell them apart.
  lemma SegmentsComeBackIff(prefix: seq<Segment>, route: Route,
                            params: seq<(string, string)>, values: map<string, string>)
    requires Fillable(prefix, values) && ParamsOf(params, prefix, route, values)
    ensures Relabelled(ByValue(params, route), Filled(prefix, values)) == Texts(prefix) <==> TellsApart(prefix, values)
  {
    var names, filled := ByValue(params, route), Filled(prefix, values);
    if TellsApart(prefix, values) {
      forall i | 0 <= i < |prefix|
        ensures Relabel(names, filled[i]) == SegmentText(prefix[i])
      {
        ComesBack(prefix, route, params, values, i);
      }
    }
    if Relabelled(names, filled) == Texts(prefix) {
      forall s, t | s in prefix && t in prefix && t.Param? && FillsSegment(s, values) && FillsSegment(t, values)
        ensures Fill(s, values) == values[t.name] ==> SegmentText(s) == Placeholder(t.name)
      {
        if Fill(s, values) == values[t.name] {
          SamePlaceholder(prefix, route, params, values, s, t);
        }
      }
    }
  }

  lemma ComesBack(prefix: seq<Segment>, route: Route,
                  params: seq<(string, string)>, values: map<string, string>, i: nat)
    requires Fillable(prefix, values) && ParamsOf(params, prefix, route, values) && TellsApart(prefix, values)
    requires i < |prefix|
    ensures Relabel(ByValue(params, route), Filled(prefix, values)[i]) == SegmentText(prefix[i])
  {
    var s, v := prefix[i], Filled(prefix, values)[i];
    assert FillsSegment(s, values) && s in prefix;
    RelabelMeaning(prefix, route, params, values, v);
    if v in ByValue(params, route) {
      var t := Param(ByValue(params, route)[v]);
      var j :| 0 <= j < |prefix| && prefix[j] == t;
      assert FillsSegment(prefix[j], values);
    }
  }

  lemma SamePlaceholder(prefix: seq<Segment>, route: Route, params: seq<(string, string)>, values: map<string, string>,
                        s: Segment, t: Segment)
    requires Fillable(prefix, values) && ParamsOf(params, prefix, route, values)
    requires Relabelled(ByValue(params, route), Filled(prefix, values)) == Texts(prefix)
    requires s in prefix && t in prefix && t.Param? && FillsSegment(s, values) && FillsSegment(t, values)
    requires Fill(s, values) == values[t.name]
    ensures SegmentText(s) == Placeholder(t.name)
  {
    var names := ByValue(params, route);
    var i :| 0 <= i < |prefix| && prefix[i] == s;
    var j :| 0 <= j < |prefix| && prefix[j] == t;
    assert Relabelled(names, Filled(prefix, values))[i] == Texts(prefix)[i];
    assert Relabelled(names, Filled(prefix, values))[j] == Texts(prefix)[j];
    RelabelMeaning(prefix, route, params, values, values[t.name]);
  }

  // ---------- Round trip ----------

  lemma FilledIsFree(segments: seq<Segment>, values: map<string, string>)
    requires Fillable(segments, values)
    ensures AllFree(Filled(segments, values), '/')
  {
    forall p | p in Filled(segments, values)
      ensures Free(p, '/')
    {
      var i :| 0 <= i < |segments| && Filled(segments, values)[i] == p;
      assert FillsSegment(segments[i], values);
    }
  }

  lemma TextsAreFree(segments: seq<Segment>, values: map<string, string>)
    requires Fillable(segments, values)
    ensures AllFree(Texts(segments), '/')
  {
    forall p | p in Texts(segments)
      ensures Free(p, '/')
    {
      var i :| 0 <= i < |segments| && Texts(segments)[i] == p;
      assert FillsSegment(segments[i], values);
    }
  }

  lemma SlashedSplits(texts: seq<string>)
    requires AllFree(texts, '/')
    ensures Slashed(texts) == Join("/", [""] + texts) && Split(Slashed(texts), '/') == [""] + texts
  {
    var all := [""] + texts;
    assert all[1..] == texts;
    assert Slashed(texts) == Join("/", all) by {
      if texts != [] {
        SumOfEmpty("/");
      }
    }
    SplitOfJoin(all, '/');
  }

  lemma FilledMatches(segments: seq<Segment>, values: map<string, string>)
    requires Fillable(segments, values)
    ensures Matches(segments, Filled(segments, values))
  {
    forall i | 0 <= i < |segments|
      ensures SegmentMatches(segments[i], Filled(segments, values)[i])
    {
      assert FillsSegment(segments[i], values);
    }
  }

  // The route's own part is found, so the rest is the prefix.
  lemma PrefixIsFound(prefix: seq<Segment>, route: Route, values: map<string, string>)
    requires Fillable(prefix, values) && Fillable(route.template, values)
    ensures IncludePrefix(route, Slashed(Filled(prefix, values) + Filled(route.template, values))) ==
            Slashed(Filled(prefix, values))
  {
    var before, own := Filled(prefix, values), Filled(route.template, values);
    FilledIsFree(prefix, values);
    FilledIsFree(route.template, values);
    FilledMatches(route.template, values);
    SlashedSplits(before + own);
    SlashedSplits(before);
    SumAssoc([""], before, own);
    SumSlices([""] + before, own);
  }

  lemma RelabelledPrefix(names: map<string, string>, texts: seq<string>)
    requires "" !in names
    ensures Relabelled(names, [""] + texts) == [""] + Relabelled(names, texts)
  {
  }

  lemma PrefixIsRelabelled(prefix: seq<Segment>, route: Route,
                           params: seq<(string, string)>, values: map<string, string>)
    requires Fillable(prefix, values) && ParamsOf(params, prefix, route, values)
    ensures TemplatePrefix(Slashed(Filled(prefix, values)), params, route) ==
            Join("/", [""] + Relabelled(ByValue(params, route), Filled(prefix, values)))
  {
    FilledIsFree(prefix, values);
    SlashedSplits(Filled(prefix, values));
    ByValueMeaning(params, route, "");
    RelabelledPrefix(ByValue(params, route), Filled(prefix, values));
  }

  lemma RelabelledIsFree(prefix: seq<Segment>, route: Route, params: seq<(string, string)>, values: map<string, string>)
    requires Fillable(prefix, values) && ParamsOf(params, prefix, route, values)
    ensures AllFree(Relabelled(ByValue(params, route), Filled(prefix, values)), '/')
  {
    var names, filled := ByValue(params, route), Filled(prefix, values);
    FilledIsFree(prefix, values);
    forall p | p in Relabelled(names, filled)
      ensures Free(p, '/')
    {
      var i :| 0 <= i < |filled| && Relabelled(names, filled)[i] == p;
      RelabelMeaning(prefix, route, params, values, filled[i]);
      assert filled[i] in filled;
      if filled[i] in names {
        var j :| 0 <= j < |prefix| && prefix[j] == Param(names[filled[i]]);
        assert FillsSegment(prefix[j], values);
      }
    }
  }

  lemma SumCancels(a: string, b: string, tail: string)
    ensures a + tail == b + tail <==> a == b
  {
    if a + tail == b + tail {
      assert |a + tail| == |b + tail|;
      SumSlices(a, tail);
      SumSlices(b, tail);
    }
  }

  // Filling the templates and labelling the path gives the templates back, exactly when
  // the values tell the segments of the prefix apart.
  lemma RoundTripIff(prefix: seq<Segment>, route: Route, params: seq<(string, string)>, values: map<string, string>)
    requires route.template != [] && Fillable(prefix, values) && Fillable(route.template, values)
    requires ParamsOf(params, prefix, route, values)
    ensures TellsApart(prefix, values) <==>
            PathTemplateLabel(Routed(route, Slashed(Filled(prefix, values) + Filled(route.template, values)),
                                     params)) ==
              Template(prefix) + Template(route.template)
  {
    var relabelled := Relabelled(ByValue(params, route), Filled(prefix, values));
    PrefixIsFound(prefix, route, values);
    SegmentsComeBackIff(prefix, route, params, values);
    TextsAreFree(prefix, values);
    RelabelledIsFree(prefix, route, params, values);
    SlashedSplits(Texts(prefix));
    SlashedSplits(relabelled);
    PrefixIsRelabelled(prefix, route, params, values);
    SumCancels(Slashed(relabelled), Template(prefix), Template(route.template));
    if Slashed(relabelled) == Template(prefix) {
      SumSlices([""], relabelled);
      SumSlices([""], Texts(prefix));
    }
    if prefix == [] {
      SumOfEmpty(Template(route.template));
    }
  }

  // Two parameters of the prefix with one value: the label names one of them twice.
  lemma SharedValueFails(a: string, b: string, v: string)
    requires a != b && v != "" && Free(a, '/') && Free(b, '/') && Free(v, '/')
    ensures var prefix, own := [Param(a), Param(b)], [Literal("x")];
            PathTemplateLabel(Routed(Route(own), Slashed([v, v] + ["x"]), [(a, v), (b, v)])) !=
              Template(prefix) + Template(own)
  {
    var prefix, route, values := [Param(a), Param(b)], Route([Literal("x")]), map[a := v, b := v];
    assert Free("x", '/') by { assert "x"[0] == 'x'; }
    assert Filled(prefix, values) == [v, v] && Filled(route.template, values) == ["x"];
    SamePlaceholderIff(a, b);
    assert !TellsApart(prefix, values) by {
      assert prefix[0] in prefix && prefix[1] in prefix;
      assert FillsSegment(prefix[0], values) && FillsSegment(prefix[1], values);
      assert Fill(prefix[0], values) == values[prefix[1].name];
    }
    SharedParams(a, b, v, route);
    RoundTripIff(prefix, route, [(a, v), (b, v)], values);
  }

  lemma SharedParams(a: string, b: string, v: string, route: Route)
    requires a != b && route.template == [Literal("x")]
    ensures ParamsOf([(a, v), (b, v)], [Param(a), Param(b)], route, map[a := v, b := v])
  {
    var params := [(a, v), (b, v)];
    var prefix := [Param(a), Param(b)];
    assert params[0] == (a, v) && params[1] == (b, v) && prefix[0] == Param(a) && prefix[1] == Param(b);
  }

  lemma SamePlaceholderIff(a: string, b: string)
    ensures Placeholder(a) == Placeholder(b) <==> a == b
  {
    SumSlices("{" + a, "}");
    SumSlices("{" + b, "}");
    SumSlices("{", a);
    SumSlices("{", b);
    if Placeholder(a) == Placeholder(b) {
      assert |Placeholder(a)| == |Placeholder(b)|;
      assert "{" + a == "{" + b;
    }
  }

  // Without a route there is one label for all; and a path that ends with nothing the
  // route's template matches gets the template alone.
  lemma LabelWithoutPrefix(route: Route, path: string, params: seq<(string, string)>)
    ensures PathTemplateLabel(Unrouted) == UNMATCHED_PATH
    ensures route.template == [] ==> PathTemplateLabel(Routed(route, path, params)) == UNMATCHED_PATH
    ensures var parts, n := Split(path, '/'), |route.template|;
            n > 0 && (|parts| <= n || !Matches(route.template, parts[|parts| - n..])) ==>
              PathTemplateLabel(Routed(route, path, params)) == Template(route.template)
  {
  }
}
