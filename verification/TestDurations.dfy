// Test-duration merging of scripts/merge_test_durations.py, over the reals: rounding
// is not modelled. A shard file keeps its order; the committed file is a lookup table.
module TestDurations {
  import opened Options
  import opened Sequences

  datatype Entry = Entry(test: string, cost: real)

  type Shard = seq<Entry>
  type Durations = map<string, real>

  // ---------- The speed of a runner ----------

  function Known(shard: Shard, committed: Durations): Shard {
    if shard == [] then []
    else (if shard[0].test in committed then [shard[0]] else []) + Known(shard[1..], committed)
  }

  function Measured(shard: Shard): real {
    if shard == [] then 0.0 else shard[0].cost + Measured(shard[1..])
  }

  function Weight(committed: Durations, test: string): real { if test in committed then committed[test] else 0.0 }

  function Predicted(shard: Shard, committed: Durations): real {
    if shard == [] then 0.0 else Weight(committed, shard[0].test) + Predicted(shard[1..], committed)
  }

  // None when fewer than half of the tests are known, or nothing can be compared.
  function SpeedFactor(shard: Shard, committed: Durations): Option<real> {
    var known := Known(shard, committed);
    if shard == [] || 2 * |known| < |shard| then None
    else if Predicted(known, committed) <= 0.0 || Measured(known) <= 0.0 then None
    else Some(Measured(known) / Predicted(known, committed))
  }

  function Divisor(shard: Shard, committed: Durations): (d: real)
    ensures d > 0.0
  {
    match SpeedFactor(shard, committed)
    case Some(f) =>
      QuotientIsPositive(Measured(Known(shard, committed)), Predicted(Known(shard, committed), committed)); f
    case None => 1.0
  }

  lemma QuotientIsPositive(a: real, b: real)
    requires a > 0.0 && b > 0.0
    ensures a / b > 0.0
  {
    assert a / b * b == a;
  }

  // ---------- Merging ----------

  function Normalized(cost: real, divisor: real): real
    requires divisor != 0.0
  {
    cost / divisor
  }

  // What one measurement says a test should weigh.
  function Blended(e: Entry, divisor: real, committed: Durations): real
    requires divisor > 0.0
  {
    if e.test in committed then 0.5 * Normalized(e.cost, divisor) + 0.5 * committed[e.test]
    else Normalized(e.cost, divisor)
  }

  // What a shard says about each of its tests.
  function Offers(shard: Shard, committed: Durations): Shard {
    var divisor := Divisor(shard, committed);
    seq(|shard|, i requires 0 <= i < |shard| => Entry(shard[i].test, Blended(shard[i], divisor, committed)))
  }

  function AllOffers(shards: seq<Shard>, committed: Durations): seq<Shard> {
    seq(|shards|, i requires 0 <= i < |shards| => Offers(shards[i], committed))
  }

  predicate Says(offers: Shard, test: string, weight: real) {
    Entry(test, weight) in offers
  }

  ghost predicate Covers(merged: Durations, offers: Shard) {
    forall e | e in offers :: e.test in merged && e.cost <= merged[e.test]
  }

  // The union of all offers: a test two shards ran takes the larger weight.
  ghost predicate IsUnion(merged: Durations, offers: seq<Shard>) {
    && (forall t | t in merged :: exists o | o in offers :: Says(o, t, merged[t]))
    && (forall o | o in offers :: Covers(merged, o))
  }

  ghost predicate IsMerge(merged: Durations, shards: seq<Shard>, committed: Durations) {
    IsUnion(merged, AllOffers(shards, committed))
  }

  ghost predicate Grown(before: Durations, after: Durations) {
    forall t | t in before :: t in after && before[t] <= after[t]
  }

  // Every weight was there before, or is an offer.
  ghost predicate Sourced(merged: Durations, before: Durations, offers: Shard) {
    forall t | t in merged :: (t in before && merged[t] == before[t]) || Says(offers, t, merged[t])
  }

  // The inner loop's body.
  method Take(e: Entry, before: Durations) returns (merged: Durations)
    ensures Grown(before, merged) && Covers(merged, [e]) && Sourced(merged, before, [e])
  {
    if e.test in before {
      merged := before[e.test := if e.cost > before[e.test] then e.cost else before[e.test]];
    } else {
      merged := before[e.test := e.cost];
    }
  }

  lemma TakeOne(first: Durations, before: Durations, merged: Durations, offers: Shard, e: Entry)
    requires Grown(first, before) && Covers(before, offers) && Sourced(before, first, offers)
    requires Grown(before, merged) && Covers(merged, [e]) && Sourced(merged, before, [e])
    ensures Grown(first, merged) && Covers(merged, offers + [e]) && Sourced(merged, first, offers + [e])
  {
    assert e in [e];
    forall x | x in offers + [e]
      ensures x.test in merged && x.cost <= merged[x.test]
    {
      assert x in offers || x == e;
    }
    forall t | t in merged && !(t in first && merged[t] == first[t])
      ensures Says(offers + [e], t, merged[t])
    {
      assert Entry(t, merged[t]) in offers || Entry(t, merged[t]) == e;
    }
  }

  // One shard's turn of the outer loop.
  method MergeShard(shard: Shard, factor: Option<real>, committed: Durations, before: Durations)
    returns (merged: Durations)
    requires factor == SpeedFactor(shard, committed)
    ensures Grown(before, merged)
    ensures Covers(merged, Offers(shard, committed)) && Sourced(merged, before, Offers(shard, committed))
  {
    merged := before;
    var divisor := if factor.Some? then factor.value else 1.0;
    assert divisor == Divisor(shard, committed);
    ghost var offers := Offers(shard, committed);
    for i := 0 to |shard|
      invariant Grown(before, merged) && Covers(merged, offers[..i]) && Sourced(merged, before, offers[..i])
    {
      var e := Entry(shard[i].test, Blended(shard[i], divisor, committed));
      assert e == offers[i];
      ghost var last := merged;
      merged := Take(e, merged);
      TakeMore(offers, i);
      TakeOne(before, last, merged, offers[..i], e);
    }
    TakeAll(offers);
  }

  function Factors(shards: seq<Shard>, committed: Durations): seq<Option<real>> {
    seq(|shards|, i requires 0 <= i < |shards| => SpeedFactor(shards[i], committed))
  }

  method Merge(shards: seq<Shard>, committed: Durations) returns (merged: Durations, factors: seq<Option<real>>)
    ensures IsMerge(merged, shards, committed)
    ensures factors == Factors(shards, committed)
  {
    merged, factors := map[], [];
    ghost var offers := AllOffers(shards, committed);
    for n := 0 to |shards|
      invariant |factors| == n && forall i | 0 <= i < n :: factors[i] == SpeedFactor(shards[i], committed)
      invariant IsUnion(merged, offers[..n])
    {
      var factor := SpeedFactor(shards[n], committed);
      factors := factors + [factor];
      ghost var before := merged;
      merged := MergeShard(shards[n], factor, committed, merged);
      TakeMore(offers, n);
      UnionMore(before, merged, offers[..n], offers[n]);
    }
    TakeAll(offers);
  }

  lemma UnionMore(before: Durations, merged: Durations, offers: seq<Shard>, more: Shard)
    requires IsUnion(before, offers) && Grown(before, merged)
    requires Covers(merged, more) && Sourced(merged, before, more)
    ensures IsUnion(merged, offers + [more])
  {
    var all := offers + [more];
    assert more in all;
    forall t | t in merged
      ensures exists o | o in all :: Says(o, t, merged[t])
    {
      if t in before && merged[t] == before[t] {
        var o :| o in offers && Says(o, t, before[t]);
        assert o in all;
      }
    }
    forall o | o in all
      ensures Covers(merged, o)
    {
      assert o in offers || o == more;
    }
  }

  lemma UnionBelow(a: Durations, b: Durations, offers: seq<Shard>, others: seq<Shard>)
    requires IsUnion(a, offers) && IsUnion(b, others) && forall o | o in offers :: o in others
    ensures Grown(a, b)
  {
    forall t | t in a
      ensures t in b && a[t] <= b[t]
    {
      var o :| o in offers && Says(o, t, a[t]);
      assert Entry(t, a[t]) in o;
    }
  }

  lemma GrownBothWays(a: Durations, b: Durations)
    requires Grown(a, b) && Grown(b, a)
    ensures a == b
  {
    assert a.Keys == b.Keys;
  }

  lemma OffersOf(shards: seq<Shard>, committed: Durations, o: Shard)
    ensures o in AllOffers(shards, committed) <==> exists s | s in shards :: o == Offers(s, committed)
  {
    var all := AllOffers(shards, committed);
    if o in all {
      var i :| 0 <= i < |all| && all[i] == o;
      assert shards[i] in shards;
    }
    if exists s | s in shards :: o == Offers(s, committed) {
      var s :| s in shards && o == Offers(s, committed);
      var i :| 0 <= i < |shards| && shards[i] == s;
      assert all[i] == o;
    }
  }

  // There is one merge, whatever order the shard files come in.
  lemma MergeIsUnique(a: Durations, b: Durations, shards: seq<Shard>, others: seq<Shard>, committed: Durations)
    requires IsMerge(a, shards, committed) && IsMerge(b, others, committed)
    requires forall s :: s in shards <==> s in others
    ensures a == b
  {
    forall o
      ensures o in AllOffers(shards, committed) <==> o in AllOffers(others, committed)
    {
      OffersOf(shards, committed, o);
      OffersOf(others, committed, o);
    }
    UnionBelow(a, b, AllOffers(shards, committed), AllOffers(others, committed));
    UnionBelow(b, a, AllOffers(others, committed), AllOffers(shards, committed));
    GrownBothWays(a, b);
  }

  // ---------- Drift ----------

  datatype Sums = Sums(total: real, moved: real, unknown: real)

  function Add(a: Sums, b: Sums): Sums { Sums(a.total + b.total, a.moved + b.moved, a.unknown + b.unknown) }

  function Abs(x: real): real { if x < 0.0 then -x else x }

  function EntrySums(e: Entry, divisor: real, committed: Durations): Sums
    requires divisor != 0.0
  {
    var cost := Normalized(e.cost, divisor);
    if e.test in committed then Sums(cost, Abs(cost - committed[e.test]), 0.0) else Sums(cost, 0.0, cost)
  }

  function ShardSums(shard: Shard, divisor: real, committed: Durations): Sums
    requires divisor != 0.0
  {
    if shard == [] then Sums(0.0, 0.0, 0.0)
    else Add(ShardSums(shard[..|shard| - 1], divisor, committed), EntrySums(shard[|shard| - 1], divisor, committed))
  }

  function AllSums(shards: seq<Shard>, committed: Durations): Sums {
    if shards == [] then Sums(0.0, 0.0, 0.0)
    else
      var last := shards[|shards| - 1];
      Add(AllSums(shards[..|shards| - 1], committed), ShardSums(last, Divisor(last, committed), committed))
  }

  function Seen(shards: seq<Shard>): set<string> {
    set s: Shard, i | s in shards && 0 <= i < |s| :: s[i].test
  }

  datatype Report = Report(moved: real, unknown: real, added: nat, removed: nat)

  function ReportOf(sums: Sums, seen: set<string>, committed: Durations): Report {
    var added, removed := |seen - committed.Keys|, |committed.Keys - seen|;
    if sums.total <= 0.0 then Report(0.0, 0.0, added, removed)
    else Report(sums.moved / sums.total, sums.unknown / sums.total, added, removed)
  }

  function DriftOf(shards: seq<Shard>, committed: Durations): Report {
    ReportOf(AllSums(shards, committed), Seen(shards), committed)
  }

  // The divisor of a factor that is given: none, or a factor of zero, is 1.
  function DivisorBy(factor: Option<real>): (d: real)
    ensures d != 0.0
  {
    if factor.Some? && factor.value != 0.0 then factor.value else 1.0
  }

  function SumsBy(shards: seq<Shard>, factors: seq<Option<real>>, committed: Durations): Sums
    requires |factors| == |shards|
  {
    if shards == [] then Sums(0.0, 0.0, 0.0)
    else
      var n := |shards| - 1;
      Add(SumsBy(shards[..n], factors[..n], committed), ShardSums(shards[n], DivisorBy(factors[n]), committed))
  }

  lemma DivisorOfFactor(shard: Shard, committed: Durations)
    ensures DivisorBy(SpeedFactor(shard, committed)) == Divisor(shard, committed)
  {
  }

  // At the factors a merge returns, the drift is that of the shards.
  lemma {:induction false} DriftAfterMerge(shards: seq<Shard>, committed: Durations)
    ensures SumsBy(shards, Factors(shards, committed), committed) == AllSums(shards, committed)
  {
    if shards != [] {
      var n := |shards| - 1;
      DriftAfterMerge(shards[..n], committed);
      assert Factors(shards, committed)[..n] == Factors(shards[..n], committed);
      DivisorOfFactor(shards[n], committed);
    }
  }

  function TestsOf(shard: Shard): set<string> { set i | 0 <= i < |shard| :: shard[i].test }

  lemma TestsMore(shard: Shard, e: Entry)
    ensures TestsOf(shard + [e]) == TestsOf(shard) + {e.test}
  {
    var more := shard + [e];
    assert more[|shard|] == e && forall i | 0 <= i < |shard| :: more[i] == shard[i];
  }

  method DriftShard(shard: Shard, divisor: real, committed: Durations, base: Sums, met: set<string>)
    returns (sums: Sums, seen: set<string>)
    requires divisor != 0.0
    ensures sums == Add(base, ShardSums(shard, divisor, committed)) && seen == met + TestsOf(shard)
  {
    sums, seen := base, met;
    for i := 0 to |shard|
      invariant sums == Add(base, ShardSums(shard[..i], divisor, committed))
      invariant seen == met + TestsOf(shard[..i])
    {
      TakeMore(shard, i);
      SumSlices(shard[..i], [shard[i]]);
      TestsMore(shard[..i], shard[i]);
      seen := seen + {shard[i].test};
      sums := Add(sums, EntrySums(shard[i], divisor, committed));
    }
    TakeAll(shard);
  }

  // None when there is not one factor per shard.
  method Drift(committed: Durations, shards: seq<Shard>, factors: seq<Option<real>>) returns (r: Option<Report>)
    ensures |factors| != |shards| ==> r == None
    ensures |factors| == |shards| ==> r == Some(ReportOf(SumsBy(shards, factors, committed), Seen(shards), committed))
    ensures factors == Factors(shards, committed) ==> r == Some(DriftOf(shards, committed))
  {
    if |factors| != |shards| {
      return None;
    }
    DriftAfterMerge(shards, committed);
    var sums := Sums(0.0, 0.0, 0.0);
    var seen: set<string> := {};
    for n := 0 to |shards|
      invariant sums == SumsBy(shards[..n], factors[..n], committed) && seen == Seen(shards[..n])
    {
      sums, seen := DriftShard(shards[n], DivisorBy(factors[n]), committed, sums, seen);
      SumsByMore(shards, factors, committed, n);
      TakeMore(shards, n);
      SeenMore(shards[..n], shards[n]);
    }
    TakeAll(shards);
    TakeAll(factors);
    var added, removed := |seen - committed.Keys|, |committed.Keys - seen|;
    if sums.total <= 0.0 {
      return Some(Report(0.0, 0.0, added, removed));
    }
    r := Some(Report(sums.moved / sums.total, sums.unknown / sums.total, added, removed));
  }

  lemma SumsByMore(shards: seq<Shard>, factors: seq<Option<real>>, committed: Durations, n: nat)
    requires n < |shards| == |factors|
    ensures SumsBy(shards[..n + 1], factors[..n + 1], committed) ==
            Add(SumsBy(shards[..n], factors[..n], committed), ShardSums(shards[n], DivisorBy(factors[n]), committed))
  {
    assert shards[..n + 1][..n] == shards[..n] && factors[..n + 1][..n] == factors[..n];
  }

  lemma SeenMore(shards: seq<Shard>, shard: Shard)
    ensures Seen(shards + [shard]) == Seen(shards) + TestsOf(shard)
  {
    var all := shards + [shard];
    assert forall s: Shard :: s in all <==> s in shards || s == shard;
  }

  // ---------- What the report counts ----------

  // A test that some shard ran.
  ghost predicate Ran(shards: seq<Shard>, test: string) {
    exists s, i | 0 <= s < |shards| && 0 <= i < |shards[s]| :: shards[s][i].test == test
  }

  lemma SeenIsRan(shards: seq<Shard>, test: string)
    ensures test in Seen(shards) <==> Ran(shards, test)
  {
    if s, i :| 0 <= s < |shards| && 0 <= i < |shards[s]| && shards[s][i].test == test {
      assert shards[s] in shards;
    }
  }

  // Tests added are those that ran and are not committed; tests removed, the committed
  // ones that did not run.
  lemma CountsMeaning(sums: Sums, shards: seq<Shard>, committed: Durations, added: set<string>, removed: set<string>)
    requires forall t :: t in added <==> Ran(shards, t) && t !in committed
    requires forall t :: t in removed <==> t in committed && !Ran(shards, t)
    ensures ReportOf(sums, Seen(shards), committed).added == |added|
    ensures ReportOf(sums, Seen(shards), committed).removed == |removed|
  {
    forall t
      ensures t in Seen(shards) <==> Ran(shards, t)
    {
      SeenIsRan(shards, t);
    }
    assert added == Seen(shards) - committed.Keys;
    assert removed == committed.Keys - Seen(shards);
  }

  // ---------- When a shard has a speed factor ----------

  ghost function KnownAt(shard: Shard, committed: Durations): set<nat> {
    set i | 0 <= i < |shard| && shard[i].test in committed
  }

  lemma {:induction false} KnownSnoc(shard: Shard, e: Entry, committed: Durations)
    ensures Known(shard + [e], committed) == Known(shard, committed) + (if e.test in committed then [e] else [])
  {
    if shard == [] {
      SumOfEmpty([e]);
      assert [e][1..] == [];
      SumOfEmpty(if e.test in committed then [e] else []);
    } else {
      TailOfSum(shard, [e]);
      KnownSnoc(shard[1..], e, committed);
      SumAssoc(if shard[0].test in committed then [shard[0]] else [], Known(shard[1..], committed),
               if e.test in committed then [e] else []);
    }
  }

  lemma KnownAtSnoc(shard: Shard, e: Entry, committed: Durations)
    ensures KnownAt(shard + [e], committed) ==
            KnownAt(shard, committed) + (if e.test in committed then {|shard|} else {})
  {
    var more := shard + [e];
    assert more[|shard|] == e && forall i | 0 <= i < |shard| :: more[i] == shard[i];
  }

  lemma {:induction false} KnownIsCounted(shard: Shard, committed: Durations)
    ensures |Known(shard, committed)| == |KnownAt(shard, committed)|
  {
    if shard != [] {
      var init, last := shard[..|shard| - 1], shard[|shard| - 1];
      SplitLast(shard);
      KnownIsCounted(init, committed);
      KnownSnoc(init, last, committed);
      KnownAtSnoc(init, last, committed);
    }
  }

  // Half of the tests, or more, have to be known, and their times above zero on both sides.
  lemma FactorIff(shard: Shard, committed: Durations)
    ensures SpeedFactor(shard, committed).Some? <==>
              && shard != [] && 2 * |KnownAt(shard, committed)| >= |shard|
              && Measured(Known(shard, committed)) > 0.0 && Predicted(Known(shard, committed), committed) > 0.0
  {
    KnownIsCounted(shard, committed);
  }

  // ---------- What the sums are ----------

  // A shard's sums are those of its tests ...
  lemma {:induction false} SumsOfSum(a: Shard, b: Shard, divisor: real, committed: Durations)
    requires divisor != 0.0
    ensures ShardSums(a + b, divisor, committed) ==
            Add(ShardSums(a, divisor, committed), ShardSums(b, divisor, committed))
    decreases |b|
  {
    if b == [] {
      SumOfEmpty(a);
    } else {
      var init, last := b[..|b| - 1], b[|b| - 1];
      SplitLast(b);
      SumAssoc(a, init, [last]);
      SumSlices(a + init, [last]);
      SumsOfSum(a, init, divisor, committed);
    }
  }

  // ... each of which counts with its normalized time, as moved by how far that is from
  // the committed time, or as unknown.
  lemma SumsOfOne(e: Entry, divisor: real, committed: Durations)
    requires divisor > 0.0
    ensures var s := ShardSums([e], divisor, committed);
            && s.total * divisor == e.cost
            && (e.test in committed ==>
                  s.unknown == 0.0 && s.moved >= 0.0 &&
                  (s.moved == s.total - committed[e.test] || s.moved == committed[e.test] - s.total))
            && (e.test !in committed ==> s.moved == 0.0 && s.unknown == s.total)
  {
    assert [e][..0] == [];
    assert e.cost / divisor * divisor == e.cost;
  }

  // An offer is the normalized time, for a known test its mean with the committed time.
  lemma WeightOffered(shard: Shard, committed: Durations, i: nat)
    requires i < |shard|
    ensures var o, normalized := Offers(shard, committed)[i], shard[i].cost / Divisor(shard, committed);
            && o.test == shard[i].test
            && (o.test in committed ==> o.cost + o.cost == normalized + committed[o.test])
            && (o.test !in committed ==> o.cost == normalized)
  {
  }
}
