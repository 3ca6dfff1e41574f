// What normalising and blending achieve: runner speed cancels out, a shard's total
// is conserved, and refreshing converges.
module DurationTheorems {
  import opened Options
  import opened TestDurations

  // ---------- Arithmetic ----------

  lemma QuotientMeaning(a: real, b: real, q: real)
    requires b > 0.0
    ensures a / b == q <==> q * b == a
  {
    assert a / b * b == a;
    if q * b == a {
      assert (a / b - q) * b == 0.0;
    }
  }

  // Measuring everything c times as slow divides out.
  lemma SpeedCancels(c: real, x: real, f: real)
    requires c > 0.0 && f > 0.0
    ensures c * f > 0.0 && (c * x) / (c * f) == x / f
  {
    var q := x / f;
    QuotientMeaning(x, f, q);
    assert c * f > 0.0;
    assert q * (c * f) == c * (q * f);
    QuotientMeaning(c * x, c * f, q);
  }

  // ---------- Runner-speed invariance ----------

  function Times(c: real, x: real): real { c * x }

  function Scaled(shard: Shard, c: real): Shard {
    seq(|shard|, i requires 0 <= i < |shard| => Entry(shard[i].test, Times(c, shard[i].cost)))
  }

  lemma ScaledTail(shard: Shard, c: real)
    requires shard != []
    ensures Scaled(shard, c)[1..] == Scaled(shard[1..], c)
    ensures Scaled(shard, c)[..|shard| - 1] == Scaled(shard[..|shard| - 1], c)
  {
  }

  lemma {:induction false} KnownScaled(shard: Shard, c: real, committed: Durations)
    ensures Known(Scaled(shard, c), committed) == Scaled(Known(shard, committed), c)
  {
    if shard != [] {
      ScaledTail(shard, c);
      KnownScaled(shard[1..], c, committed);
    }
  }

  lemma {:induction false} SumsScaled(shard: Shard, c: real, committed: Durations)
    ensures Measured(Scaled(shard, c)) == c * Measured(shard)
    ensures Predicted(Scaled(shard, c), committed) == Predicted(shard, committed)
  {
    if shard != [] {
      ScaledTail(shard, c);
      SumsScaled(shard[1..], c, committed);
      Distribute(c, shard[0].cost, Measured(shard[1..]));
    }
  }

  lemma Distribute(c: real, x: real, y: real)
    ensures c * (x + y) == c * x + c * y
  {
  }

  // The factor is the ratio of what was measured to what was predicted.
  lemma FactorIs(shard: Shard, committed: Durations, f: real)
    requires shard != [] && 2 * |Known(shard, committed)| >= |shard|
    requires Predicted(Known(shard, committed), committed) > 0.0 && Measured(Known(shard, committed)) > 0.0
    requires f * Predicted(Known(shard, committed), committed) == Measured(Known(shard, committed))
    ensures SpeedFactor(shard, committed) == Some(f)
  {
    QuotientMeaning(Measured(Known(shard, committed)), Predicted(Known(shard, committed), committed), f);
  }

  lemma FactorTimesPredicted(shard: Shard, committed: Durations)
    requires SpeedFactor(shard, committed).Some?
    ensures SpeedFactor(shard, committed).value * Predicted(Known(shard, committed), committed) ==
            Measured(Known(shard, committed))
  {
    RatioTimes(Measured(Known(shard, committed)), Predicted(Known(shard, committed), committed));
  }

  lemma RatioTimes(a: real, b: real)
    requires b > 0.0
    ensures (a / b) * b == a
  {
  }

  // A slower runner has a proportionally larger factor.
  lemma FactorScaled(shard: Shard, c: real, committed: Durations)
    requires c > 0.0 && SpeedFactor(shard, committed).Some?
    ensures SpeedFactor(Scaled(shard, c), committed).Some?
    ensures SpeedFactor(Scaled(shard, c), committed).value == Times(c, SpeedFactor(shard, committed).value)
  {
    var known, f := Known(shard, committed), SpeedFactor(shard, committed).value;
    KnownScaled(shard, c, committed);
    SumsScaled(known, c, committed);
    FactorTimesPredicted(shard, committed);
    Positive(c, Measured(known));
    TimesAssoc(c, f, Predicted(known, committed));
    FactorIs(Scaled(shard, c), committed, Times(c, f));
  }

  lemma TimesAssoc(a: real, b: real, c: real)
    ensures (a * b) * c == a * (b * c)
  {
  }

  lemma Positive(c: real, x: real)
    requires c > 0.0 && x > 0.0
    ensures c * x > 0.0
  {
  }

  // ... so what the shard says about its tests does not change.
  lemma OffersScaled(shard: Shard, c: real, committed: Durations)
    requires c > 0.0 && SpeedFactor(shard, committed).Some?
    ensures Offers(Scaled(shard, c), committed) == Offers(shard, committed)
  {
    FactorScaled(shard, c, committed);
    forall i | 0 <= i < |shard|
      ensures Offers(Scaled(shard, c), committed)[i] == Offers(shard, committed)[i]
    {
      BlendedScaled(shard[i], Scaled(shard, c)[i], c, Divisor(shard, committed),
                    Divisor(Scaled(shard, c), committed), committed);
    }
  }

  lemma BlendedScaled(e: Entry, slow: Entry, c: real, divisor: real, slowed: real, committed: Durations)
    requires c > 0.0 && divisor > 0.0 && slowed > 0.0 && slowed == Times(c, divisor)
    requires slow == Entry(e.test, Times(c, e.cost))
    ensures Blended(slow, slowed, committed) == Blended(e, divisor, committed)
  {
    SpeedCancels(c, e.cost, divisor);
  }

  lemma EntrySumsScaled(e: Entry, slow: Entry, c: real, divisor: real, slowed: real, committed: Durations)
    requires c > 0.0 && divisor > 0.0 && slowed > 0.0 && slowed == Times(c, divisor)
    requires slow == Entry(e.test, Times(c, e.cost))
    ensures EntrySums(slow, slowed, committed) == EntrySums(e, divisor, committed)
  {
    SpeedCancels(c, e.cost, divisor);
  }

  lemma {:induction false} ShardSumsScaled(shard: Shard, c: real, divisor: real, slowed: real, committed: Durations)
    requires c > 0.0 && divisor > 0.0 && slowed > 0.0 && slowed == Times(c, divisor)
    ensures ShardSums(Scaled(shard, c), slowed, committed) == ShardSums(shard, divisor, committed)
  {
    if shard != [] {
      var n := |shard| - 1;
      ScaledTail(shard, c);
      ShardSumsScaled(shard[..n], c, divisor, slowed, committed);
      EntrySumsScaled(shard[n], Scaled(shard, c)[n], c, divisor, slowed, committed);
      SumsOfLast(shard, divisor, committed);
      SumsOfLast(Scaled(shard, c), slowed, committed);
    }
  }

  lemma SumsOfLast(shard: Shard, divisor: real, committed: Durations)
    requires shard != [] && divisor > 0.0
    ensures ShardSums(shard, divisor, committed) ==
            Add(ShardSums(shard[..|shard| - 1], divisor, committed), EntrySums(shard[|shard| - 1], divisor, committed))
  {
  }

  lemma SumsOfScaled(shard: Shard, c: real, committed: Durations)
    requires c > 0.0 && SpeedFactor(shard, committed).Some?
    ensures ShardSums(Scaled(shard, c), Divisor(Scaled(shard, c), committed), committed) ==
            ShardSums(shard, Divisor(shard, committed), committed)
  {
    var d := Divisor(shard, committed);
    FactorScaled(shard, c, committed);
    ShardSumsScaled(shard, c, d, Divisor(Scaled(shard, c), committed), committed);
  }

  lemma UpdateBefore<T>(s: seq<T>, n: nat, x: T)
    requires n < |s| - 1
    ensures s[n := x][..|s| - 1] == s[..|s| - 1][n := x] && s[n := x][|s| - 1] == s[|s| - 1]
    ensures s[..|s| - 1][n] == s[n]
  {
  }

  lemma UpdateLast<T>(s: seq<T>, x: T)
    requires s != []
    ensures s[|s| - 1 := x][..|s| - 1] == s[..|s| - 1] && s[|s| - 1 := x][|s| - 1] == x
  {
  }

  lemma {:induction false} AllSumsScaled(shards: seq<Shard>, n: nat, c: real, committed: Durations)
    requires n < |shards| && c > 0.0 && SpeedFactor(shards[n], committed).Some?
    ensures AllSums(shards[n := Scaled(shards[n], c)], committed) == AllSums(shards, committed)
    decreases |shards|
  {
    if n < |shards| - 1 {
      UpdateBefore(shards, n, Scaled(shards[n], c));
      AllSumsScaled(shards[..|shards| - 1], n, c, committed);
    } else {
      UpdateLast(shards, Scaled(shards[n], c));
      SumsOfScaled(shards[n], c, committed);
    }
    LastSums(shards, shards[n := Scaled(shards[n], c)], committed);
  }

  lemma LastSums(a: seq<Shard>, b: seq<Shard>, committed: Durations)
    requires |a| == |b| > 0 && AllSums(a[..|a| - 1], committed) == AllSums(b[..|b| - 1], committed)
    requires ShardSums(a[|a| - 1], Divisor(a[|a| - 1], committed), committed) ==
             ShardSums(b[|b| - 1], Divisor(b[|b| - 1], committed), committed)
    ensures AllSums(a, committed) == AllSums(b, committed)
  {
  }

  lemma SeenScaled(shards: seq<Shard>, n: nat, c: real)
    requires n < |shards|
    ensures Seen(shards[n := Scaled(shards[n], c)]) == Seen(shards)
  {
    var other: seq<Shard> := shards[n := Scaled(shards[n], c)];
    forall t
      ensures t in Seen(shards) <==> t in Seen(other)
    {
      SeenByIndex(shards, t);
      SeenByIndex(other, t);
      assert forall m, i {:trigger RunsAt(shards, m, i, t)} :: RunsAt(shards, m, i, t) <==> RunsAt(other, m, i, t);
    }
  }

  ghost predicate RunsAt(shards: seq<Shard>, m: int, i: int, t: string) {
    0 <= m < |shards| && 0 <= i < |shards[m]| && shards[m][i].test == t
  }

  lemma SeenByIndex(shards: seq<Shard>, t: string)
    ensures t in Seen(shards) <==> exists m, i :: RunsAt(shards, m, i, t)
  {
    if t in Seen(shards) {
      var s: Shard, i :| s in shards && 0 <= i < |s| && s[i].test == t;
      var m :| 0 <= m < |shards| && shards[m] == s;
      assert RunsAt(shards, m, i, t);
    }
    if m, i :| RunsAt(shards, m, i, t) {
      assert shards[m] in shards;
    }
  }

  lemma AllOffersScaled(shards: seq<Shard>, n: nat, c: real, committed: Durations)
    requires n < |shards| && c > 0.0 && SpeedFactor(shards[n], committed).Some?
    ensures AllOffers(shards[n := Scaled(shards[n], c)], committed) == AllOffers(shards, committed)
  {
    OffersScaled(shards[n], c, committed);
  }

  // One runner's speed changes neither the merged file nor the drift report.
  lemma RunnerSpeedDoesNotMatter(shards: seq<Shard>, n: nat, c: real, committed: Durations, merged: Durations)
    requires n < |shards| && c > 0.0 && SpeedFactor(shards[n], committed).Some?
    ensures IsMerge(merged, shards[n := Scaled(shards[n], c)], committed) <==> IsMerge(merged, shards, committed)
    ensures DriftOf(shards[n := Scaled(shards[n], c)], committed) == DriftOf(shards, committed)
  {
    AllOffersScaled(shards, n, c, committed);
    AllSumsScaled(shards, n, c, committed);
    SeenScaled(shards, n, c);
  }

  // ---------- Conservation ----------

  function Total(tests: seq<string>, weights: Durations): real {
    if tests == [] then 0.0 else Weight(weights, tests[0]) + Total(tests[1..], weights)
  }

  function Tests(shard: Shard): seq<string> {
    seq(|shard|, i requires 0 <= i < |shard| => shard[i].test)
  }

  // A shard that ran exactly the tests it is known for.
  ghost predicate AllKnown(shard: Shard, committed: Durations) {
    forall i | 0 <= i < |shard| :: shard[i].test in committed
  }

  lemma {:induction false} AllKnownSums(shard: Shard, committed: Durations)
    requires AllKnown(shard, committed)
    ensures Known(shard, committed) == shard
    ensures Predicted(shard, committed) == Total(Tests(shard), committed)
  {
    if shard != [] {
      AllKnownSums(shard[1..], committed);
      assert Tests(shard)[1..] == Tests(shard[1..]);
    }
  }

  lemma FactorOfKnown(shard: Shard, committed: Durations)
    requires shard != [] && AllKnown(shard, committed)
    requires Total(Tests(shard), committed) > 0.0 && Measured(shard) > 0.0
    ensures SpeedFactor(shard, committed) == Some(Measured(shard) / Total(Tests(shard), committed))
  {
    AllKnownSums(shard, committed);
    QuotientMeaning(Measured(shard), Total(Tests(shard), committed), Measured(shard) / Total(Tests(shard), committed));
    FactorIs(shard, committed, Measured(shard) / Total(Tests(shard), committed));
  }

  // The weights of the shard's own tests, as merged.
  ghost predicate TakesOffers(merged: Durations, shard: Shard, committed: Durations) {
    forall i | 0 <= i < |shard| ::
      shard[i].test in merged && merged[shard[i].test] == Offers(shard, committed)[i].cost
  }

  // No other shard ran a test of this one.
  ghost predicate OwnTests(shards: seq<Shard>, n: nat)
    requires n < |shards|
  {
    && (forall i, j | 0 <= i < j < |shards[n]| :: shards[n][i].test != shards[n][j].test)
    && (forall m, i, j | 0 <= m < |shards| && m != n && 0 <= i < |shards[n]| && 0 <= j < |shards[m]| ::
          shards[n][i].test != shards[m][j].test)
  }

  lemma OwnOffersAreTaken(merged: Durations, shards: seq<Shard>, n: nat, committed: Durations)
    requires n < |shards| && OwnTests(shards, n) && IsMerge(merged, shards, committed)
    ensures TakesOffers(merged, shards[n], committed)
  {
    forall i | 0 <= i < |shards[n]|
      ensures shards[n][i].test in merged && merged[shards[n][i].test] == Offers(shards[n], committed)[i].cost
    {
      OwnOfferIsTaken(merged, shards, n, committed, i);
    }
  }

  lemma OwnOfferIsTaken(merged: Durations, shards: seq<Shard>, n: nat, committed: Durations, i: nat)
    requires n < |shards| && OwnTests(shards, n) && IsMerge(merged, shards, committed) && i < |shards[n]|
    ensures var t := shards[n][i].test; t in merged && merged[t] == Offers(shards[n], committed)[i].cost
  {
    var all, t := AllOffers(shards, committed), shards[n][i].test;
    OfferIsIn(shards, committed, n, i);
    assert t in merged;
    var o :| o in all && Says(o, t, merged[t]);
    var m :| 0 <= m < |all| && all[m] == o;
    var j :| 0 <= j < |o| && o[j] == Entry(t, merged[t]);
    OfferAt(shards, committed, m, j);
    assert m == n && i == j;
  }

  lemma OfferAt(shards: seq<Shard>, committed: Durations, m: nat, j: nat)
    requires m < |shards| && j < |AllOffers(shards, committed)[m]|
    ensures AllOffers(shards, committed)[m] == Offers(shards[m], committed)
    ensures j < |shards[m]| && AllOffers(shards, committed)[m][j].test == shards[m][j].test
  {
  }

  lemma OfferIsIn(shards: seq<Shard>, committed: Durations, n: nat, i: nat)
    requires n < |shards| && i < |shards[n]|
    ensures Offers(shards[n], committed) in AllOffers(shards, committed)
    ensures Offers(shards[n], committed)[i] in Offers(shards[n], committed)
    ensures Offers(shards[n], committed)[i].test == shards[n][i].test
  {
    assert AllOffers(shards, committed)[n] == Offers(shards[n], committed);
  }

  // Dividing by the factor spreads exactly the committed total over the tests.
  lemma {:induction false} NormalizedTotal(shard: Shard, divisor: real)
    requires divisor > 0.0
    ensures Measured(NormalizedShard(shard, divisor)) == Measured(shard) / divisor
  {
    if shard == [] {
      QuotientMeaning(0.0, divisor, 0.0);
    } else {
      var rest := shard[1..];
      assert NormalizedShard(shard, divisor)[1..] == NormalizedShard(rest, divisor);
      NormalizedTotal(rest, divisor);
      SumOfQuotients(shard[0].cost, Measured(rest), divisor);
    }
  }

  function NormalizedShard(shard: Shard, divisor: real): Shard
    requires divisor > 0.0
  {
    seq(|shard|, i requires 0 <= i < |shard| => Entry(shard[i].test, Normalized(shard[i].cost, divisor)))
  }

  lemma SumOfQuotients(a: real, b: real, d: real)
    requires d > 0.0
    ensures a / d + b / d == (a + b) / d
  {
    var x, y := a / d, b / d;
    QuotientMeaning(a, d, x);
    QuotientMeaning(b, d, y);
    Distribute(d, x, y);
    QuotientMeaning(a + b, d, x + y);
  }

  lemma {:induction false} BlendedTotal(shard: Shard, merged: Durations, committed: Durations, divisor: real)
    requires divisor > 0.0 && AllKnown(shard, committed)
    requires forall i | 0 <= i < |shard| ::
               shard[i].test in merged && merged[shard[i].test] == Blended(shard[i], divisor, committed)
    ensures Total(Tests(shard), merged)
         == 0.5 * Measured(NormalizedShard(shard, divisor)) + 0.5 * Total(Tests(shard), committed)
  {
    if shard != [] {
      assert NormalizedShard(shard, divisor)[1..] == NormalizedShard(shard[1..], divisor);
      assert Tests(shard)[1..] == Tests(shard[1..]);
      BlendedTotal(shard[1..], merged, committed, divisor);
      assert merged[shard[0].test] == 0.5 * Normalized(shard[0].cost, divisor) + 0.5 * committed[shard[0].test];
    }
  }

  lemma FactorDividesOut(measured: real, predicted: real)
    requires measured > 0.0 && predicted > 0.0
    ensures measured / predicted > 0.0 && measured / (measured / predicted) == predicted
  {
    var f := measured / predicted;
    QuotientIsPositive(measured, predicted);
    QuotientMeaning(measured, predicted, f);
    assert predicted * f == measured;
    QuotientMeaning(measured, f, predicted);
  }

  // A refresh moves weight between a shard's tests and adds none.
  lemma TotalIsConserved(shards: seq<Shard>, n: nat, committed: Durations, merged: Durations)
    requires n < |shards| && OwnTests(shards, n) && IsMerge(merged, shards, committed)
    requires shards[n] != [] && AllKnown(shards[n], committed)
    requires Total(Tests(shards[n]), committed) > 0.0 && Measured(shards[n]) > 0.0
    ensures Total(Tests(shards[n]), merged) == Total(Tests(shards[n]), committed)
  {
    var shard := shards[n];
    var divisor := Divisor(shard, committed);
    FactorOfKnown(shard, committed);
    OwnOffersAreTaken(merged, shards, n, committed);
    BlendedTotal(shard, merged, committed, divisor);
    NormalizedTotal(shard, divisor);
    FactorDividesOut(Measured(shard), Total(Tests(shard), committed));
  }

  // ---------- A file that is already right ----------

  // A shard whose every measurement is c times the committed weight.
  ghost predicate Proportional(shard: Shard, committed: Durations, c: real)
    requires AllKnown(shard, committed)
  {
    forall i | 0 <= i < |shard| :: shard[i].cost == Times(c, committed[shard[i].test])
  }

  ghost predicate GivesBack(shard: Shard, committed: Durations)
    requires AllKnown(shard, committed)
  {
    forall i | 0 <= i < |shard| :: Offers(shard, committed)[i].cost == committed[shard[i].test]
  }

  // A shard measured in proportion to the committed file gives back that file.
  lemma ProportionalIsFixed(shard: Shard, committed: Durations, c: real)
    requires shard != [] && AllKnown(shard, committed) && c > 0.0 && Proportional(shard, committed, c)
    requires Total(Tests(shard), committed) > 0.0
    ensures SpeedFactor(shard, committed) == Some(c)
    ensures GivesBack(shard, committed)
    ensures ShardSums(shard, c, committed).moved == 0.0 && ShardSums(shard, c, committed).unknown == 0.0
  {
    var total := Total(Tests(shard), committed);
    ProportionalTotal(shard, committed, c);
    Positive(c, total);
    AllKnownSums(shard, committed);
    FactorIs(shard, committed, c);
    ProportionalOffers(shard, committed, c);
    ProportionalDrift(shard, committed, c);
  }

  lemma ProportionalOffers(shard: Shard, committed: Durations, c: real)
    requires AllKnown(shard, committed) && c > 0.0 && Proportional(shard, committed, c)
    requires Divisor(shard, committed) == c
    ensures GivesBack(shard, committed)
  {
    forall i | 0 <= i < |shard|
      ensures Offers(shard, committed)[i].cost == committed[shard[i].test]
    {
      var w := committed[shard[i].test];
      QuotientMeaning(shard[i].cost, c, w);
    }
  }

  lemma {:induction false} ProportionalTotal(shard: Shard, committed: Durations, c: real)
    requires AllKnown(shard, committed)
    requires Proportional(shard, committed, c)
    ensures Measured(shard) == c * Total(Tests(shard), committed)
  {
    if shard != [] {
      assert Tests(shard)[1..] == Tests(shard[1..]);
      ProportionalTotal(shard[1..], committed, c);
      Distribute(c, committed[shard[0].test], Total(Tests(shard[1..]), committed));
    }
  }

  lemma {:induction false} ProportionalDrift(shard: Shard, committed: Durations, c: real)
    requires c > 0.0 && AllKnown(shard, committed)
    requires Proportional(shard, committed, c)
    ensures ShardSums(shard, c, committed).moved == 0.0 && ShardSums(shard, c, committed).unknown == 0.0
  {
    if shard != [] {
      var init, last := shard[..|shard| - 1], shard[|shard| - 1];
      ProportionalDrift(init, committed, c);
      QuotientMeaning(last.cost, c, committed[last.test]);
    }
  }

  // ---------- A suite that is already right ----------

  ghost predicate NoNegativeWeight(committed: Durations) {
    forall t | t in committed :: committed[t] >= 0.0
  }

  // Every shard ran known tests, each in proportion at the speed of its runner.
  ghost predicate SuiteProportional(shards: seq<Shard>, committed: Durations, speeds: seq<real>) {
    && |speeds| == |shards|
    && forall n | 0 <= n < |shards| ::
         AllKnown(shards[n], committed) && speeds[n] > 0.0 && Proportional(shards[n], committed, speeds[n])
  }

  // Nothing a shard says differs from the committed file.
  ghost predicate Settled(shard: Shard, committed: Durations)
    requires AllKnown(shard, committed)
  {
    && GivesBack(shard, committed)
    && ShardSums(shard, Divisor(shard, committed), committed).moved == 0.0
    && ShardSums(shard, Divisor(shard, committed), committed).unknown == 0.0
  }

  lemma {:induction false} TotalOfNone(shard: Shard, committed: Durations)
    requires AllKnown(shard, committed) && NoNegativeWeight(committed)
    ensures Total(Tests(shard), committed) >= 0.0
    ensures Total(Tests(shard), committed) == 0.0 ==> forall i | 0 <= i < |shard| :: committed[shard[i].test] == 0.0
  {
    if shard != [] {
      assert Tests(shard)[1..] == Tests(shard[1..]);
      TotalOfNone(shard[1..], committed);
      assert forall i | 1 <= i < |shard| :: shard[i] == shard[1..][i - 1];
    }
  }

  // Tests that weigh nothing and took no time: no factor, and nothing to divide.
  lemma WeightlessIsProportional(shard: Shard, committed: Durations, c: real)
    requires AllKnown(shard, committed) && Proportional(shard, committed, c)
    requires NoNegativeWeight(committed) && Total(Tests(shard), committed) == 0.0
    ensures Divisor(shard, committed) == 1.0 && Proportional(shard, committed, 1.0)
  {
    TotalOfNone(shard, committed);
    AllKnownSums(shard, committed);
    forall i | 0 <= i < |shard|
      ensures shard[i].cost == Times(1.0, committed[shard[i].test])
    {
      assert shard[i].cost == Times(c, 0.0);
    }
  }

  lemma ShardIsSettled(shard: Shard, committed: Durations, c: real)
    requires AllKnown(shard, committed) && c > 0.0 && Proportional(shard, committed, c)
    requires NoNegativeWeight(committed)
    ensures Settled(shard, committed)
  {
    TotalOfNone(shard, committed);
    if Total(Tests(shard), committed) > 0.0 {
      assert shard != [];
      ProportionalIsFixed(shard, committed, c);
    } else {
      WeightlessIsProportional(shard, committed, c);
      ProportionalOffers(shard, committed, 1.0);
      ProportionalDrift(shard, committed, 1.0);
    }
  }

  ghost predicate AllSettled(shards: seq<Shard>, committed: Durations) {
    forall n | 0 <= n < |shards| :: AllKnown(shards[n], committed) && Settled(shards[n], committed)
  }

  lemma {:induction false} SettledSums(shards: seq<Shard>, committed: Durations)
    requires AllSettled(shards, committed)
    ensures AllSums(shards, committed).moved == 0.0 && AllSums(shards, committed).unknown == 0.0
  {
    if shards != [] {
      SettledSums(shards[..|shards| - 1], committed);
      assert Settled(shards[|shards| - 1], committed);
    }
  }

  lemma WeightOffered(shards: seq<Shard>, committed: Durations, merged: Durations, t: string) returns (m: nat, j: nat)
    requires IsMerge(merged, shards, committed) && t in merged
    ensures RunsAt(shards, m, j, t) && Offers(shards[m], committed)[j].cost == merged[t]
  {
    var all := AllOffers(shards, committed);
    var o :| o in all && Says(o, t, merged[t]);
    m :| 0 <= m < |all| && all[m] == o;
    j :| 0 <= j < |o| && o[j] == Entry(t, merged[t]);
    OfferAt(shards, committed, m, j);
  }

  lemma SettledWeight(shards: seq<Shard>, committed: Durations, merged: Durations, t: string)
    requires AllSettled(shards, committed) && IsMerge(merged, shards, committed) && t in merged
    ensures t in Seen(shards) && t in committed && merged[t] == committed[t]
  {
    var m, j := WeightOffered(shards, committed, merged, t);
    SeenByIndex(shards, t);
    assert AllKnown(shards[m], committed) && GivesBack(shards[m], committed);
  }

  lemma SeenIsMerged(shards: seq<Shard>, committed: Durations, merged: Durations, t: string)
    requires IsMerge(merged, shards, committed) && t in Seen(shards)
    ensures t in merged
  {
    SeenByIndex(shards, t);
    var m, i :| RunsAt(shards, m, i, t);
    OfferIsIn(shards, committed, m, i);
  }

  lemma SettledMerge(shards: seq<Shard>, committed: Durations, merged: Durations)
    requires AllSettled(shards, committed) && IsMerge(merged, shards, committed)
    ensures merged.Keys == Seen(shards) && forall t | t in merged :: t in committed && merged[t] == committed[t]
  {
    forall t | t in merged
      ensures t in Seen(shards) && t in committed && merged[t] == committed[t]
    {
      SettledWeight(shards, committed, merged, t);
    }
    forall t | t in Seen(shards)
      ensures t in merged
    {
      SeenIsMerged(shards, committed, merged, t);
    }
  }

  lemma AllAreSettled(shards: seq<Shard>, committed: Durations, speeds: seq<real>)
    requires NoNegativeWeight(committed) && SuiteProportional(shards, committed, speeds)
    ensures AllSettled(shards, committed)
  {
    forall n | 0 <= n < |shards|
      ensures AllKnown(shards[n], committed) && Settled(shards[n], committed)
    {
      ShardIsSettled(shards[n], committed, speeds[n]);
    }
  }

  // Whoever ran what, and on runners of whatever speeds: measurements in proportion to
  // the committed file give back that file, for the tests that ran, and no drift.
  lemma ProportionalSuiteIsFixed(shards: seq<Shard>, committed: Durations, merged: Durations, speeds: seq<real>)
    requires NoNegativeWeight(committed) && SuiteProportional(shards, committed, speeds)
    requires IsMerge(merged, shards, committed)
    ensures merged.Keys == Seen(shards) && forall t | t in merged :: t in committed && merged[t] == committed[t]
    ensures var d := DriftOf(shards, committed);
            d.moved == 0.0 && d.unknown == 0.0 && d.added == 0 && d.removed == |committed.Keys - merged.Keys|
  {
    AllAreSettled(shards, committed, speeds);
    SettledMerge(shards, committed, merged);
    SettledSums(shards, committed);
    assert Seen(shards) - committed.Keys == {};
    NothingMoved(AllSums(shards, committed), Seen(shards), committed);
  }

  lemma NothingMoved(sums: Sums, seen: set<string>, committed: Durations)
    requires sums.moved == 0.0 && sums.unknown == 0.0
    ensures ReportOf(sums, seen, committed).moved == 0.0 && ReportOf(sums, seen, committed).unknown == 0.0
  {
    if sums.total > 0.0 {
      QuotientMeaning(0.0, sums.total, 0.0);
    }
  }

  // ---------- Convergence ----------

  function Pow2(n: nat): (p: real)
    ensures p > 0.0
  {
    if n == 0 then 1.0 else 2.0 * Pow2(n - 1)
  }

  // What relative costs make of a total.
  function Target(cost: real, costs: real, total: real): real
    requires costs > 0.0
  {
    cost * total / costs
  }

  predicate Weighs(weights: Durations, tests: seq<string>) {
    forall t | t in tests :: t in weights
  }

  // A shard's measurements on a runner of speed `c`, for tests that really cost `costs`.
  function RunOn(tests: seq<string>, costs: Durations, c: real): Shard
    requires Weighs(costs, tests)
  {
    seq(|tests|, i requires 0 <= i < |tests| => Entry(tests[i], Times(c, costs[tests[i]])))
  }

  lemma {:induction false} RunTotal(tests: seq<string>, costs: Durations, c: real)
    requires Weighs(costs, tests)
    ensures Measured(RunOn(tests, costs, c)) == c * Total(tests, costs)
    ensures Tests(RunOn(tests, costs, c)) == tests
  {
    if tests != [] {
      assert RunOn(tests, costs, c)[1..] == RunOn(tests[1..], costs, c);
      RunTotal(tests[1..], costs, c);
      Distribute(c, costs[tests[0]], Total(tests[1..], costs));
    }
  }

  // The cost a normalised measurement stands for does not depend on the runner.
  lemma RunQuotient(c: real, cost: real, costs: real, total: real, divisor: real)
    requires costs > 0.0 && total > 0.0 && divisor > 0.0 && Times(divisor, total) == Times(c, costs)
    ensures Normalized(Times(c, cost), divisor) == Target(cost, costs, total)
  {
    var q := Target(cost, costs, total);
    QuotientMeaning(cost * total, costs, q);
    assert q * divisor * total == q * (divisor * total);
    assert q * (c * costs) == c * (q * costs);
    assert c * (cost * total) == (c * cost) * total;
    assert (q * divisor - c * cost) * total == 0.0;
    QuotientMeaning(c * cost, divisor, q);
  }

  function Halfway(target: real, start: real): real { 0.5 * target + 0.5 * start }

  lemma RunShape(shard: Shard, tests: seq<string>, costs: Durations, c: real, committed: Durations)
    requires Weighs(costs, tests) && Weighs(committed, tests) && shard == RunOn(tests, costs, c)
    requires c > 0.0 && Total(tests, costs) > 0.0
    ensures AllKnown(shard, committed) && Tests(shard) == tests
    ensures Measured(shard) == Times(c, Total(tests, costs)) > 0.0
  {
    RunTotal(tests, costs, c);
    Positive(c, Total(tests, costs));
  }

  lemma KnownDivisor(shard: Shard, committed: Durations, total: real)
    requires shard != [] && AllKnown(shard, committed) && total == Total(Tests(shard), committed) > 0.0
    requires Measured(shard) > 0.0
    ensures Times(Divisor(shard, committed), total) == Measured(shard)
  {
    FactorOfKnown(shard, committed);
    RatioIs(Measured(shard), total, Divisor(shard, committed));
  }

  lemma RatioIs(a: real, b: real, d: real)
    requires b > 0.0 && d == a / b
    ensures Times(d, b) == a
  {
    QuotientMeaning(a, b, d);
  }

  lemma RunIsKnown(shard: Shard, tests: seq<string>, costs: Durations, c: real, committed: Durations)
    requires Weighs(costs, tests) && Weighs(committed, tests) && shard == RunOn(tests, costs, c)
    requires tests != [] && c > 0.0 && Total(tests, costs) > 0.0 && Total(tests, committed) > 0.0
    ensures AllKnown(shard, committed) && Measured(shard) > 0.0 && Tests(shard) == tests
    ensures Times(Divisor(shard, committed), Total(tests, committed)) == Times(c, Total(tests, costs))
  {
    RunShape(shard, tests, costs, c, committed);
    KnownDivisor(shard, committed, Total(tests, committed));
  }

  lemma OfferIs(shard: Shard, committed: Durations, i: nat)
    requires i < |shard| && shard[i].test in committed
    ensures Offers(shard, committed)[i].cost ==
            Halfway(Normalized(shard[i].cost, Divisor(shard, committed)), committed[shard[i].test])
  {
  }

  // One refresh halves every test's distance to its target.
  lemma OneRefresh(shards: seq<Shard>, n: nat, committed: Durations, merged: Durations,
                   tests: seq<string>, costs: Durations, c: real, test: string)
    requires n < |shards| && OwnTests(shards, n) && IsMerge(merged, shards, committed)
    requires Weighs(costs, tests) && Weighs(committed, tests) && c > 0.0 && test in tests
    requires shards[n] == RunOn(tests, costs, c)
    requires Total(tests, costs) > 0.0 && Total(tests, committed) > 0.0
    ensures test in merged
    ensures merged[test] == Halfway(Target(costs[test], Total(tests, costs), Total(tests, committed)), committed[test])
    ensures Total(tests, merged) == Total(tests, committed)
  {
    OwnOffersAreTaken(merged, shards, n, committed);
    TakenWeight(shards[n], committed, merged, tests, costs, c, test);
    RunIsKnown(shards[n], tests, costs, c, committed);
    TotalIsConserved(shards, n, committed, merged);
  }

  lemma TakenWeight(shard: Shard, committed: Durations, merged: Durations, tests: seq<string>,
                    costs: Durations, c: real, test: string)
    requires TakesOffers(merged, shard, committed) && Weighs(costs, tests) && Weighs(committed, tests)
    requires c > 0.0 && test in tests && shard == RunOn(tests, costs, c)
    requires Total(tests, costs) > 0.0 && Total(tests, committed) > 0.0
    ensures test in merged
    ensures merged[test] == Halfway(Target(costs[test], Total(tests, costs), Total(tests, committed)), committed[test])
  {
    RunIsKnown(shard, tests, costs, c, committed);
    var i :| 0 <= i < |tests| && tests[i] == test;
    assert shard[i].test == test && shard[i].cost == Times(c, costs[test]);
    OfferIs(shard, committed, i);
    RunQuotient(c, costs[test], Total(tests, costs), Total(tests, committed), Divisor(shard, committed));
  }

  // A history of refreshes: file k is merged into file k + 1.
  ghost predicate Refreshes(files: seq<Durations>, runs: seq<seq<Shard>>) {
    |files| == |runs| + 1 && forall k | 0 <= k < |runs| :: IsMerge(files[k + 1], runs[k], files[k])
  }

  // Shard `n` always runs `tests`, on a runner of any speed, at the same real costs.
  ghost predicate StableShard(runs: seq<seq<Shard>>, n: nat, tests: seq<string>, costs: Durations, speeds: seq<real>) {
    && |speeds| == |runs| && Weighs(costs, tests)
    && forall k | 0 <= k < |runs| :: RunsAlone(runs[k], n, tests, costs, speeds[k])
  }

  ghost predicate RunsAlone(shards: seq<Shard>, n: nat, tests: seq<string>, costs: Durations, speed: real)
    requires Weighs(costs, tests)
  {
    n < |shards| && OwnTests(shards, n) && speed > 0.0 && shards[n] == RunOn(tests, costs, speed)
  }

  lemma Halve(target: real, start: real, p: real)
    requires p > 0.0
    ensures Halfway(target, target + (start - target) / p) == target + (start - target) / (2.0 * p)
  {
    var d := (start - target) / p;
    QuotientMeaning(start - target, p, d);
    assert (0.5 * d) * (2.0 * p) == d * p;
    QuotientMeaning(start - target, 2.0 * p, 0.5 * d);
  }

  lemma StepOfHistory(shards: seq<Shard>, n: nat, before: Durations, after: Durations, tests: seq<string>,
                      costs: Durations, c: real, test: string)
    requires IsMerge(after, shards, before) && Weighs(costs, tests) && RunsAlone(shards, n, tests, costs, c)
    requires Weighs(before, tests) && test in tests && Total(tests, costs) > 0.0 && Total(tests, before) > 0.0
    ensures Weighs(after, tests) && Total(tests, after) == Total(tests, before)
    ensures after[test] == Halfway(Target(costs[test], Total(tests, costs), Total(tests, before)), before[test])
  {
    forall t | t in tests
      ensures t in after
    {
      OneRefresh(shards, n, before, after, tests, costs, c, t);
    }
    OneRefresh(shards, n, before, after, tests, costs, c, test);
  }

  ghost predicate History(files: seq<Durations>, runs: seq<seq<Shard>>, n: nat, tests: seq<string>,
                          costs: Durations, speeds: seq<real>)
  {
    && Refreshes(files, runs) && StableShard(runs, n, tests, costs, speeds)
    && Weighs(files[0], tests) && Total(tests, costs) > 0.0 && Total(tests, files[0]) > 0.0
  }

  // The distance to the target after `k` halvings.
  function Approached(target: real, start: real, k: nat): real {
    target + (start - target) / Pow2(k)
  }

  lemma NoStepYet(target: real, start: real)
    ensures Approached(target, start, 0) == start
  {
    QuotientMeaning(start - target, 1.0, start - target);
  }

  lemma OneStepCloser(target: real, start: real, k: nat)
    requires k > 0
    ensures Halfway(target, Approached(target, start, k - 1)) == Approached(target, start, k)
  {
    Halve(target, start, Pow2(k - 1));
  }

  lemma {:induction false} TotalStays(files: seq<Durations>, runs: seq<seq<Shard>>, n: nat, tests: seq<string>,
                                      costs: Durations, speeds: seq<real>, test: string, k: nat)
    requires History(files, runs, n, tests, costs, speeds) && test in tests && k <= |runs|
    ensures Weighs(files[k], tests) && Total(tests, files[k]) == Total(tests, files[0])
  {
    if k > 0 {
      TotalStays(files, runs, n, tests, costs, speeds, test, k - 1);
      RunStep(files, runs, n, tests, costs, speeds, test, k);
    }
  }

  lemma RunStep(files: seq<Durations>, runs: seq<seq<Shard>>, n: nat, tests: seq<string>,
                costs: Durations, speeds: seq<real>, test: string, k: nat)
    requires History(files, runs, n, tests, costs, speeds) && test in tests && 0 < k <= |runs|
    requires Weighs(files[k - 1], tests) && Total(tests, files[k - 1]) == Total(tests, files[0])
    ensures Weighs(files[k], tests) && Total(tests, files[k]) == Total(tests, files[0])
    ensures files[k][test] ==
            Halfway(Target(costs[test], Total(tests, costs), Total(tests, files[0])), files[k - 1][test])
  {
    assert IsMerge(files[k - 1 + 1], runs[k - 1], files[k - 1]);
    assert RunsAlone(runs[k - 1], n, tests, costs, speeds[k - 1]);
    StepOfHistory(runs[k - 1], n, files[k - 1], files[k], tests, costs, speeds[k - 1], test);
  }

  // After k refreshes the distance to the target is the 2^k-th part of what it was.
  lemma {:induction false} GeometricConvergence(files: seq<Durations>, runs: seq<seq<Shard>>, n: nat,
                                                tests: seq<string>, costs: Durations, speeds: seq<real>,
                                                test: string, target: real, k: nat)
    requires History(files, runs, n, tests, costs, speeds) && test in tests && k <= |runs|
    requires target == Target(costs[test], Total(tests, costs), Total(tests, files[0]))
    ensures test in files[k] && files[k][test] == Approached(target, files[0][test], k)
  {
    if k == 0 {
      NoStepYet(target, files[0][test]);
    } else {
      TotalStays(files, runs, n, tests, costs, speeds, test, k - 1);
      GeometricConvergence(files, runs, n, tests, costs, speeds, test, target, k - 1);
      RunStep(files, runs, n, tests, costs, speeds, test, k);
      OneStepCloser(target, files[0][test], k);
    }
  }
}
