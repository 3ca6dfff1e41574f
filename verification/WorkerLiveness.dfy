// The liveness probe of backend/app/worker_liveness.py, composed with the kubelet's
// count of consecutive failures. Times are reals.
module WorkerLiveness {
  import opened Options

  function Decide(now: real, firstFailure: Option<real>, pingOk: bool, reachable: bool, grace: real)
    : (r: (bool, Option<real>))
  {
    if pingOk then (true, None)
    else
      var started := if firstFailure.None? then now else firstFailure.value;
      if !reachable && now - started < grace then (true, Some(started))
      else (false, Some(started))
  }

  // What one probe saw, and whether it could write (or remove) its state file.
  datatype Sight = Sight(now: real, pingOk: bool, reachable: bool, written: bool)

  // The container's state file, and `main`.
  class Container {
    var firstFailure: Option<real>
    const grace: real

    constructor (grace: real)
      ensures this.grace == grace && firstFailure == None
    {
      this.grace := grace;
      firstFailure := None;
    }

    method Probe(seen: Sight) returns (code: int)
      modifies this
      ensures code == (if Decide(seen.now, old(firstFailure), seen.pingOk, seen.reachable, grace).0 then 0 else 1)
      ensures firstFailure == (if seen.written
                               then Decide(seen.now, old(firstFailure), seen.pingOk, seen.reachable, grace).1
                               else old(firstFailure))
    {
      var (alive, started) := Decide(seen.now, firstFailure, seen.pingOk, seen.reachable, grace);
      if seen.written {
        firstFailure := started;
      }
      code := if alive then 0 else 1;
    }

    // One container's life under a kubelet that restarts it at `threshold` failures in
    // a row: how many probes it lived through.
    method Live(run: seq<Sight>, threshold: nat) returns (probes: nat)
      requires firstFailure == None && threshold > 0
      modifies this
      ensures probes <= |run| && firstFailure == StateAfter(run[..probes], grace)
      ensures forall m | 0 <= m < probes :: Failures(run[..m], grace) < threshold
      ensures probes < |run| ==> Failures(run[..probes], grace) >= threshold
    {
      probes := 0;
      var failures: nat := 0;
      while probes < |run| && failures < threshold
        invariant probes <= |run| && failures == Failures(run[..probes], grace)
        invariant firstFailure == StateAfter(run[..probes], grace)
        invariant forall m | 0 <= m < probes :: Failures(run[..m], grace) < threshold
      {
        var code := Probe(run[probes]);
        assert run[..probes + 1][..probes] == run[..probes];
        failures := if code == 0 then 0 else failures + 1;
        probes := probes + 1;
      }
    }
  }

  // ---------- Runs ----------

  function StateAfter(run: seq<Sight>, grace: real): Option<real> {
    if run == [] then None
    else
      var last, state := run[|run| - 1], StateAfter(run[..|run| - 1], grace);
      if last.written then Decide(last.now, state, last.pingOk, last.reachable, grace).1 else state
  }

  predicate AliveAt(run: seq<Sight>, grace: real, i: nat)
    requires i < |run|
  {
    Decide(run[i].now, StateAfter(run[..i], grace), run[i].pingOk, run[i].reachable, grace).0
  }

  // The kubelet's count after a run.
  function Failures(run: seq<Sight>, grace: real): nat {
    if run == [] || AliveAt(run, grace, |run| - 1) then 0 else Failures(run[..|run| - 1], grace) + 1
  }

  ghost predicate RestartedBy(run: seq<Sight>, grace: real, threshold: nat, n: nat)
    requires n <= |run|
  {
    exists m | 0 <= m <= n :: Failures(run[..m], grace) >= threshold
  }

  // The first `from` probes end with a good ping, or there are none; those from there up
  // to `end` all failed. The good ping and the first failure were recorded.
  ghost predicate Outage(run: seq<Sight>, from: nat, end: nat) {
    && from <= end <= |run| && (from == 0 || (run[from - 1].pingOk && run[from - 1].written))
    && (forall i | from <= i < end :: !run[i].pingOk) && (from < end ==> run[from].written)
  }

  // ---------- What the state means ----------

  // A failure whose time was recorded, and a good ping that removed such a time.
  predicate Records(seen: Sight) { !seen.pingOk && seen.written }

  predicate Clears(seen: Sight) { seen.pingOk && seen.written }

  // Nothing recorded is left.
  ghost predicate Cleared(run: seq<Sight>, n: nat)
    requires n <= |run|
  {
    forall i | 0 <= i < n && Records(run[i]) :: exists j | i < j < n :: Clears(run[j])
  }

  // Probe `f` is the first that was recorded since the last clearing.
  ghost predicate StartsAt(run: seq<Sight>, f: nat, n: nat)
    requires n <= |run|
  {
    f < n && Records(run[f]) && Cleared(run, f) && forall j | f < j < n :: !Clears(run[j])
  }

  // Whatever could be written and whatever the broker did, the file holds the time of
  // the first failure recorded since the last recorded good ping, or nothing.
  lemma {:induction false} StateMeaning(run: seq<Sight>, grace: real, n: nat) returns (f: nat)
    requires n <= |run|
    ensures Cleared(run, n) ==> StateAfter(run[..n], grace) == None
    ensures !Cleared(run, n) ==> StartsAt(run, f, n) && StateAfter(run[..n], grace) == Some(run[f].now)
  {
    f := 0;
    if n > 0 {
      var last := run[n - 1];
      assert run[..n][..n - 1] == run[..n - 1];
      f := StateMeaning(run, grace, n - 1);
      ClearedMore(run, n - 1);
      if Records(last) && Cleared(run, n - 1) {
        f := n - 1;
      }
    }
  }

  lemma ClearedMore(run: seq<Sight>, n: nat)
    requires n < |run|
    ensures Clears(run[n]) ==> Cleared(run, n + 1)
    ensures !Clears(run[n]) ==> (Cleared(run, n + 1) <==> Cleared(run, n) && !Records(run[n]))
  {
    if !Clears(run[n]) && Cleared(run, n) && !Records(run[n]) {
      forall i | 0 <= i < n + 1 && Records(run[i])
        ensures exists j | i < j < n + 1 :: Clears(run[j])
      {
        assert exists j | i < j < n :: Clears(run[j]);
      }
    }
  }

  // In an outage that is the first failure of all: a flap never renews the grace.
  lemma {:induction false} StateIsFirstFailure(run: seq<Sight>, grace: real, from: nat, end: nat)
    requires Outage(run, from, end)
    ensures StateAfter(run[..end], grace) == (if from == end then None else Some(run[from].now))
    decreases end
  {
    if end > 0 {
      assert run[..end][..end - 1] == run[..end - 1];
      if from < end {
        StateIsFirstFailure(run, grace, from, end - 1);
      }
    }
  }

  // When a failed probe counts, whatever could be written: out of the grace that began
  // with `f`, or, with nothing recorded, when there is no grace at all.
  lemma CountsWhen(run: seq<Sight>, grace: real, i: nat, f: nat)
    requires i < |run| && !run[i].pingOk
    ensures Cleared(run, i) ==> (!AliveAt(run, grace, i) <==> run[i].reachable || grace <= 0.0)
    ensures StartsAt(run, f, i) ==>
              (!AliveAt(run, grace, i) <==> run[i].reachable || run[i].now - run[f].now >= grace)
  {
    var g := StateMeaning(run, grace, i);
    if StartsAt(run, f, i) {
      OneStart(run, f, g, i);
    }
  }

  lemma OneStart(run: seq<Sight>, f: nat, g: nat, n: nat)
    requires n <= |run| && StartsAt(run, f, n)
    ensures !Cleared(run, n) && (StartsAt(run, g, n) ==> f == g)
  {
    assert Records(run[f]) && !exists j | f < j < n :: Clears(run[j]);
  }

  // When a failed probe of an outage counts.
  lemma CountsIff(run: seq<Sight>, grace: real, from: nat, i: nat)
    requires i < |run| && Outage(run, from, i + 1) && from <= i
    ensures !AliveAt(run, grace, i) <==> run[i].reachable || run[i].now - run[from].now >= grace
  {
    StateIsFirstFailure(run, grace, from, i);
  }

  lemma {:induction false} DeadRow(run: seq<Sight>, grace: real, first: nat, n: nat)
    requires first <= n <= |run|
    requires forall i | first <= i < n :: !AliveAt(run, grace, i)
    ensures Failures(run[..n], grace) >= n - first
    decreases n
  {
    if first < n {
      DeadRow(run, grace, first, n - 1);
      FailuresStep(run, grace, n - 1);
    }
  }

  lemma FailuresStep(run: seq<Sight>, grace: real, n: nat)
    requires n < |run|
    ensures Failures(run[..n + 1], grace) == (if AliveAt(run, grace, n) then 0 else Failures(run[..n], grace) + 1)
  {
    assert run[..n + 1][..n] == run[..n];
  }

  // ---------- The promises ----------

  // A worker silent on a reachable broker fails at every probe, so `threshold` of them restart it.
  lemma SilentWorkerIsRestarted(run: seq<Sight>, grace: real, first: nat, threshold: nat)
    requires first + threshold <= |run|
    requires forall i | first <= i < first + threshold :: !run[i].pingOk && run[i].reachable
    ensures forall i | first <= i < first + threshold :: !AliveAt(run, grace, i)
    ensures RestartedBy(run, grace, threshold, first + threshold)
  {
    DeadRow(run, grace, first, first + threshold);
  }

  ghost predicate Forgiven(run: seq<Sight>, grace: real, i: nat)
    requires i < |run|
  {
    run[i].pingOk || (!run[i].reachable && exists from | 0 <= from <= i :: StartedAt(run, grace, from, i))
  }

  ghost predicate StartedAt(run: seq<Sight>, grace: real, from: nat, i: nat)
    requires from <= i < |run|
  {
    Outage(run, from, i + 1) && run[i].now - run[from].now < grace
  }

  // Nothing is held against a worker while every failed probe found the broker
  // unreachable, within the grace.
  lemma {:induction false} NoRestartWithinGrace(run: seq<Sight>, grace: real, n: nat)
    requires n <= |run| && forall i | 0 <= i < n :: Forgiven(run, grace, i)
    ensures Failures(run[..n], grace) == 0
  {
    if n > 0 {
      FailuresStep(run, grace, n - 1);
      assert Forgiven(run, grace, n - 1);
      if !run[n - 1].pingOk {
        var from :| 0 <= from <= n - 1 && StartedAt(run, grace, from, n - 1);
        CountsIff(run, grace, from, n - 1);
      }
    }
  }

  // While nothing can be written every probe starts the grace anew: with the broker down
  // no failure is ever counted, however long that lasts.
  lemma {:induction false} UnwrittenIsForgiven(run: seq<Sight>, grace: real, n: nat)
    requires n <= |run| && grace > 0.0
    requires forall i | 0 <= i < n :: run[i].pingOk || (!run[i].reachable && !run[i].written)
    ensures Failures(run[..n], grace) == 0 && StateAfter(run[..n], grace) == None
  {
    if n > 0 {
      UnwrittenIsForgiven(run, grace, n - 1);
      FailuresStep(run, grace, n - 1);
      assert run[..n][..n - 1] == run[..n - 1];
    }
  }

  function Periods(n: nat, period: real): real {
    if n == 0 then 0.0 else Periods(n - 1, period) + period
  }

  lemma {:induction false} PeriodsAdd(a: nat, b: nat, period: real)
    ensures Periods(a + b, period) == Periods(a, period) + Periods(b, period)
  {
    if b > 0 {
      PeriodsAdd(a, b - 1, period);
    }
  }

  lemma {:induction false} PeriodsGrow(a: nat, b: nat, period: real)
    requires period > 0.0
    ensures a <= b <==> Periods(a, period) <= Periods(b, period)
  {
    if a == b {
    } else if a < b {
      if a < b - 1 { PeriodsGrow(a, b - 1, period); }
    } else {
      if b < a - 1 { PeriodsGrow(a - 1, b, period); }
    }
  }

  function Times(a: real, b: real): real { a * b }

  lemma OneMore(a: real, b: real)
    ensures Times(a + 1.0, b) == Times(a, b) + b && Times(0.0, b) == 0.0
  {
  }

  lemma {:induction false} PeriodsProduct(n: nat, period: real)
    ensures Periods(n, period) == Times(n as real, period)
  {
    if n == 0 {
      OneMore(0.0, period);
    } else {
      PeriodsProduct(n - 1, period);
      OneMore((n - 1) as real, period);
      assert n as real == (n - 1) as real + 1.0;
    }
  }

  // Probes come at most `period` apart.
  ghost predicate Every(run: seq<Sight>, period: real) {
    forall i | 0 <= i < |run| - 1 :: run[i + 1].now - run[i].now <= period
  }

  lemma {:induction false} Spread(run: seq<Sight>, period: real, i: nat, j: nat)
    requires i <= j < |run| && Every(run, period)
    ensures run[j].now - run[i].now <= Periods(j - i, period)
    decreases j
  {
    if i < j {
      Spread(run, period, i, j - 1);
      assert run[j - 1 + 1].now - run[j - 1].now <= period;
    }
  }

  // Whatever the broker does, a failed probe that comes grace + threshold periods after
  // the last good ping finds the worker restarted, if not earlier.
  lemma RestartBound(run: seq<Sight>, grace: real, period: real, threshold: nat, from: nat, n: nat)
    requires threshold > 0 && grace >= 0.0 && period > 0.0 && Every(run, period)
    requires 0 < from <= n < |run| && Outage(run, from, n + 1)
    requires run[n].now >= run[from - 1].now + grace + Periods(threshold, period)
    ensures RestartedBy(run, grace, threshold, n + 1)
  {
    Spread(run, period, from - 1, n);
    PeriodsGrow(threshold, n - (from - 1), period);
    var first := n + 1 - threshold;
    forall i | first <= i < n + 1
      ensures !AliveAt(run, grace, i)
    {
      PastGrace(run, grace, period, threshold, from, n, i);
      assert Outage(run, from, i + 1);
      CountsIff(run, grace, from, i);
    }
    DeadRow(run, grace, first, n + 1);
  }

  // The last `threshold` of those probes are all out of grace.
  lemma PastGrace(run: seq<Sight>, grace: real, period: real, threshold: nat, from: nat, n: nat, i: nat)
    requires period > 0.0 && Every(run, period) && 0 < from <= n < |run|
    requires n + 1 - threshold <= i <= n && from <= i
    requires run[n].now >= run[from - 1].now + grace + Periods(threshold, period)
    ensures run[i].now - run[from].now >= grace
  {
    Spread(run, period, i, n);
    assert run[from - 1 + 1].now - run[from - 1].now <= period;
    PeriodsGrow(n - i + 1, threshold, period);
  }

  // ---------- Probes at an exact period ----------

  lemma TimesGrows(a: real, b: real, c: real)
    requires a <= b && c > 0.0
    ensures Times(a, c) <= Times(b, c) && (a < b ==> Times(a, c) < Times(b, c))
  {
    Product(b - a, c);
    Differ(b, a, c);
  }

  lemma Differ(a: real, b: real, c: real)
    ensures Times(a - b, c) == Times(a, c) - Times(b, c)
  {
  }

  lemma Product(a: real, b: real)
    requires a >= 0.0 && b > 0.0
    ensures Times(a, b) >= 0.0 && (a > 0.0 ==> Times(a, b) > 0.0)
  {
  }

  lemma QuotientTimes(a: real, b: real)
    requires b > 0.0 && a > 0.0
    ensures Times(a / b, b) == a && a / b > 0.0
  {
  }

  // How many whole periods it takes to use the grace up.
  function GraceProbes(grace: real, period: real): (n: nat)
    requires period > 0.0
    ensures Periods(n, period) >= grace
    ensures n > 0 ==> Periods(n - 1, period) < grace
  {
    if grace <= 0.0 then 0
    else
      var n := (grace / period).Floor;
      GraceFloor(grace, period, n);
      if Periods(n, period) >= grace then n else n + 1
  }

  lemma GraceFloor(grace: real, period: real, n: int)
    requires period > 0.0 && grace > 0.0 && n == (grace / period).Floor
    ensures n >= 0 && Periods(n, period) <= grace < Periods(n + 1, period)
    ensures n > 0 ==> Periods(n - 1, period) < Periods(n, period)
  {
    var q := grace / period;
    QuotientTimes(grace, period);
    TimesGrows(n as real, q, period);
    TimesGrows(q, (n + 1) as real, period);
    PeriodsProduct(n, period);
    PeriodsProduct(n + 1, period);
  }

  // A probe i periods after the last good one is out of grace from this many on.
  lemma OutOfGrace(i: nat, grace: real, period: real)
    requires period > 0.0
    ensures Periods(i, period) >= grace <==> i >= GraceProbes(grace, period)
  {
    var g := GraceProbes(grace, period);
    PeriodsGrow(g, i, period);
    if i < g {
      PeriodsGrow(i, g - 1, period);
    }
  }

  // A good ping, and then none.
  ghost predicate LostPing(run: seq<Sight>, period: real) {
    run != [] && run[0].pingOk && forall i | 0 <= i < |run| :: LostAt(run[i], run[0], i, period)
  }

  // That ping and the first failure are recorded.
  predicate Recorded(run: seq<Sight>) { forall i | 0 <= i < |run| && i <= 1 :: run[i].written }

  ghost predicate Lost(run: seq<Sight>, period: real) { LostPing(run, period) && Recorded(run) }

  ghost predicate LostAt(seen: Sight, first: Sight, i: nat, period: real) {
    (i > 0 ==> !seen.pingOk) && seen.now == first.now + Periods(i, period)
  }

  lemma LostCountsIff(run: seq<Sight>, grace: real, period: real, i: nat)
    requires period > 0.0 && Lost(run, period) && 1 <= i < |run|
    ensures !AliveAt(run, grace, i) <==> run[i].reachable || i > GraceProbes(grace, period)
  {
    assert Outage(run, 1, i + 1) by {
      assert forall j | 1 <= j < i + 1 :: LostAt(run[j], run[0], j, period);
    }
    CountsIff(run, grace, 1, i);
    assert LostAt(run[i], run[0], i, period) && LostAt(run[1], run[0], 1, period);
    OutOfGrace(i - 1, grace, period);
    PeriodsAdd(1, i - 1, period);
    assert Periods(1, period) == Periods(0, period) + period;
  }

  // Probe GraceProbes + threshold is the last a lost worker can live to.
  lemma LostIsRestarted(run: seq<Sight>, grace: real, period: real, threshold: nat)
    requires period > 0.0 && threshold > 0 && Lost(run, period)
    requires |run| > GraceProbes(grace, period) + threshold
    ensures RestartedBy(run, grace, threshold, GraceProbes(grace, period) + threshold + 1)
  {
    var n := GraceProbes(grace, period);
    forall i | n + 1 <= i < n + 1 + threshold
      ensures !AliveAt(run, grace, i)
    {
      LostCountsIff(run, grace, period, i);
    }
    DeadRow(run, grace, n + 1, n + 1 + threshold);
  }

  // With the broker down all along it does live to it.
  lemma {:induction false} DownAllAlong(run: seq<Sight>, grace: real, period: real, n: nat)
    requires period > 0.0 && Lost(run, period) && n <= |run|
    requires forall i | 1 <= i < |run| :: !run[i].reachable
    ensures Failures(run[..n], grace) ==
            (if n <= GraceProbes(grace, period) + 1 then 0 else n - 1 - GraceProbes(grace, period))
  {
    if n > 0 {
      DownAllAlong(run, grace, period, n - 1);
      FailuresStep(run, grace, n - 1);
      if n > 1 {
        LostCountsIff(run, grace, period, n - 1);
      }
    }
  }

  // "At most grace + threshold periods after the last good ping."
  ghost predicate Deadline(run: seq<Sight>, grace: real, period: real, threshold: nat) {
    exists n | 0 < n <= |run| :: Failures(run[..n], grace) >= threshold && OnTime(run, grace, period, threshold, n)
  }

  ghost predicate OnTime(run: seq<Sight>, grace: real, period: real, threshold: nat, n: nat)
    requires 0 < n <= |run|
  {
    run[n - 1].now <= run[0].now + grace + Periods(threshold, period)
  }

  // Over every run, or over every run in which the start of the outage is recorded.
  ghost predicate AlwaysMet(grace: real, period: real, threshold: nat, recorded: bool)
    requires period > 0.0
  {
    forall run: seq<Sight> | LostPing(run, period) && (recorded ==> Recorded(run)) &&
                             |run| > GraceProbes(grace, period) + threshold ::
      Deadline(run, grace, period, threshold)
  }

  // That deadline holds exactly when the grace is a whole number of periods, and the
  // start of the outage is recorded or there is no grace.
  lemma DeadlineIff(grace: real, period: real, threshold: nat, recorded: bool)
    requires period > 0.0 && threshold > 0
    ensures AlwaysMet(grace, period, threshold, recorded) <==>
              (recorded || grace <= 0.0) && exists n :: Periods(n, period) == grace
  {
    if n :| Periods(n, period) == grace {
      OutOfGrace(n, grace, period);
      PeriodsGrow(GraceProbes(grace, period), n, period);
      PeriodsGrow(0, n, period);
      if recorded || grace <= 0.0 {
        forall run: seq<Sight> | LostPing(run, period) && (recorded ==> Recorded(run)) &&
                                 |run| > GraceProbes(grace, period) + threshold
          ensures Deadline(run, grace, period, threshold)
        {
          if recorded {
            MeetsDeadline(run, grace, period, threshold);
          } else {
            MeetsWithoutGrace(run, period, threshold);
          }
        }
      } else {
        UnwrittenMisses(grace, period, threshold);
      }
    } else {
      MissesDeadline(grace, period, threshold, recorded);
    }
  }

  // Without a grace every failed probe counts, recorded or not.
  lemma MeetsWithoutGrace(run: seq<Sight>, period: real, threshold: nat)
    requires period > 0.0 && threshold > 0 && LostPing(run, period) && |run| > threshold
    ensures Deadline(run, 0.0, period, threshold)
  {
    forall i | 1 <= i < 1 + threshold
      ensures !AliveAt(run, 0.0, i)
    {
      assert LostAt(run[i], run[0], i, period);
      var f := StateMeaning(run, 0.0, i);
      CountsWhen(run, 0.0, i, f);
      if !Cleared(run, i) {
        assert LostAt(run[f], run[0], f, period);
        PeriodsGrow(f, i, period);
      }
    }
    DeadRow(run, 0.0, 1, 1 + threshold);
    assert LostAt(run[threshold], run[0], threshold, period);
    assert OnTime(run, 0.0, period, threshold, 1 + threshold);
  }

  // A lost worker whose probes cannot write and find the broker down is never restarted.
  lemma UnwrittenMisses(grace: real, period: real, threshold: nat)
    requires period > 0.0 && threshold > 0 && grace > 0.0
    ensures !AlwaysMet(grace, period, threshold, false)
  {
    var run := DownRun(period, GraceProbes(grace, period) + threshold + 1, false);
    assert LostPing(run, period);
    forall n | 0 < n <= |run|
      ensures Failures(run[..n], grace) == 0
    {
      UnwrittenIsForgiven(run, grace, n);
    }
    assert !Deadline(run, grace, period, threshold);
  }

  lemma MeetsDeadline(run: seq<Sight>, grace: real, period: real, threshold: nat)
    requires period > 0.0 && threshold > 0 && Lost(run, period) && |run| > GraceProbes(grace, period) + threshold
    requires Periods(GraceProbes(grace, period), period) == grace
    ensures Deadline(run, grace, period, threshold)
  {
    var g := GraceProbes(grace, period);
    LostIsRestarted(run, grace, period, threshold);
    var m :| 0 <= m <= g + threshold + 1 && Failures(run[..m], grace) >= threshold;
    assert m > 0;
    assert LostAt(run[m - 1], run[0], m - 1, period);
    PeriodsGrow(m - 1, g + threshold, period);
    PeriodsAdd(g, threshold, period);
    assert OnTime(run, grace, period, threshold, m);
  }

  // A run of `len` probes with the broker down.
  function DownRun(period: real, len: nat, written: bool): seq<Sight> {
    seq(len, i requires 0 <= i => Sight(Periods(i, period), i == 0, i == 0, written))
  }

  lemma MissesDeadline(grace: real, period: real, threshold: nat, recorded: bool)
    requires period > 0.0 && threshold > 0 && Periods(GraceProbes(grace, period), period) > grace
    ensures !AlwaysMet(grace, period, threshold, recorded)
  {
    var g := GraceProbes(grace, period);
    var run := DownRun(period, g + threshold + 1, true);
    assert Lost(run, period);
    forall n | 0 < n <= |run| && Failures(run[..n], grace) >= threshold
      ensures !OnTime(run, grace, period, threshold, n)
    {
      DownAllAlong(run, grace, period, n);
      assert n - 1 == g + threshold;
      assert LostAt(run[n - 1], run[0], n - 1, period);
      PeriodsAdd(g, threshold, period);
    }
  }
}
