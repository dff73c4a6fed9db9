/** Health scoring and monitoring: internal/health/scorer.go and monitor.go. Scores are reals; rounding is left aside. */
module Health {
  import opened Model

  datatype CheckResult = CheckResult(name: string, healthy: bool, score: real)

  /** One probe; None: it failed. */
  datatype Check = Check(name: string, probe: Uuid -> Option<CheckResult>)

  datatype Weight = Weight(checkName: string, weight: real)

  datatype DeploymentHealth = DeploymentHealth(overall: real, healthy: bool, checks: seq<CheckResult>)

  function Clamp(v: real, low: real, high: real): real { if v < low then low else if v > high then high else v }

  /** A scorer's configuration. */
  datatype Weights = Weights(named: map<string, real>, fallback: real)
  {
    function For(name: string): real { if name in named then named[name] else fallback }

    function WeightOf(r: CheckResult): real { For(r.name) }

    function Weighted(r: CheckResult): real { r.score * For(r.name) }

    /** No configured weight is negative. */
    ghost predicate NonNegative() { fallback >= 0.0 && forall n :: n in named ==> named[n] >= 0.0 }
  }

  function Sum(f: CheckResult -> real, rs: seq<CheckResult>): real {
    if rs == [] then 0.0 else Sum(f, rs[..|rs| - 1]) + f(rs[|rs| - 1])
  }

  function TotalWeight(w: Weights, rs: seq<CheckResult>): real { Sum(w.WeightOf, rs) }

  function WeightedSum(w: Weights, rs: seq<CheckResult>): real { Sum(w.Weighted, rs) }

  function Score(w: Weights, rs: seq<CheckResult>): real {
    if rs == [] || TotalWeight(w, rs) == 0.0 then 1.0 else Clamp(WeightedSum(w, rs) / TotalWeight(w, rs), 0.0, 1.0)
  }

  function Named(entries: seq<Weight>): map<string, real> {
    if entries == [] then map[]
    else Named(entries[..|entries| - 1])[entries[|entries| - 1].checkName := entries[|entries| - 1].weight]
  }

  /** Of several entries of a name the last one counts. */
  lemma {:induction false} LastEntryCounts(entries: seq<Weight>, i: nat)
    requires i < |entries| && forall j :: i < j < |entries| ==> entries[j].checkName != entries[i].checkName
    ensures entries[i].checkName in Named(entries) && Named(entries)[entries[i].checkName] == entries[i].weight
    decreases |entries|
  {
    if i < |entries| - 1 {
      LastEntryCounts(entries[..|entries| - 1], i);
    }
  }

  class HealthScorer {
    const weights: Weights

    constructor (entries: seq<Weight>, fallback: real)
      ensures weights == Weights(Named(entries), if fallback <= 0.0 then 1.0 else fallback)
    {
      var named: map<string, real> := map[];
      for k := 0 to |entries|
        invariant named == Named(entries[..k])
      {
        assert entries[..k + 1][..k] == entries[..k];
        named := named[entries[k].checkName := entries[k].weight];
      }
      assert entries[..|entries|] == entries;
      weights := Weights(named, if fallback <= 0.0 then 1.0 else fallback);
    }

    method ComputeScore(results: seq<CheckResult>) returns (score: real)
      ensures score == Score(weights, results)
    {
      if |results| == 0 {
        return 1.0;
      }
      var total, sum := 0.0, 0.0;
      for i := 0 to |results|
        invariant total == Sum(weights.WeightOf, results[..i]) && sum == Sum(weights.Weighted, results[..i])
      {
        assert results[..i + 1][..i] == results[..i];
        var w := weights.For(results[i].name);
        total, sum := total + w, sum + results[i].score * w;
      }
      assert results[..|results|] == results;
      if total == 0.0 {
        return 1.0;
      }
      score := Clamp(sum / total, 0.0, 1.0);
    }
  }

  // ---------------------------------------------------------------- the score

  ghost predicate ScoresWithin(rs: seq<CheckResult>, low: real, high: real) {
    forall i :: 0 <= i < |rs| ==> low <= rs[i].score <= high
  }

  lemma Scale(a: real, b: real, w: real)
    requires a <= b && w >= 0.0
    ensures a * w <= b * w
  {
  }

  lemma {:induction false} SumCompared(f: CheckResult -> real, a: seq<CheckResult>, g: CheckResult -> real, b: seq<CheckResult>)
    requires |a| == |b| && forall i :: 0 <= i < |a| ==> f(a[i]) <= g(b[i])
    ensures Sum(f, a) <= Sum(g, b)
    decreases |a|
  {
    if a != [] {
      SumCompared(f, a[..|a| - 1], g, b[..|b| - 1]);
    }
  }

  lemma Distribute(c: real, a: real, b: real)
    ensures c * (a + b) == c * a + c * b
  {
  }

  lemma {:induction false} SumScaled(c: real, f: CheckResult -> real, g: CheckResult -> real, rs: seq<CheckResult>)
    requires forall r :: g(r) == c * f(r)
    ensures Sum(g, rs) == c * Sum(f, rs)
    decreases |rs|
  {
    if rs != [] {
      var n := |rs| - 1;
      SumScaled(c, f, g, rs[..n]);
      Distribute(c, Sum(f, rs[..n]), f(rs[n]));
    }
  }

  function Scaled(w: Weights, c: real): CheckResult -> real { (r: CheckResult) => c * w.WeightOf(r) }

  lemma WeightedAtLeast(w: Weights, r: CheckResult, low: real)
    requires w.NonNegative() && low <= r.score
    ensures Scaled(w, low)(r) <= w.Weighted(r)
  {
  }

  lemma WeightedAtMost(w: Weights, r: CheckResult, high: real)
    requires w.NonNegative() && r.score <= high
    ensures w.Weighted(r) <= Scaled(w, high)(r)
  {
  }

  lemma SumScaledWeights(w: Weights, c: real, rs: seq<CheckResult>)
    ensures Sum(Scaled(w, c), rs) == c * TotalWeight(w, rs)
  {
  }

  lemma SumBetween(w: Weights, rs: seq<CheckResult>, low: real, high: real)
    requires w.NonNegative() && ScoresWithin(rs, low, high)
    ensures Sum(Scaled(w, low), rs) <= WeightedSum(w, rs) <= Sum(Scaled(w, high), rs)
  {
    forall i | 0 <= i < |rs| ensures Scaled(w, low)(rs[i]) <= w.Weighted(rs[i]) <= Scaled(w, high)(rs[i]) {
      WeightedAtLeast(w, rs[i], low);
      WeightedAtMost(w, rs[i], high);
    }
    SumCompared(Scaled(w, low), rs, w.Weighted, rs);
    SumCompared(w.Weighted, rs, Scaled(w, high), rs);
  }

  lemma SumWithin(w: Weights, rs: seq<CheckResult>, low: real, high: real)
    requires w.NonNegative() && ScoresWithin(rs, low, high)
    ensures low * TotalWeight(w, rs) <= WeightedSum(w, rs) <= high * TotalWeight(w, rs)
  {
    SumBetween(w, rs, low, high);
    SumScaledWeights(w, low, rs);
    SumScaledWeights(w, high, rs);
  }

  lemma QuotientWithin(sum: real, total: real, low: real, high: real)
    requires total > 0.0 && low * total <= sum <= high * total
    ensures low <= sum / total <= high
  {
  }

  /** The score lies between the smallest and the largest check score, so far as those are in [0, 1]. */
  lemma ScoreBetween(w: Weights, rs: seq<CheckResult>, low: real, high: real)
    requires w.NonNegative() && TotalWeight(w, rs) > 0.0 && ScoresWithin(rs, low, high)
    ensures Clamp(low, 0.0, 1.0) <= Score(w, rs) <= Clamp(high, 0.0, 1.0)
    ensures 0.0 <= low && high <= 1.0 ==> Score(w, rs) * TotalWeight(w, rs) == WeightedSum(w, rs)
  {
    SumWithin(w, rs, low, high);
    var sum, total := WeightedSum(w, rs), TotalWeight(w, rs);
    QuotientWithin(sum, total, low, high);
    var q := sum / total;
    assert q * total == sum;
    assert Score(w, rs) == Clamp(q, 0.0, 1.0);
  }

  /** The same checks, none scoring lower. */
  ghost predicate Dominates(b: seq<CheckResult>, a: seq<CheckResult>) {
    |a| == |b| && forall i :: 0 <= i < |a| ==> a[i].name == b[i].name && a[i].score <= b[i].score
  }

  lemma QuotientMonotone(a: real, b: real, t: real)
    requires a <= b && t > 0.0
    ensures a / t <= b / t
  {
  }

  /** Raising scores never lowers the result. */
  lemma ScoreMonotone(w: Weights, a: seq<CheckResult>, b: seq<CheckResult>)
    requires w.NonNegative() && Dominates(b, a)
    ensures Score(w, a) <= Score(w, b)
  {
    forall i | 0 <= i < |a| ensures w.Weighted(a[i]) <= w.Weighted(b[i]) {
      Scale(a[i].score, b[i].score, w.For(a[i].name));
    }
    SumCompared(w.Weighted, a, w.Weighted, b);
    SumCompared(w.WeightOf, a, w.WeightOf, b);
    SumCompared(w.WeightOf, b, w.WeightOf, a);
    var none: CheckResult -> real := (r: CheckResult) => 0.0;
    SumScaled(0.0, none, none, a);
    SumCompared(none, a, w.WeightOf, a);
    if TotalWeight(w, a) > 0.0 {
      QuotientMonotone(WeightedSum(w, a), WeightedSum(w, b), TotalWeight(w, a));
    }
  }

  function Without(rs: seq<CheckResult>, k: nat): seq<CheckResult>
    requires k < |rs|
  {
    rs[..k] + rs[k + 1..]
  }

  lemma {:induction false} SumWithout(f: CheckResult -> real, rs: seq<CheckResult>, k: nat)
    requires k < |rs|
    ensures Sum(f, rs) == Sum(f, Without(rs, k)) + f(rs[k])
    decreases |rs|
  {
    var n := |rs| - 1;
    if k == n {
      assert Without(rs, k) == rs[..n];
    } else {
      SumWithout(f, rs[..n], k);
      assert Without(rs, k)[..n - 1] == Without(rs[..n], k);
    }
  }

  lemma {:induction false} SumPermuted(f: CheckResult -> real, a: seq<CheckResult>, b: seq<CheckResult>)
    requires multiset(a) == multiset(b)
    ensures Sum(f, a) == Sum(f, b)
    decreases |a|
  {
    SameLength(a, b);
    if a != [] {
      var n := |a| - 1;
      var k := PlaceOf(a, b);
      SumWithout(f, b, k);
      SumPermuted(f, a[..n], Without(b, k));
    }
  }

  lemma SameLength(a: seq<CheckResult>, b: seq<CheckResult>)
    requires multiset(a) == multiset(b)
    ensures |a| == |b|
  {
    assert |multiset(a)| == |multiset(b)|;
  }

  /** Where b has the last element of a. */
  lemma PlaceOf(a: seq<CheckResult>, b: seq<CheckResult>) returns (k: nat)
    requires a != [] && multiset(a) == multiset(b)
    ensures k < |b| && b[k] == a[|a| - 1] && multiset(a[..|a| - 1]) == multiset(Without(b, k))
  {
    var last := a[|a| - 1];
    assert last in multiset(b);
    k :| 0 <= k < |b| && b[k] == last;
    Split(a, |a| - 1);
    Split(b, k);
    Cancel(multiset(Without(a, |a| - 1)), multiset(Without(b, k)), last);
    assert Without(a, |a| - 1) == a[..|a| - 1];
  }

  lemma Cancel(x: multiset<CheckResult>, y: multiset<CheckResult>, r: CheckResult)
    requires x + multiset{r} == y + multiset{r}
    ensures x == y
  {
    forall c ensures x[c] == y[c] {
      assert (x + multiset{r})[c] == (y + multiset{r})[c];
    }
  }

  lemma Split(s: seq<CheckResult>, k: nat)
    requires k < |s|
    ensures multiset(s) == multiset(Without(s, k)) + multiset{s[k]}
  {
    assert s == s[..k] + [s[k]] + s[k + 1..];
  }

  /** The order of the checks does not matter. */
  lemma ScorePermuted(w: Weights, a: seq<CheckResult>, b: seq<CheckResult>)
    requires multiset(a) == multiset(b)
    ensures Score(w, a) == Score(w, b)
  {
    SumPermuted(w.WeightOf, a, b);
    SumPermuted(w.Weighted, a, b);
    assert |multiset(a)| == |multiset(b)|;
  }

  /** Checks all at or above the threshold are healthy together, checks all below it are not. */
  lemma ThresholdDecides(w: Weights, rs: seq<CheckResult>, threshold: real)
    requires w.NonNegative() && TotalWeight(w, rs) > 0.0 && 0.0 <= threshold <= 1.0 && ScoresWithin(rs, 0.0, 1.0)
    ensures (forall i :: 0 <= i < |rs| ==> rs[i].score >= threshold) ==> Score(w, rs) >= threshold
    ensures (forall i :: 0 <= i < |rs| ==> rs[i].score < threshold) ==> Score(w, rs) < threshold
  {
    if forall i :: 0 <= i < |rs| ==> rs[i].score >= threshold {
      ScoreBetween(w, rs, threshold, 1.0);
    }
    if forall i :: 0 <= i < |rs| ==> rs[i].score < threshold {
      var top := Highest(rs);
      ScoreBetween(w, rs, 0.0, top);
    }
  }

  lemma {:induction false} Highest(rs: seq<CheckResult>) returns (top: real)
    requires rs != []
    ensures (forall i :: 0 <= i < |rs| ==> rs[i].score <= top) && exists i :: 0 <= i < |rs| && rs[i].score == top
    decreases |rs|
  {
    top := rs[0].score;
    if |rs| > 1 {
      var rest := Highest(rs[1..]);
      assert forall i :: 1 <= i < |rs| ==> rs[i] == rs[1..][i - 1];
      if rest > top {
        top := rest;
      }
    }
  }

  function Max(a: real, b: real): real { if a < b then b else a }

  function SignalScore(current: real, threshold: real): real {
    if threshold <= 0.0 then 100.0 else 100.0 * Max(0.0, 1.0 - current / threshold)
  }

  /** Full marks only without any signal, none exactly from the threshold on, and falling in between. */
  lemma SignalScale(a: real, b: real, threshold: real)
    requires threshold > 0.0 && 0.0 <= a <= b
    ensures 0.0 <= SignalScore(b, threshold) <= SignalScore(a, threshold) <= 100.0
    ensures (SignalScore(a, threshold) == 0.0 <==> a >= threshold) && (SignalScore(a, threshold) == 100.0 <==> a == 0.0)
  {
  }

  // ---------------------------------------------------------------- the monitor

  function Outcome(c: Check, id: Uuid): CheckResult {
    var r := c.probe(id);
    if r.Some? then r.value else CheckResult(c.name, false, 0.0)
  }

  function Outcomes(checks: seq<Check>, id: Uuid): seq<CheckResult> { seq(|checks|, i requires 0 <= i < |checks| => Outcome(checks[i], id)) }

  function Assessed(w: Weights, threshold: real, checks: seq<Check>, id: Uuid): DeploymentHealth {
    var rs := Outcomes(checks, id);
    DeploymentHealth(Score(w, rs), Score(w, rs) >= threshold, rs)
  }

  const UNTRIED := DeploymentHealth(1.0, true, [])

  class HealthMonitor {
    const scorer: HealthScorer
    const threshold: real
    var checks: seq<Check>
    var deployments: map<Uuid, DeploymentHealth>

    constructor (scorer: HealthScorer, threshold: real)
      ensures this.scorer == scorer && this.threshold == threshold && checks == [] && deployments == map[]
    {
      this.scorer, this.threshold, checks, deployments := scorer, threshold, [], map[];
    }

    method AddCheck(check: Check)
      modifies this`checks
      ensures checks == old(checks) + [check]
    {
      checks := checks + [check];
    }

    method Watch(id: Uuid)
      modifies this`deployments
      ensures deployments == old(deployments)[id := UNTRIED]
    {
      deployments := deployments[id := UNTRIED];
    }

    method Unwatch(id: Uuid)
      modifies this`deployments
      ensures deployments == old(deployments) - {id}
    {
      deployments := deployments - {id};
    }

    method GetHealth(id: Uuid) returns (h: Option<DeploymentHealth>)
      ensures h == if id in deployments then Some(deployments[id]) else None
    {
      h := if id in deployments then Some(deployments[id]) else None;
    }

    method RunChecks(id: Uuid) returns (results: seq<CheckResult>)
      ensures results == Outcomes(checks, id)
    {
      results := [];
      for i := 0 to |checks|
        invariant results == Outcomes(checks, id)[..i]
      {
        var r := checks[i].probe(id);
        if r.None? {
          results := results + [CheckResult(checks[i].name, false, 0.0)];
        } else {
          results := results + [r.value];
        }
      }
    }

    /** The result is stored whether or not the deployment is still being watched. */
    method Assess(id: Uuid)
      modifies this`deployments
      ensures deployments == old(deployments)[id := Assessed(scorer.weights, threshold, checks, id)]
    {
      var results := RunChecks(id);
      var overall := scorer.ComputeScore(results);
      deployments := deployments[id := DeploymentHealth(overall, overall >= threshold, results)];
    }

    /** One round over the deployments watched when it began. */
    method Evaluate()
      modifies this`deployments
      ensures deployments == map id | id in old(deployments) :: Assessed(scorer.weights, threshold, checks, id)
    {
      var left := deployments.Keys;
      while left != {}
        invariant left <= deployments.Keys == old(deployments).Keys
        invariant forall id :: id in deployments.Keys - left ==> deployments[id] == Assessed(scorer.weights, threshold, checks, id)
        decreases left
      {
        var id :| id in left;
        Assess(id);
        left := left - {id};
      }
    }
  }

  // ---------------------------------------------------------------- history

  datatype Observation = Observation(id: Uuid, score: real, healthy: bool, at: Time)

  function LastOf(s: seq<Observation>, n: nat): seq<Observation> { if |s| > n then s[|s| - n..] else s }

  lemma LastOneMore(s: seq<Observation>, o: Observation, n: nat)
    requires n > 0
    ensures LastOf(LastOf(s, n) + [o], n) == LastOf(s + [o], n)
  {
  }

  function Of(log: seq<Observation>, id: Uuid): seq<Observation> {
    if log == [] then [] else Of(log[..|log| - 1], id) + if log[|log| - 1].id == id then [log[|log| - 1]] else []
  }

  function Kept(entries: map<Uuid, seq<Observation>>, id: Uuid): seq<Observation> { if id in entries then entries[id] else [] }

  ghost predicate UpToDate(entries: map<Uuid, seq<Observation>>, log: seq<Observation>, n: nat) {
    forall id :: Kept(entries, id) == LastOf(Of(log, id), n)
  }

  lemma OfOneMore(log: seq<Observation>, o: Observation, id: Uuid)
    ensures Of(log + [o], id) == if o.id == id then Of(log, id) + [o] else Of(log, id)
  {
  }

  lemma HistoryOneMore(entries: map<Uuid, seq<Observation>>, log: seq<Observation>, o: Observation, n: nat)
    requires n > 0 && UpToDate(entries, log, n)
    ensures UpToDate(entries[o.id := LastOf(Kept(entries, o.id) + [o], n)], log + [o], n)
  {
    var es := LastOf(Kept(entries, o.id) + [o], n);
    assert es == LastOf(Of(log + [o], o.id), n) by {
      OfOneMore(log, o, o.id);
      LastOneMore(Of(log, o.id), o, n);
    }
    forall id ensures Kept(entries[o.id := es], id) == LastOf(Of(log + [o], id), n) {
      if id != o.id {
        OfOneMore(log, o, id);
      }
    }
  }

  class HealthHistory {
    const maxSize: nat
    var entries: map<Uuid, seq<Observation>>
    ghost var log: seq<Observation>

    /** Each deployment keeps its latest maxSize observations of everything ever recorded. */
    ghost predicate Valid()
      reads this
    {
      maxSize > 0 && UpToDate(entries, log, maxSize)
    }

    constructor (maxSize: int)
      ensures Valid() && log == [] && this.maxSize == if maxSize <= 0 then 1000 else maxSize
    {
      this.maxSize, entries, log := if maxSize <= 0 then 1000 else maxSize, map[], [];
    }

    method RecordScore(id: Uuid, score: real, healthy: bool, now: Time)
      requires Valid()
      modifies this
      ensures Valid() && log == old(log) + [Observation(id, score, healthy, now)]
    {
      var o := Observation(id, score, healthy, now);
      var es := Kept(entries, id) + [o];
      HistoryOneMore(entries, log, o, maxSize);
      if |es| > maxSize {
        es := es[|es| - maxSize..];
      }
      entries, log := entries[id := es], log + [o];
    }

    method GetHistory(id: Uuid) returns (es: seq<Observation>)
      requires Valid()
      ensures es == LastOf(Of(log, id), maxSize)
    {
      es := Kept(entries, id);
    }

    method GetHistorySince(id: Uuid, since: Time) returns (es: seq<Observation>)
      requires Valid()
      ensures es == NotBefore(LastOf(Of(log, id), maxSize), since)
    {
      es := [];
      var all := Kept(entries, id);
      for i := 0 to |all|
        invariant es == NotBefore(all[..i], since)
      {
        assert all[..i + 1][..i] == all[..i];
        if all[i].at >= since {
          es := es + [all[i]];
        }
      }
      assert all[..|all|] == all;
    }
  }

  function NotBefore(s: seq<Observation>, since: Time): seq<Observation> {
    if s == [] then [] else NotBefore(s[..|s| - 1], since) + if s[|s| - 1].at >= since then [s[|s| - 1]] else []
  }
}

/** A round of the monitor beside the calls of others: its snapshot and its stores are separate steps. */
module HealthRounds {
  import opened Model
  import opened Machines
  import opened Health

  /** What a round works with. */
  datatype Setup = Setup(weights: Weights, threshold: real, checks: seq<Check>)

  /** left: the deployments the round under way has yet to store. */
  datatype Monitor = Monitor(table: map<Uuid, DeploymentHealth>, left: set<Uuid>)

  datatype Move = Watch(id: Uuid) | Unwatch(id: Uuid) | Snapshot | Store(id: Uuid)

  predicate Enabled(mo: Monitor, m: Move) {
    match m
    case Snapshot => mo.left == {}
    case Store(id) => id in mo.left
    case _ => true
  }

  function After(s: Setup, mo: Monitor, m: Move): Monitor {
    match m
    case Watch(id) => mo.(table := mo.table[id := UNTRIED])
    case Unwatch(id) => mo.(table := mo.table - {id})
    case Snapshot => mo.(left := mo.table.Keys)
    case Store(id) => Monitor(mo.table[id := Assessed(s.weights, s.threshold, s.checks, id)], mo.left - {id})
  }

  ghost function System(s: Setup): Machine<Monitor, Move> { Machine((mo, m) => Enabled(mo, m), (mo, m) => After(s, mo, m)) }

  lemma {:induction false} StaysWatched(s: Setup, mo: Monitor, moves: seq<Move>, id: Uuid)
    requires id in mo.table && Unwatch(id) !in moves
    ensures id in End(System(s), mo, moves).table
    decreases |moves|
  {
    if moves != [] {
      StaysWatched(s, After(s, mo, moves[0]), moves[1..], id);
    }
  }

  /** A deployment nobody watches any more comes back exactly when a round stores it, which only the round under way at
      that moment can do, if it had yet to; and then it stays. */
  lemma {:induction false} UnwatchedReturnsIff(s: Setup, mo: Monitor, moves: seq<Move>, id: Uuid)
    requires id !in mo.table && Run(System(s), mo, moves) && Watch(id) !in moves && Unwatch(id) !in moves
    ensures id in End(System(s), mo, moves).table <==> Store(id) in moves
    ensures Store(id) in moves ==> id in mo.left
    decreases |moves|
  {
    if moves != [] {
      var m, rest := moves[0], moves[1..];
      assert forall x :: x in moves <==> x == m || x in rest;
      if m == Store(id) {
        StaysWatched(s, After(s, mo, m), rest, id);
      } else {
        UnwatchedReturnsIff(s, After(s, mo, m), rest, id);
      }
    }
  }

  /** And it does come back: a run of the monitor in which it was watched, unwatched and is there again. */
  lemma UnwatchUndone(s: Setup, id: Uuid)
    ensures var moves := [Watch(id), Snapshot, Unwatch(id), Store(id)]; var start := Monitor(map[], {});
            Run(System(s), start, moves) && id in End(System(s), start, moves).table
  {
    var s0 := Monitor(map[], {});
    var s1 := After(s, s0, Watch(id));
    var s2 := After(s, s1, Snapshot);
    var s3 := After(s, s2, Unwatch(id));
    Through(System(s), [s0, s1, s2, s3, After(s, s3, Store(id))], [Watch(id), Snapshot, Unwatch(id), Store(id)]);
  }
}
