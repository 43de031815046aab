/** Percentiles, latency statistics and the report of scripts/evaluate_document_classifier.py. */
module Evaluation {
  import opened Common
  import S = Sorting

  // ---------------------------------------------------------------------------------------------
  // Percentiles
  // ---------------------------------------------------------------------------------------------

  ghost predicate Ascending(s: seq<real>) {
    forall i, j :: 0 <= i <= j < |s| ==> s[i] <= s[j]
  }

  /** The product, under a name that proofs can hide. */
  function Times(a: real, b: real): real { a * b }

  lemma TimesGrows(a: real, b: real, d: real)
    requires 0.0 <= a <= b && 0.0 <= d
    ensures 0.0 <= Times(a, d) <= Times(b, d)
  {
    assert (b - a) * d >= 0.0;
    assert b * d == a * d + (b - a) * d;
  }

  lemma TimesUnits(a: real)
    ensures Times(a, 0.0) == 0.0 && Times(a, 1.0) == a && Times(1.0, a) == a && Times(0.0, a) == 0.0
  {}

  lemma TimesAdds(a: real, x: real, y: real)
    ensures Times(a, x) + Times(a, y) == Times(a, x + y)
  {}

  lemma TimesSwaps(a: real, b: real)
    ensures Times(a, b) == Times(b, a)
  {}

  /** The rank `pct * (len - 1)`, a position between the first and the last index. */
  function Rank(n: nat, pct: real): (rank: real)
    requires 0.0 <= pct <= 1.0 && n > 0
    ensures 0.0 <= rank <= (n - 1) as real
  {
    TimesGrows(pct, 1.0, (n - 1) as real);
    TimesUnits((n - 1) as real);
    Times(pct, (n - 1) as real)
  }

  function Percentile(sorted: seq<real>, pct: real): real
    requires 0.0 <= pct <= 1.0
  {
    if sorted == [] then 0.0
    else if |sorted| == 1 then sorted[0]
    else
      var rank := Rank(|sorted|, pct);
      var lower := rank.Floor;
      var upper := if lower + 1 <= |sorted| - 1 then lower + 1 else |sorted| - 1;
      sorted[lower] + Times(sorted[upper] - sorted[lower], rank - lower as real)
  }

  /** The polygonal line through the points (i, sorted[i]), between points k and k + 1. */
  function OnSegment(sorted: seq<real>, k: nat, rank: real): real
    requires k + 1 < |sorted|
  {
    sorted[k] + Times(sorted[k + 1] - sorted[k], rank - k as real)
  }

  /** The percentile lies on that line, on every segment whose closed range of ranks holds the rank. */
  lemma OnEachSegment(sorted: seq<real>, pct: real, k: nat)
    requires 0.0 <= pct <= 1.0 && k + 1 < |sorted|
    requires k as real <= Rank(|sorted|, pct) <= (k + 1) as real
    ensures Percentile(sorted, pct) == OnSegment(sorted, k, Rank(|sorted|, pct))
  {
    hide Rank, Times;
    var rank := Rank(|sorted|, pct);
    if rank == (k + 1) as real {
      assert rank.Floor == k + 1;
      TimesUnits(sorted[k + 1] - sorted[k]);
      TimesUnits((if k + 2 < |sorted| then sorted[k + 2] else sorted[k + 1]) - sorted[k + 1]);
    } else {
      assert rank.Floor == k;
    }
  }

  /** The segment that holds a rank. */
  function SegmentOf(n: nat, rank: real): (k: nat)
    requires n >= 2 && 0.0 <= rank <= (n - 1) as real
    ensures k + 1 < n && k as real <= rank <= (k + 1) as real
  {
    if rank == (n - 1) as real then n - 2 else rank.Floor
  }

  /** On one segment a greater rank gives a greater value, by at most the spread times the distance. */
  lemma SegmentSlope(sorted: seq<real>, k: nat, a: real, b: real)
    requires Ascending(sorted) && k + 1 < |sorted| && a <= b
    ensures OnSegment(sorted, k, a) <= OnSegment(sorted, k, b)
    ensures OnSegment(sorted, k, b) - OnSegment(sorted, k, a) <= Times(Spread(sorted), b - a)
  {
    hide Times;
    var step := sorted[k + 1] - sorted[k];
    TimesAdds(step, a - k as real, b - a);
    TimesGrows(step, Spread(sorted), b - a);
  }

  function Spread(sorted: seq<real>): real
    requires sorted != []
  {
    sorted[|sorted| - 1] - sorted[0]
  }

  /** A greater pct gives a greater value, by at most the spread of the data times the change of rank. */
  lemma GrowsByRank(sorted: seq<real>, p: real, q: real)
    requires Ascending(sorted) && sorted != [] && 0.0 <= p <= q <= 1.0
    ensures 0.0 <= Percentile(sorted, q) - Percentile(sorted, p)
    ensures Percentile(sorted, q) - Percentile(sorted, p) <= Times(Spread(sorted), Rank(|sorted|, q) - Rank(|sorted|, p))
  {
    hide Percentile, OnSegment, Rank, Times;
    RankMonotone(|sorted|, p, q);
    var a, b := Rank(|sorted|, p), Rank(|sorted|, q);
    if |sorted| == 1 {
      PercentileOfOne(sorted, p);
      PercentileOfOne(sorted, q);
      TimesUnits(Spread(sorted));
    } else {
      var j, k := SegmentOf(|sorted|, a), SegmentOf(|sorted|, b);
      OnEachSegment(sorted, p, j);
      OnEachSegment(sorted, q, k);
      if b <= (j + 1) as real {
        OnEachSegment(sorted, q, j);
        SegmentSlope(sorted, j, a, b);
      } else {
        SegmentSlope(sorted, j, a, (j + 1) as real);
        SegmentSlope(sorted, k, k as real, b);
        Across(sorted, j, k);
        TimesAdds(Spread(sorted), (j + 1) as real - a, (k - j - 1) as real);
        TimesAdds(Spread(sorted), k as real - a, b - k as real);
      }
    }
  }

  lemma RankMonotone(n: nat, p: real, q: real)
    requires 0.0 <= p <= q <= 1.0 && n > 0
    ensures Rank(n, p) <= Rank(n, q)
  {
    hide Times;
    TimesGrows(p, q, (n - 1) as real);
  }

  lemma PercentileOfOne(sorted: seq<real>, pct: real)
    requires 0.0 <= pct <= 1.0 && |sorted| == 1
    ensures Percentile(sorted, pct) == sorted[0]
  {}

  lemma Across(sorted: seq<real>, j: nat, k: nat)
    requires Ascending(sorted) && j < k && k + 1 < |sorted|
    ensures OnSegment(sorted, j, (j + 1) as real) <= OnSegment(sorted, k, k as real)
    ensures OnSegment(sorted, k, k as real) - OnSegment(sorted, j, (j + 1) as real) <=
            Times(Spread(sorted), (k - j - 1) as real)
  {
    hide Times;
    TimesUnits(sorted[j + 1] - sorted[j]);
    TimesUnits(sorted[k + 1] - sorted[k]);
    TimesUnits(Spread(sorted));
    var d := (k - j - 1) as real;
    if k > j + 1 {
      TimesGrows(1.0, d, Spread(sorted));
      TimesSwaps(Spread(sorted), d);
    }
  }

  /** `statistics.median` of sorted data. */
  function Median(sorted: seq<real>): real
    requires sorted != []
  {
    var n := |sorted|;
    if n % 2 == 1 then sorted[n / 2] else (sorted[n / 2 - 1] + sorted[n / 2]) / 2.0
  }

  lemma HalfIsMedian(sorted: seq<real>)
    requires sorted != []
    ensures Percentile(sorted, 0.5) == Median(sorted)
  {
    var n := |sorted|;
    if n > 1 {
      if n % 2 == 1 {
        assert n == 2 * (n / 2) + 1;
        assert Rank(n, 0.5) == (n / 2) as real;
      } else {
        assert n == 2 * (n / 2);
        assert Rank(n, 0.5) == (n / 2 - 1) as real + 0.5;
      }
      OnEachSegment(sorted, 0.5, n / 2 - 1);
    }
  }

  /** The extreme percentiles are the minimum and the maximum. */
  lemma PercentileEnds(sorted: seq<real>)
    requires sorted != []
    ensures Percentile(sorted, 0.0) == sorted[0] && Percentile(sorted, 1.0) == sorted[|sorted| - 1]
  {
    hide Times, Percentile;
    if |sorted| > 1 {
      TimesUnits((|sorted| - 1) as real);
      OnEachSegment(sorted, 0.0, 0);
      OnEachSegment(sorted, 1.0, |sorted| - 2);
      TimesUnits(sorted[1] - sorted[0]);
      TimesUnits(sorted[|sorted| - 1] - sorted[|sorted| - 2]);
    } else {
      PercentileOfOne(sorted, 0.0);
      PercentileOfOne(sorted, 1.0);
    }
  }

  /**
   * The percentile is linear between neighbouring ranks: with rank pct * (n - 1) in the closed range
   * from k to k + 1 it divides the step from element k to the next in proportion.  Where two ranges
   * meet both give the same value, so there is no jump at a rank.
   */
  lemma PercentileOnSegment(sorted: seq<real>, pct: real, k: nat)
    requires 0.0 <= pct <= 1.0 && k + 1 < |sorted|
    requires k as real <= pct * (|sorted| - 1) as real <= (k + 1) as real
    ensures Percentile(sorted, pct) ==
            sorted[k] + (sorted[k + 1] - sorted[k]) * (pct * (|sorted| - 1) as real - k as real)
  {
    hide Percentile;
    OnEachSegment(sorted, pct, k);
  }

  /**
   * Percentiles are monotone in pct and continuous: a change of pct changes the value by at most the
   * spread of the data times the change of rank.
   */
  lemma PercentileMonotone(sorted: seq<real>, p: real, q: real)
    requires Ascending(sorted) && sorted != [] && 0.0 <= p <= q <= 1.0
    ensures var n := |sorted|;
      0.0 <= Percentile(sorted, q) - Percentile(sorted, p) <=
      (sorted[n - 1] - sorted[0]) * (q * (n - 1) as real - p * (n - 1) as real)
  {
    hide Percentile, Ascending;
    GrowsByRank(sorted, p, q);
    assert Rank(|sorted|, p) == p * (|sorted| - 1) as real && Rank(|sorted|, q) == q * (|sorted| - 1) as real;
  }

  /** The 50th percentile is the middle element, or the mean of the two middle elements. */
  lemma MedianIsPercentile(sorted: seq<real>)
    requires sorted != []
    ensures var n := |sorted|;
      Percentile(sorted, 0.5) == if n % 2 == 1 then sorted[n / 2] else (sorted[n / 2 - 1] + sorted[n / 2]) / 2.0
  {
    hide Percentile;
    HalfIsMedian(sorted);
  }

  // ---------------------------------------------------------------------------------------------
  // Latency statistics
  // ---------------------------------------------------------------------------------------------

  datatype Stats = NoStats | Stats(count: nat, min: int, median: real, p95: real, max: int)

  const ByValue: int -> S.Key := (x: int) => S.Key(x, 0)

  function Sorted(values: seq<int>): (s: seq<int>)
    ensures values != [] ==> s != []
  {
    S.SortKeepsElements(values, ByValue);
    S.Sort(values, ByValue)
  }

  function Reals(values: seq<int>): (r: seq<real>)
    ensures |r| == |values| && forall i :: 0 <= i < |r| ==> r[i] == values[i] as real
  {
    if values == [] then [] else [values[0] as real] + Reals(values[1..])
  }

  function LatencyStats(latencies: seq<int>): Stats {
    if latencies == [] then NoStats
    else
      var ordered := Sorted(latencies);
      var reals := Reals(ordered);
      Stats(|ordered|, ordered[0], Median(reals), Percentile(reals, 0.95), ordered[|ordered| - 1])
  }

  ghost predicate AscendingInts(s: seq<int>) {
    forall i, j :: 0 <= i <= j < |s| ==> s[i] <= s[j]
  }

  lemma {:induction false} InsertAscends(x: int, s: seq<int>)
    requires AscendingInts(s)
    ensures AscendingInts(S.Insert(x, s, ByValue))
  {
    if s != [] && s[0] < x {
      var t := S.Insert(x, s[1..], ByValue);
      InsertAscends(x, s[1..]);
      forall i | 0 <= i < |t| ensures s[0] <= t[i] {
        S.InsertAdds(x, s[1..], ByValue, t[i]);
      }
    }
  }

  lemma {:induction false} SortAscends(s: seq<int>)
    ensures AscendingInts(S.Sort(s, ByValue))
  {
    if s != [] {
      SortAscends(s[1..]);
      InsertAscends(s[0], S.Sort(s[1..], ByValue));
    }
  }

  lemma OrderedStats(latencies: seq<int>)
    requires latencies != []
    ensures var s := LatencyStats(latencies);
      && s.Stats? && s.count == |latencies|
      && s.min as real <= s.median <= s.p95 <= s.max as real
      && s.min in latencies && s.max in latencies
      && forall x :: x in latencies ==> s.min <= x <= s.max
  {
    hide Percentile, Median;
    var ordered := Sorted(latencies);
    SortAscends(latencies);
    S.SortKeepsElements(latencies, ByValue);
    var reals := Reals(ordered);
    PercentileEnds(reals);
    HalfIsMedian(reals);
    GrowsByRank(reals, 0.0, 0.5);
    GrowsByRank(reals, 0.5, 0.95);
    GrowsByRank(reals, 0.95, 1.0);
    assert ordered[0] in ordered && ordered[|ordered| - 1] in ordered;
    forall x | x in latencies ensures ordered[0] <= x <= ordered[|ordered| - 1] {
      assert x in ordered;
    }
  }

  lemma {:induction false} InsertPermutes(x: int, s: seq<int>)
    ensures multiset(S.Insert(x, s, ByValue)) == multiset(s) + multiset{x}
  {
    if s != [] && s[0] < x {
      InsertPermutes(x, s[1..]);
      assert s == [s[0]] + s[1..];
    }
  }

  lemma {:induction false} SortPermutes(s: seq<int>)
    ensures multiset(S.Sort(s, ByValue)) == multiset(s)
  {
    if s != [] {
      SortPermutes(s[1..]);
      InsertPermutes(s[0], S.Sort(s[1..], ByValue));
      assert s == [s[0]] + s[1..];
    }
  }

  lemma TailOf(s: seq<int>)
    requires s != [] && AscendingInts(s)
    ensures AscendingInts(s[1..]) && multiset(s[1..]) == multiset(s) - multiset{s[0]}
  {
    assert s == [s[0]] + s[1..];
  }

  lemma SameLeast(a: seq<int>, b: seq<int>)
    requires AscendingInts(a) && AscendingInts(b) && a != [] && multiset(a) == multiset(b)
    ensures b != [] && a[0] == b[0]
  {
    assert a[0] in multiset(b);
    assert b[0] in multiset(a);
    var i :| 0 <= i < |b| && b[i] == a[0];
    var j :| 0 <= j < |a| && a[j] == b[0];
  }

  lemma {:induction false} OneAscendingOrder(a: seq<int>, b: seq<int>)
    requires AscendingInts(a) && AscendingInts(b) && multiset(a) == multiset(b)
    ensures a == b
    decreases |a|
  {
    hide AscendingInts;
    if a == [] {
      assert |b| == |multiset(b)|;
    } else {
      SameLeast(a, b);
      TailOf(a);
      TailOf(b);
      OneAscendingOrder(a[1..], b[1..]);
      assert a == [a[0]] + a[1..] && b == [b[0]] + b[1..];
    }
  }

  lemma StatsOfOrdered(latencies: seq<int>, ordered: seq<int>)
    requires latencies != [] && AscendingInts(ordered) && multiset(ordered) == multiset(latencies)
    ensures |ordered| == |latencies|
    ensures LatencyStats(latencies) ==
            Stats(|ordered|, ordered[0], Median(Reals(ordered)), Percentile(Reals(ordered), 0.95), ordered[|ordered| - 1])
  {
    hide Percentile, Median, Reals;
    assert |ordered| == |multiset(ordered)| == |multiset(latencies)| == |latencies|;
    SortAscends(latencies);
    SortPermutes(latencies);
    OneAscendingOrder(Sorted(latencies), ordered);
  }

  /** Whichever way the latencies are put in order: their number, least, middle and greatest value. */
  lemma StatsAreOrdered(latencies: seq<int>, ordered: seq<int>)
    requires latencies != [] && AscendingInts(ordered) && multiset(ordered) == multiset(latencies)
    ensures |ordered| == |latencies|
    ensures var s, n := LatencyStats(latencies), |latencies|;
      && s.Stats? && s.count == n && s.min == ordered[0] && s.max == ordered[n - 1]
      && s.median == (if n % 2 == 1 then ordered[n / 2] as real else (ordered[n / 2 - 1] as real + ordered[n / 2] as real) / 2.0)
      && s.min as real <= s.median <= s.p95 <= s.max as real
  {
    hide Percentile, LatencyStats;
    StatsOfOrdered(latencies, ordered);
    OrderedStats(latencies);
  }

  /** The p95 figure is the value at rank 0.95 * (n - 1) of the ordered latencies, between its two neighbours in proportion. */
  lemma P95IsInterpolated(latencies: seq<int>, ordered: seq<int>, reals: seq<real>, k: nat)
    requires AscendingInts(ordered) && multiset(ordered) == multiset(latencies) && k + 1 < |ordered|
    requires |reals| == |ordered| && forall i :: 0 <= i < |reals| ==> reals[i] == ordered[i] as real
    requires k as real <= 0.95 * (|reals| - 1) as real <= (k + 1) as real
    ensures LatencyStats(latencies).Stats?
    ensures LatencyStats(latencies).p95 ==
            reals[k] + (reals[k + 1] - reals[k]) * (0.95 * (|reals| - 1) as real - k as real)
  {
    hide *;
    P95OfOrdered(latencies, ordered, reals);
    PercentileOnSegment(reals, 0.95, k);
  }

  lemma P95OfOrdered(latencies: seq<int>, ordered: seq<int>, reals: seq<real>)
    requires AscendingInts(ordered) && multiset(ordered) == multiset(latencies) && ordered != []
    requires |reals| == |ordered| && forall i :: 0 <= i < |reals| ==> reals[i] == ordered[i] as real
    ensures LatencyStats(latencies).Stats? && LatencyStats(latencies).p95 == Percentile(reals, 0.95)
  {
    hide Percentile, Median, LatencyStats, AscendingInts;
    assert |latencies| == |multiset(latencies)| == |multiset(ordered)| == |ordered|;
    StatsOfOrdered(latencies, ordered);
    assert Reals(ordered) == reals;
  }

  // ---------------------------------------------------------------------------------------------
  // The report
  // ---------------------------------------------------------------------------------------------

  datatype Bucket = Deterministic | Ai | AlreadyClassifiedOtherSource | DeterministicConflict | AiFailure
                  | ContextUnsupported | AiInProgress | UnknownBucket

  datatype Proposal = ReviewRequired | Unclassifiable | OtherOutcome

  /** `schemaCode`: the item's error code, in upper case, contains SCHEMA. */
  datatype Item = Item(
    evidenceId: string,
    expected: string,
    actual: Option<string>,
    bucket: Bucket,
    outcome: Proposal,
    correct: Option<bool>,
    newInvocation: Option<bool>,
    latencyMs: Option<int>,
    schemaCode: bool)

  /** A total with its correct and incorrect parts. */
  datatype Score = Score(total: nat, correct: nat, incorrect: nat)

  const NO_SCORE := Score(0, 0, 0)

  datatype Report = Report(
    overall: Score,
    perType: map<string, Score>,
    confusion: map<string, nat>,
    deterministic: Score,
    conflicts: nat,
    ai: Score,
    reviewRequired: nat,
    unclassifiable: nat,
    other: Score,
    failures: seq<string>,
    schemaFailures: seq<string>,
    unsupported: seq<string>,
    inProgress: seq<string>,
    newInvocations: nat,
    reusedInvocations: nat,
    latencies: seq<int>,
    blocking: seq<string>)

  const EMPTY := Report(NO_SCORE, map[], map[], NO_SCORE, 0, NO_SCORE, 0, 0, NO_SCORE, [], [], [], [], 0, 0, [], [])

  function Judge(s: Score, correct: Option<bool>): Score {
    Score(s.total + 1,
          s.correct + (if correct == Some(true) then 1 else 0),
          s.incorrect + (if correct == Some(false) then 1 else 0))
  }

  /** The key of the confusion table, `expected->actual`; a missing actual type prints as None. */
  function PairKey(item: Item): string {
    item.expected + "->" + (if item.actual.Some? then item.actual.value else "None")
  }

  function AddInvocation(r: Report, item: Item): Report {
    if item.newInvocation == Some(true) then
      r.(newInvocations := r.newInvocations + 1,
         latencies := if item.latencyMs.Some? then r.latencies + [item.latencyMs.value] else r.latencies)
    else if item.newInvocation == Some(false) then r.(reusedInvocations := r.reusedInvocations + 1)
    else r
  }

  function AddBucket(r: Report, item: Item): Report {
    match item.bucket
    case Deterministic =>
      r.(deterministic := Judge(r.deterministic, item.correct),
         blocking := if item.correct == Some(false) then r.blocking + [item.evidenceId] else r.blocking)
    case Ai =>
      r.(ai := Judge(r.ai, item.correct),
         reviewRequired := r.reviewRequired + (if item.outcome == ReviewRequired then 1 else 0),
         unclassifiable := r.unclassifiable + (if item.outcome == Unclassifiable then 1 else 0))
    case AlreadyClassifiedOtherSource =>
      r.(other := Score(r.other.total + 1, r.other.correct + (if item.correct == Some(true) then 1 else 0), 0))
    case DeterministicConflict => r.(conflicts := r.conflicts + 1, blocking := r.blocking + [item.evidenceId])
    case AiFailure =>
      r.(failures := r.failures + [item.evidenceId],
         schemaFailures := if item.schemaCode then r.schemaFailures + [item.evidenceId] else r.schemaFailures)
    case ContextUnsupported => r.(unsupported := r.unsupported + [item.evidenceId])
    case AiInProgress => r.(inProgress := r.inProgress + [item.evidenceId])
    case UnknownBucket => r
  }

  function AddOverall(r: Report, item: Item): Report {
    if item.correct.None? then r
    else
      var ofType := if item.expected in r.perType then r.perType[item.expected] else NO_SCORE;
      var pairs := if PairKey(item) in r.confusion then r.confusion[PairKey(item)] else 0;
      r.(overall := Judge(r.overall, item.correct),
         perType := r.perType[item.expected := Judge(ofType, item.correct)],
         confusion := if item.correct.value then r.confusion else r.confusion[PairKey(item) := pairs + 1])
  }

  function Add(r: Report, item: Item): Report {
    AddOverall(AddBucket(AddInvocation(r, item), item), item)
  }

  function ReportOf(items: seq<Item>): Report {
    if items == [] then EMPTY else Add(ReportOf(items[..|items| - 1]), items[|items| - 1])
  }

  function Count(items: seq<Item>, p: Item -> bool): nat {
    if items == [] then 0
    else Count(items[..|items| - 1], p) + (if p(items[|items| - 1]) then 1 else 0)
  }

  /** The sum of a table's values. */
  ghost function Sum(m: map<string, nat>): nat {
    if m == map[] then 0 else var k :| k in m; m[k] + Sum(m - {k})
  }

  ghost function Totals(m: map<string, Score>): map<string, nat> { map k | k in m :: m[k].total }

  ghost function Corrects(m: map<string, Score>): map<string, nat> { map k | k in m :: m[k].correct }

  ghost function Incorrects(m: map<string, Score>): map<string, nat> { map k | k in m :: m[k].incorrect }

  lemma {:induction false} SumOneOut(m: map<string, nat>, k: string)
    requires k in m
    ensures Sum(m) == m[k] + Sum(m - {k})
  {
    var j :| j in m && Sum(m) == m[j] + Sum(m - {j});
    if j != k {
      SumOneOut(m - {j}, k);
      SumOneOut(m - {k}, j);
      assert m - {j} - {k} == m - {k} - {j};
    }
  }

  lemma SumOfUpdate(m: map<string, nat>, k: string, v: nat)
    ensures Sum(m[k := v]) == Sum(m) + v - (if k in m then m[k] else 0)
  {
    SumOneOut(m[k := v], k);
    if k in m {
      SumOneOut(m, k);
      assert m[k := v] - {k} == m - {k};
    } else {
      assert m[k := v] - {k} == m;
    }
  }

  lemma OverallStep(r: Report, item: Item)
    ensures var a := Add(r, item); var base := AddOverall(r, item);
      a.overall == base.overall && a.perType == base.perType && a.confusion == base.confusion
  {
    var r1 := AddInvocation(r, item);
    assert r1.overall == r.overall && r1.perType == r.perType && r1.confusion == r.confusion;
    var r2 := AddBucket(r1, item);
    assert r2.overall == r1.overall && r2.perType == r1.perType && r2.confusion == r1.confusion;
    hide AddInvocation, AddBucket, PairKey;
  }

  lemma TotalsOfUpdate(m: map<string, Score>, key: string, s: Score)
    ensures var was := if key in m then m[key] else NO_SCORE;
      && Sum(Totals(m[key := s])) == Sum(Totals(m)) + s.total - was.total
      && Sum(Corrects(m[key := s])) == Sum(Corrects(m)) + s.correct - was.correct
      && Sum(Incorrects(m[key := s])) == Sum(Incorrects(m)) + s.incorrect - was.incorrect
  {
    hide Sum;
    SumOfUpdate(Totals(m), key, s.total);
    SumOfUpdate(Corrects(m), key, s.correct);
    SumOfUpdate(Incorrects(m), key, s.incorrect);
    assert Totals(m[key := s]) == Totals(m)[key := s.total];
    assert Corrects(m[key := s]) == Corrects(m)[key := s.correct];
    assert Incorrects(m[key := s]) == Incorrects(m)[key := s.incorrect];
  }

  lemma SumsStep(r: Report, item: Item)
    requires Balanced(r)
    ensures Balanced(AddOverall(r, item))
  {
    hide Sum, Totals, Corrects, Incorrects, PairKey;
    if item.correct.Some? {
      var ofType := if item.expected in r.perType then r.perType[item.expected] else NO_SCORE;
      TotalsOfUpdate(r.perType, item.expected, Judge(ofType, item.correct));
      var pairs := if PairKey(item) in r.confusion then r.confusion[PairKey(item)] else 0;
      SumOfUpdate(r.confusion, PairKey(item), pairs + 1);
    }
  }

  ghost predicate Balanced(r: Report) {
    && Sum(Totals(r.perType)) == r.overall.total
    && Sum(Corrects(r.perType)) == r.overall.correct
    && Sum(Incorrects(r.perType)) == r.overall.incorrect
    && Sum(r.confusion) == r.overall.incorrect
    && r.overall.total == r.overall.correct + r.overall.incorrect
  }

  /**
   * Conservation: the per-type totals, correct and incorrect counts add up to the overall ones, and
   * the confusion counts add up to the overall incorrect count.
   */
  lemma {:induction false} TablesAddUp(items: seq<Item>)
    ensures Balanced(ReportOf(items))
  {
    if items == [] {
      EmptyBalanced();
    } else {
      hide Balanced;
      var r, item := ReportOf(items[..|items| - 1]), items[|items| - 1];
      TablesAddUp(items[..|items| - 1]);
      SumsStep(r, item);
      OverallStep(r, item);
      SameTables(AddOverall(r, item), Add(r, item));
    }
  }

  lemma EmptyBalanced()
    ensures Balanced(EMPTY)
  {
    assert Totals(map[]) == map[] && Corrects(map[]) == map[] && Incorrects(map[]) == map[];
  }

  lemma SameTables(a: Report, b: Report)
    requires Balanced(a) && a.overall == b.overall && a.perType == b.perType && a.confusion == b.confusion
    ensures Balanced(b)
  {}

  /** Each table entry counts exactly the judged items of its type, and each pair key its misjudged items. */
  lemma {:induction false} TablesCount(items: seq<Item>, key: string)
    ensures var r := ReportOf(items);
      var judged := Count(items, (i: Item) => i.correct.Some? && i.expected == key);
      var right := Count(items, (i: Item) => i.correct == Some(true) && i.expected == key);
      var confused := Count(items, (i: Item) =>
        i.correct == Some(false) && i.expected + "->" + (if i.actual.Some? then i.actual.value else "None") == key);
      && (key in r.perType <==> judged > 0) && right <= judged
      && (key in r.perType ==> r.perType[key].total == judged && r.perType[key].correct == right)
      && (key in r.confusion <==> confused > 0)
      && (key in r.confusion ==> r.confusion[key] == confused)
  {
    if items != [] {
      TablesCount(items[..|items| - 1], key);
      OverallStep(ReportOf(items[..|items| - 1]), items[|items| - 1]);
      hide Add;
    }
  }

  /** A figure of the report that every item raises by one or leaves alone. */
  ghost predicate Ticks(figure: Report -> int, on: Item -> bool) {
    && figure(EMPTY) == 0
    && forall r: Report, item: Item :: figure(Add(r, item)) == figure(r) + (if on(item) then 1 else 0)
  }

  /** Any such figure counts exactly the items that raise it. */
  lemma {:induction false} FigureCounts(items: seq<Item>, figure: Report -> int, on: Item -> bool)
    requires Ticks(figure, on)
    ensures figure(ReportOf(items)) == Count(items, on)
  {
    hide Add;
    if items != [] { FigureCounts(items[..|items| - 1], figure, on); }
  }

  /** The items that fall into one of the named buckets. */
  function Bucketed(r: Report): int {
    r.deterministic.total + r.ai.total + r.other.total + r.conflicts + |r.failures| + |r.unsupported| + |r.inProgress|
  }

  lemma OutsideBuckets(r: Report, item: Item)
    ensures Bucketed(AddInvocation(r, item)) == Bucketed(r) == Bucketed(AddOverall(r, item))
  {
    hide PairKey, Judge;
  }

  lemma OneBucket(r: Report, item: Item)
    ensures Bucketed(AddBucket(r, item)) == Bucketed(r) + (if item.bucket != UnknownBucket then 1 else 0)
  {}

  /** Every item of a named bucket is counted in exactly one bucket. */
  lemma BucketsPartition(items: seq<Item>)
    ensures Bucketed(ReportOf(items)) == Count(items, (i: Item) => i.bucket != UnknownBucket)
  {
    hide AddInvocation, AddBucket, AddOverall, Bucketed;
    forall r: Report, item: Item
      ensures Bucketed(Add(r, item)) == Bucketed(r) + (if item.bucket != UnknownBucket then 1 else 0)
    {
      OutsideBuckets(r, item);
      OneBucket(AddInvocation(r, item), item);
      OutsideBuckets(AddBucket(AddInvocation(r, item), item), item);
    }
    assert Bucketed(EMPTY) == 0 by { NoneBucketed(); }
    FigureCounts(items, Bucketed, (i: Item) => i.bucket != UnknownBucket);
  }

  lemma NoneBucketed()
    ensures Bucketed(EMPTY) == 0
  {}

  /** The evidence ids of the chosen items, in order. */
  function Listed(items: seq<Item>, p: Item -> bool): seq<string> {
    if items == [] then []
    else
      var n := |items| - 1;
      Listed(items[..n], p) + (if p(items[n]) then [items[n].evidenceId] else [])
  }

  /** The run is blocked by exactly the wrong deterministic answers and the conflicts, in order. */
  lemma {:induction false} BlockedOncePerFinding(items: seq<Item>)
    ensures ReportOf(items).blocking ==
      Listed(items, (i: Item) => i.bucket == DeterministicConflict || (i.bucket == Deterministic && i.correct == Some(false)))
  {
    hide PairKey, Judge;
    if items != [] { BlockedOncePerFinding(items[..|items| - 1]); }
  }

  lemma InvocationFrame(r: Report, item: Item)
    ensures var a := AddInvocation(r, item);
      a == r.(newInvocations := a.newInvocations, reusedInvocations := a.reusedInvocations, latencies := a.latencies)
  {}

  lemma OverallFrame(r: Report, item: Item)
    ensures var a := AddOverall(r, item); a == r.(overall := a.overall, perType := a.perType, confusion := a.confusion)
  {
    hide PairKey, Judge;
  }

  lemma BucketFrame(r: Report, item: Item)
    ensures var a := AddBucket(r, item);
      && a.newInvocations == r.newInvocations && a.reusedInvocations == r.reusedInvocations && a.latencies == r.latencies
  {
    hide Judge;
  }

  lemma ListsStep(r: Report, item: Item)
    ensures var a := Add(r, item);
      && a.failures == r.failures + (if item.bucket == AiFailure then [item.evidenceId] else [])
      && a.schemaFailures == r.schemaFailures + (if item.bucket == AiFailure && item.schemaCode then [item.evidenceId] else [])
      && a.unsupported == r.unsupported + (if item.bucket == ContextUnsupported then [item.evidenceId] else [])
      && a.inProgress == r.inProgress + (if item.bucket == AiInProgress then [item.evidenceId] else [])
  {
    InvocationFrame(r, item);
    OverallFrame(AddBucket(AddInvocation(r, item), item), item);
    hide PairKey, Judge, AddInvocation, AddOverall;
  }

  /** The four lists of the report name exactly the items of their bucket, in order. */
  lemma {:induction false} ListsNameItems(items: seq<Item>)
    ensures var r := ReportOf(items);
      && r.failures == Listed(items, (i: Item) => i.bucket == AiFailure)
      && r.schemaFailures == Listed(items, (i: Item) => i.bucket == AiFailure && i.schemaCode)
      && r.unsupported == Listed(items, (i: Item) => i.bucket == ContextUnsupported)
      && r.inProgress == Listed(items, (i: Item) => i.bucket == AiInProgress)
  {
    hide Add;
    if items != [] {
      ListsNameItems(items[..|items| - 1]);
      ListsStep(ReportOf(items[..|items| - 1]), items[|items| - 1]);
    }
  }

  lemma ScoresStep(r: Report, item: Item)
    ensures var a := Add(r, item);
      && a.deterministic == (if item.bucket == Deterministic then Judge(r.deterministic, item.correct) else r.deterministic)
      && a.ai == (if item.bucket == Ai then Judge(r.ai, item.correct) else r.ai)
  {
    InvocationFrame(r, item);
    OverallFrame(AddBucket(AddInvocation(r, item), item), item);
    hide Judge, AddInvocation, AddOverall;
  }

  /** The scores of the two classifiers count their own items, right and wrong ones apart. */
  lemma {:induction false} ScoresCount(items: seq<Item>)
    ensures var r := ReportOf(items);
      && r.deterministic.total == Count(items, (i: Item) => i.bucket == Deterministic)
      && r.deterministic.correct == Count(items, (i: Item) => i.bucket == Deterministic && i.correct == Some(true))
      && r.deterministic.incorrect == Count(items, (i: Item) => i.bucket == Deterministic && i.correct == Some(false))
      && r.ai.total == Count(items, (i: Item) => i.bucket == Ai)
      && r.ai.correct == Count(items, (i: Item) => i.bucket == Ai && i.correct == Some(true))
      && r.ai.incorrect == Count(items, (i: Item) => i.bucket == Ai && i.correct == Some(false))
  {
    hide Add;
    if items != [] {
      ScoresCount(items[..|items| - 1]);
      ScoresStep(ReportOf(items[..|items| - 1]), items[|items| - 1]);
    }
  }

  lemma FiguresStep(r: Report, item: Item)
    ensures var a := Add(r, item);
      && a.other.total == r.other.total + (if item.bucket == AlreadyClassifiedOtherSource then 1 else 0)
      && a.other.correct ==
         r.other.correct + (if item.bucket == AlreadyClassifiedOtherSource && item.correct == Some(true) then 1 else 0)
      && a.conflicts == r.conflicts + (if item.bucket == DeterministicConflict then 1 else 0)
      && a.reviewRequired == r.reviewRequired + (if item.bucket == Ai && item.outcome == ReviewRequired then 1 else 0)
      && a.unclassifiable == r.unclassifiable + (if item.bucket == Ai && item.outcome == Unclassifiable then 1 else 0)
      && a.newInvocations == r.newInvocations + (if item.newInvocation == Some(true) then 1 else 0)
      && a.reusedInvocations == r.reusedInvocations + (if item.newInvocation == Some(false) then 1 else 0)
  {
    var r1 := AddInvocation(r, item);
    InvocationFrame(r, item);
    BucketFrame(r1, item);
    OverallFrame(AddBucket(r1, item), item);
    hide PairKey, Judge, AddOverall;
  }

  /** So do the other figures of the report. */
  lemma {:induction false} FiguresCount(items: seq<Item>)
    ensures var r := ReportOf(items);
      && r.other.total == Count(items, (i: Item) => i.bucket == AlreadyClassifiedOtherSource)
      && r.other.correct == Count(items, (i: Item) => i.bucket == AlreadyClassifiedOtherSource && i.correct == Some(true))
      && r.conflicts == Count(items, (i: Item) => i.bucket == DeterministicConflict)
      && r.reviewRequired == Count(items, (i: Item) => i.bucket == Ai && i.outcome == ReviewRequired)
      && r.unclassifiable == Count(items, (i: Item) => i.bucket == Ai && i.outcome == Unclassifiable)
      && r.newInvocations == Count(items, (i: Item) => i.newInvocation == Some(true))
      && r.reusedInvocations == Count(items, (i: Item) => i.newInvocation == Some(false))
  {
    hide Add;
    if items != [] {
      FiguresCount(items[..|items| - 1]);
      FiguresStep(ReportOf(items[..|items| - 1]), items[|items| - 1]);
    }
  }

  /** Latencies are taken of new invocations only, each where it was measured. */
  lemma LatencyStep(items: seq<Item>, item: Item)
    ensures ReportOf(items + [item]).latencies == ReportOf(items).latencies
            + (if item.newInvocation == Some(true) && item.latencyMs.Some? then [item.latencyMs.value] else [])
    ensures ReportOf([]).latencies == []
  {
    hide Add;
    assert (items + [item])[..|items|] == items;
    LatencyTaken(ReportOf(items), item);
  }

  lemma LatencyTaken(r: Report, item: Item)
    ensures Add(r, item).latencies == r.latencies
            + (if item.newInvocation == Some(true) && item.latencyMs.Some? then [item.latencyMs.value] else [])
  {
    hide AddBucket, AddOverall;
    var r1 := AddInvocation(r, item);
    BucketFrame(r1, item);
    OverallFrame(AddBucket(r1, item), item);
  }

  /** The overall total counts the judged items. */
  lemma TotalCountsJudged(items: seq<Item>)
    ensures ReportOf(items).overall.total == Count(items, (i: Item) => i.correct.Some?)
  {
    hide AddInvocation, AddBucket, PairKey;
    forall r: Report, item: Item
      ensures Add(r, item).overall.total == r.overall.total + (if item.correct.Some? then 1 else 0)
    {
      OverallStep(r, item);
    }
    FigureCounts(items, (r: Report) => r.overall.total, (i: Item) => i.correct.Some?);
  }

  function Accuracy(s: Score): (a: Option<real>)
    ensures s.correct <= s.total && a.Some? ==> 0.0 <= a.value <= 1.0
  {
    if s.total == 0 then None else Some(s.correct as real / s.total as real)
  }

  /** The overall accuracy: of the judged items, the share that was right; none when nothing was judged. */
  lemma {:induction false} AccuracyIsShare(items: seq<Item>)
    ensures var judged, right := Count(items, (i: Item) => i.correct.Some?), Count(items, (i: Item) => i.correct == Some(true));
      Accuracy(ReportOf(items).overall) == if judged == 0 then None else Some(right as real / judged as real)
  {
    TotalCountsJudged(items);
    CorrectCountsRight(items);
  }

  lemma {:induction false} CorrectCountsRight(items: seq<Item>)
    ensures ReportOf(items).overall.correct == Count(items, (i: Item) => i.correct == Some(true))
  {
    if items != [] {
      hide PairKey, Add;
      var n := |items| - 1;
      CorrectCountsRight(items[..n]);
      OverallStep(ReportOf(items[..n]), items[n]);
    }
  }

  /** `build_report`: one pass over the items, updating counters and tables in place. */
  method BuildReport(items: seq<Item>) returns (r: Report, stats: Stats, accuracy: Option<real>)
    ensures r == ReportOf(items)
    ensures stats == LatencyStats(r.latencies) && accuracy == Accuracy(r.overall)
  {
    hide LatencyStats, AddInvocation, AddBucket, PairKey;
    r := EMPTY;
    var i := 0;
    while i < |items|
      invariant 0 <= i <= |items|
      invariant r == ReportOf(items[..i])
    {
      var item := items[i];
      assert items[..i + 1][..i] == items[..i];
      ghost var was := r;
      r := AddBucket(AddInvocation(r, item), item);
      if item.correct.Some? {
        var perType := r.perType;
        if item.expected !in perType { perType := perType[item.expected := NO_SCORE]; }
        var s := perType[item.expected];
        if item.correct.value {
          r := r.(overall := Score(r.overall.total + 1, r.overall.correct + 1, r.overall.incorrect),
                  perType := perType[item.expected := Score(s.total + 1, s.correct + 1, s.incorrect)]);
        } else {
          var key := PairKey(item);
          r := r.(overall := Score(r.overall.total + 1, r.overall.correct, r.overall.incorrect + 1),
                  perType := perType[item.expected := Score(s.total + 1, s.correct, s.incorrect + 1)],
                  confusion := r.confusion[key := (if key in r.confusion then r.confusion[key] else 0) + 1]);
        }
      }
      assert r == Add(was, item);
      i := i + 1;
    }
    assert items[..i] == items;
    stats := LatencyStats(r.latencies);
    accuracy := Accuracy(r.overall);
  }
}
