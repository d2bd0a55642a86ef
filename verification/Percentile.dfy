/** TimerReport::GetPercentileDurationNsec of src/timer/timer_enable.cc against the sorted
    durations the report was made from. The rank is rounded exactly, half away from zero. */
module Percentile {
  import opened Histogram

  function TotalHits(buckets: seq<Bucket>): nat
  {
    if buckets == [] then 0 else TotalHits(buckets[..|buckets| - 1]) + buckets[|buckets| - 1].hits
  }

  /** The rank a percentile below 100 asks for, counting from 1. */
  function Rank(total: nat, percent: nat): nat
  {
    (total * percent + 50) / 100
  }

  // The first bucket at which the accumulated hits reach the rank.
  predicate Reaches(buckets: seq<Bucket>, i: nat, rank: nat)
  {
    && i < |buckets|
    && TotalHits(buckets[..i]) < rank <= TotalHits(buckets[..i + 1])
  }

  function Clamp(percent: int): nat
  {
    if percent < 0 then 0 else if percent > 100 then 100 else percent
  }

  class TimerReport {
    var buckets: seq<Bucket>   // report_buckets_
    var max: nat               // max_duration_ns_

    constructor (buckets: seq<Bucket>, max: nat)
      ensures this.buckets == buckets && this.max == max
    {
      this.buckets, this.max := buckets, max;
    }

    method GetTotalHits() returns (total: nat)
      ensures total == TotalHits(buckets)
    {
      total := 0;
      for i := 0 to |buckets|
        invariant total == TotalHits(buckets[..i])
      {
        total := total + buckets[i].hits;
        assert buckets[..i + 1][..i] == buckets[..i];
      }
      assert buckets[..|buckets|] == buckets;
    }

    method GetPercentileDurationNsec(percent: int) returns (duration: nat)
      ensures IsPercentile(buckets, max, percent, duration)
    {
      var p := percent;
      if p < 0 { p := 0; }
      if p > 100 { p := 100; }
      if p == 100 {
        return max;
      }
      var totalHits := GetTotalHits();
      var targetHits := (totalHits * p + 50) / 100;
      if targetHits == 0 {
        return 0;
      }
      RankInRange(totalHits, p);
      assert buckets[..|buckets|] == buckets;
      var currentHits := 0;
      for i := 0 to |buckets|
        invariant currentHits == TotalHits(buckets[..i]) < targetHits
      {
        currentHits := currentHits + buckets[i].hits;
        assert buckets[..i + 1][..i] == buckets[..i];
        if currentHits >= targetHits {
          assert IsAverageAt(buckets, i, targetHits, buckets[i].total / buckets[i].hits);
          return buckets[i].total / buckets[i].hits;
        }
      }
      assert false;  // the end of the source's loop, which it logs as never reached
    }
  }

  lemma {:induction false} RankInRange(total: nat, percent: nat)
    requires percent < 100
    ensures Rank(total, percent) <= total
  {
    MostOfTotal(total, percent);
    RoundedIsBelow(total * percent, total);
  }

  lemma {:induction false} MostOfTotal(total: nat, percent: nat)
    requires percent < 100
    ensures total * percent <= total * 99
  {
  }

  lemma {:induction false} RoundedIsBelow(part: nat, total: nat)
    requires part <= total * 99
    ensures (part + 50) / 100 <= total
  {
  }

  /** The rank is the nearest integer to the percentage of the total, the larger one of two. */
  lemma {:induction false} RankIsNearest(total: nat, percent: nat, rank: int)
    ensures rank == Rank(total, percent) <==> 200 * rank - 100 <= 2 * total * percent < 200 * rank + 100
  {
    RoundsHalfUp(total * percent, rank);
  }

  lemma {:induction false} RoundsHalfUp(part: nat, rank: int)
    ensures rank == (part + 50) / 100 <==> 200 * rank - 100 <= 2 * part < 200 * rank + 100
  {
  }

  lemma {:induction false} RankGrows(total: nat, p: nat, q: nat)
    requires p <= q
    ensures Rank(total, p) <= Rank(total, q)
  {
    assert total * p <= total * q;
  }

  // ---------------------------------------------------------------- ranks in the sorted durations

  ghost predicate Sorted(s: seq<nat>)
  {
    forall i, k :: 0 <= i < k < |s| ==> s[i] <= s[k]
  }

  // How many durations fall into the buckets before `b`.
  function Below(log: seq<nat>, b: nat): nat
  {
    if log == [] then 0 else Below(log[1..], b) + if BucketOf(log[0]) < b then 1 else 0
  }

  lemma {:induction false} BelowStep(log: seq<nat>, b: nat)
    ensures Below(log, b + 1) == Below(log, b) + Hits(log, b)
    ensures Below(log, 0) == 0
  {
    if log != [] { BelowStep(log[1..], b); }
  }

  lemma {:induction false} BelowIsTotal(e: Entry, log: seq<nat>, b: nat)
    requires Represents(e, log) && b <= BUCKETS
    ensures TotalHits(e.buckets[..b]) == Below(log, b)
  {
    if b == 0 {
      BelowStep(log, 0);
    } else {
      BelowIsTotal(e, log, b - 1);
      BelowStep(log, b - 1);
      assert e.buckets[..b][..b - 1] == e.buckets[..b - 1];
    }
  }

  lemma {:induction false} AllBelow(log: seq<nat>)
    ensures Below(log, BUCKETS) == |log|
  {
    if log != [] {
      AllBelow(log[1..]);
      BucketLimits(log[0], 0);
    }
  }

  lemma {:induction false} BelowJoins(log: seq<nat>, more: seq<nat>, b: nat)
    ensures Below(log + more, b) == Below(log, b) + Below(more, b)
  {
    if log == [] {
      assert log + more == more;
    } else {
      BelowJoins(log[1..], more, b);
      assert (log + more)[1..] == log[1..] + more;
    }
  }

  lemma {:induction false} BelowWithout(log: seq<nat>, i: nat, b: nat)
    requires i < |log|
    ensures Below(log, b) == Below(log[..i] + log[i + 1..], b) + if BucketOf(log[i]) < b then 1 else 0
  {
    assert log == log[..i] + ([log[i]] + log[i + 1..]);
    BelowJoins(log[..i], [log[i]] + log[i + 1..], b);
    BelowJoins(log[..i], log[i + 1..], b);
    assert ([log[i]] + log[i + 1..])[1..] == log[i + 1..];
  }

  lemma {:induction false} MultisetWithout(log: seq<nat>, i: nat)
    requires i < |log|
    ensures multiset(log[..i] + log[i + 1..]) == multiset(log) - multiset{log[i]}
  {
    assert log == log[..i] + ([log[i]] + log[i + 1..]);
  }

  lemma {:induction false} RestPermutes(log: seq<nat>, other: seq<nat>, i: nat)
    requires log != [] && i < |other| && other[i] == log[0] && multiset(log) == multiset(other)
    ensures multiset(log[1..]) == multiset(other[..i] + other[i + 1..])
  {
    MultisetWithout(log, 0);
    MultisetWithout(other, i);
    assert log[..0] + log[1..] == log[1..];
  }

  /** The order of the durations does not matter. */
  lemma {:induction false} BelowPermutes(log: seq<nat>, other: seq<nat>, b: nat)
    requires multiset(log) == multiset(other)
    ensures Below(log, b) == Below(other, b)
  {
    if log == [] {
      assert |multiset(other)| == 0;
    } else {
      assert log[0] in multiset(other);
      var i :| 0 <= i < |other| && other[i] == log[0];
      var rest := other[..i] + other[i + 1..];
      RestPermutes(log, other, i);
      BelowPermutes(log[1..], rest, b);
      BelowWithout(other, i, b);
    }
  }

  lemma {:induction false} SortedTail(s: seq<nat>)
    requires Sorted(s) && s != []
    ensures Sorted(s[1..])
  {
    forall i, k | 0 <= i < k < |s[1..]| ensures s[1..][i] <= s[1..][k] {
      assert s[i + 1] <= s[k + 1];
    }
  }

  // In a sorted sequence the durations of the first buckets come first.
  lemma {:induction false} SortedBelow(s: seq<nat>, b: nat, i: nat)
    requires Sorted(s) && i < |s|
    ensures BucketOf(s[i]) < b <==> i < Below(s, b)
  {
    BucketsOrdered(s[0], s[i]);
    if BucketOf(s[0]) >= b {
      forall k | 0 <= k < |s| ensures BucketOf(s[k]) >= b { BucketsOrdered(s[0], s[k]); }
      NoneBelow(s, b);
    } else if i > 0 {
      SortedTail(s);
      SortedBelow(s[1..], b, i - 1);
    }
  }

  lemma {:induction false} NoneBelow(s: seq<nat>, b: nat)
    requires forall i :: 0 <= i < |s| ==> BucketOf(s[i]) >= b
    ensures Below(s, b) == 0
  {
    if s != [] { NoneBelow(s[1..], b); }
  }

  // ---------------------------------------------------------------- averages

  ghost predicate Within(log: seq<nat>, b: nat, lo: nat, hi: nat)
  {
    forall d :: d in log && BucketOf(d) == b ==> lo <= d <= hi
  }

  lemma {:induction false} AddOne(h: nat, x: nat)
    ensures (h + 1) * x == h * x + x
  {
  }

  lemma {:induction false} SumBounds(log: seq<nat>, b: nat, lo: nat, hi: nat)
    requires Within(log, b, lo, hi)
    ensures Hits(log, b) * lo <= Sum(log, b) <= Hits(log, b) * hi
  {
    if log != [] {
      assert log[0] in log;
      SumBounds(log[1..], b, lo, hi);
      AddOne(Hits(log[1..], b), lo);
      AddOne(Hits(log[1..], b), hi);
    }
  }

  lemma {:induction false} Cancel(h: nat, x: nat, y: nat)
    requires h * x < h * y
    ensures x < y
  {
    if y <= x { Multiply(h, y, x); }
  }

  lemma {:induction false} Multiply(h: nat, x: nat, y: nat)
    requires x <= y
    ensures h * x <= h * y
  {
  }

  lemma {:induction false} QuotientBounds(sum: nat, hits: nat, lo: nat, hi: nat)
    requires hits > 0 && hits * lo <= sum <= hits * hi
    ensures lo <= sum / hits <= hi
  {
    var q := sum / hits;
    assert sum == hits * q + sum % hits && sum % hits < hits;
    AddOne(q, hits);
    AddOne(hi, hits);
    Cancel(hits, lo, q + 1);
    Cancel(hits, q, hi + 1);
  }

  lemma {:induction false} MaxBounds(log: seq<nat>)
    ensures forall i :: 0 <= i < |log| ==> log[i] <= Max(log)
  {
    if log != [] {
      MaxBounds(log[1..]);
      forall i | 0 <= i < |log| ensures log[i] <= Max(log) {
        if i > 0 { assert log[i] == log[1..][i - 1]; }
      }
    }
  }

  /** The average of a bucket lies in the bucket and is at most the maximum. */
  lemma {:induction false} AverageInBucket(e: Entry, log: seq<nat>, b: nat)
    requires Represents(e, log) && b < BUCKETS && e.buckets[b].hits > 0
    ensures BucketOf(e.buckets[b].total / e.buckets[b].hits) == b
    ensures e.buckets[b].total / e.buckets[b].hits <= e.max
  {
    MaxBounds(log);
    var hi := if b < BUCKETS - 1 && Upper(b) - 1 < e.max then Upper(b) - 1 else e.max;
    if b < BUCKETS - 1 { LimitsDouble(b); }
    if b > 0 { LimitsDouble(b - 1); }
    forall d | d in log && BucketOf(d) == b ensures Lower(b) <= d <= hi {
      BucketLimits(d, b);
    }
    SumBounds(log, b, Lower(b), hi);
    QuotientBounds(e.buckets[b].total, e.buckets[b].hits, Lower(b), hi);
    BucketLimits(e.buckets[b].total / e.buckets[b].hits, b);
  }

  // ---------------------------------------------------------------- what a percentile is

  // The value the source returns for percentile `p` of an entry.
  ghost predicate IsPercentile(buckets: seq<Bucket>, max: nat, p: int, value: nat)
  {
    var rank := Rank(TotalHits(buckets), Clamp(p));
    if Clamp(p) == 100 then value == max
    else if rank == 0 then value == 0
    else exists i: nat :: IsAverageAt(buckets, i, rank, value)
  }

  // The average duration of the bucket that reaches the rank.
  predicate IsAverageAt(buckets: seq<Bucket>, i: nat, rank: nat, value: nat)
  {
    Reaches(buckets, i, rank) && buckets[i].hits > 0 && value == buckets[i].total / buckets[i].hits
  }

  /** The r-th smallest reported duration, for the integer r nearest to p percent of their number, the
      larger one of two, and the percentile p fall into the same bucket, in whatever order and through
      whatever merges the durations were counted. */
  lemma {:induction false} PercentileInBucketOfRank(e: Entry, log: seq<nat>, sorted: seq<nat>,
                                                    p: nat, r: nat, value: nat)
    requires Represents(e, log) && Sorted(sorted) && multiset(sorted) == multiset(log)
    requires IsPercentile(e.buckets, e.max, p, value)
    requires p < 100 && r > 0 && 200 * r - 100 <= 2 * |log| * p < 200 * r + 100
    ensures r <= |sorted| == |log|
    ensures BucketOf(value) == BucketOf(sorted[r - 1])
  {
    RankIsNearest(|log|, p, r);
    AllHitsCounted(e, log);
    var i: nat :| IsAverageAt(e.buckets, i, r, value);
    AverageInBucket(e, log, i);
    RankBucket(e, log, sorted, i, p);
  }

  /** From 100 on it is the greatest duration, and for zero or less it is zero. */
  lemma {:induction false} PercentileAtTheEnds(e: Entry, log: seq<nat>, p: int, value: nat)
    requires Represents(e, log) && IsPercentile(e.buckets, e.max, p, value)
    ensures p >= 100 ==> value == e.max && (forall d :: d in log ==> d <= value) && (log != [] ==> value in log)
    ensures p <= 0 ==> value == 0
  {
    MaxIsLogged(log);
    MaxBounds(log);
  }

  /** It is also zero where the nearest integer is zero. */
  lemma {:induction false} PercentileOfRankZero(e: Entry, log: seq<nat>, p: nat, value: nat)
    requires Represents(e, log) && IsPercentile(e.buckets, e.max, p, value)
    requires p < 100 && 2 * |log| * p < 100
    ensures value == 0
  {
    AllHitsCounted(e, log);
    RankIsNearest(|log|, p, 0);
  }

  lemma {:induction false} AllHitsCounted(e: Entry, log: seq<nat>)
    requires Represents(e, log)
    ensures TotalHits(e.buckets) == |log|
  {
    AllBelow(log);
    BelowIsTotal(e, log, BUCKETS);
    assert e.buckets[..BUCKETS] == e.buckets;
  }

  lemma {:induction false} MaxIsLogged(log: seq<nat>)
    ensures log != [] ==> Max(log) in log
  {
    if log != [] { MaxIsLogged(log[1..]); }
  }

  // The bucket that reaches the rank is the one of the rank-th smallest duration.
  lemma {:induction false} RankBucket(e: Entry, log: seq<nat>, sorted: seq<nat>, i: nat, percent: nat)
    requires Represents(e, log) && Sorted(sorted) && multiset(sorted) == multiset(log)
    requires percent < 100 && Rank(|log|, percent) > 0 && Reaches(e.buckets, i, Rank(|log|, percent))
    ensures Rank(|log|, percent) <= |sorted| == |log|
    ensures BucketOf(sorted[Rank(|log|, percent) - 1]) == i
  {
    var rank := Rank(|log|, percent);
    assert |multiset(sorted)| == |sorted| && |multiset(log)| == |log|;
    RankInRange(|log|, percent);
    BelowIsTotal(e, log, i);
    BelowIsTotal(e, log, i + 1);
    BelowPermutes(log, sorted, i);
    BelowPermutes(log, sorted, i + 1);
    SortedBelow(sorted, i, rank - 1);
    SortedBelow(sorted, i + 1, rank - 1);
  }

  /** In buckets 1 to 30 it is therefore off by less than a factor of two either way. */
  lemma {:induction false} PercentileWithinFactorTwo(e: Entry, log: seq<nat>, sorted: seq<nat>,
                                                     p: nat, r: nat, value: nat)
    requires Represents(e, log) && Sorted(sorted) && multiset(sorted) == multiset(log)
    requires IsPercentile(e.buckets, e.max, p, value)
    requires p < 100 && r > 0 && 200 * r - 100 <= 2 * |log| * p < 200 * r + 100
    requires 1 <= BucketOf(value) <= 30
    ensures |sorted| == |log| && 1 <= r <= |log|
    ensures var exact := sorted[r - 1]; value < 2 * exact && exact < 2 * value
  {
    PercentileInBucketOfRank(e, log, sorted, p, r, value);
    var b := BucketOf(value);
    BucketLimits(value, b);
    BucketLimits(sorted[r - 1], b);
    LimitsDouble(b);
  }

  lemma {:induction false} ReachesGrows(buckets: seq<Bucket>, i: nat, r: nat, k: nat, s: nat)
    requires Reaches(buckets, i, r) && Reaches(buckets, k, s) && r <= s
    ensures i <= k
  {
    if k + 1 <= i { TotalGrows(buckets, k + 1, i); }
  }

  lemma {:induction false} TotalGrows(buckets: seq<Bucket>, i: nat, k: nat)
    requires i <= k <= |buckets|
    ensures TotalHits(buckets[..i]) <= TotalHits(buckets[..k])
  {
    if i < k {
      TotalGrows(buckets, i, k - 1);
      assert buckets[..k][..k - 1] == buckets[..k - 1];
    }
  }

  /** Percentiles grow with p and never exceed the maximum. */
  lemma {:induction false} PercentilesGrow(e: Entry, log: seq<nat>, p: int, q: int, x: nat, y: nat)
    requires Represents(e, log) && p <= q
    requires IsPercentile(e.buckets, e.max, p, x) && IsPercentile(e.buckets, e.max, q, y)
    ensures x <= y <= e.max
  {
    PercentileAtMostMax(e, log, p, x);
    PercentileAtMostMax(e, log, q, y);
    var total := TotalHits(e.buckets);
    RankGrows(total, Clamp(p), Clamp(q));
    if Clamp(q) < 100 && Rank(total, Clamp(p)) > 0 {
      var i: nat :| IsAverageAt(e.buckets, i, Rank(total, Clamp(p)), x);
      var k: nat :| IsAverageAt(e.buckets, k, Rank(total, Clamp(q)), y);
      ReachesGrows(e.buckets, i, Rank(total, Clamp(p)), k, Rank(total, Clamp(q)));
      AveragesGrow(e, log, i, k);
    }
  }

  lemma {:induction false} AveragesGrow(e: Entry, log: seq<nat>, i: nat, k: nat)
    requires Represents(e, log) && i <= k < BUCKETS && e.buckets[i].hits > 0 && e.buckets[k].hits > 0
    ensures e.buckets[i].total / e.buckets[i].hits <= e.buckets[k].total / e.buckets[k].hits
  {
    var x, y := e.buckets[i].total / e.buckets[i].hits, e.buckets[k].total / e.buckets[k].hits;
    AverageInBucket(e, log, i);
    AverageInBucket(e, log, k);
    if y < x { BucketsOrdered(y, x); }
  }

  lemma {:induction false} PercentileAtMostMax(e: Entry, log: seq<nat>, p: int, x: nat)
    requires Represents(e, log) && IsPercentile(e.buckets, e.max, p, x)
    ensures x <= e.max
  {
    var rank := Rank(TotalHits(e.buckets), Clamp(p));
    if Clamp(p) < 100 && rank > 0 {
      var i: nat :| IsAverageAt(e.buckets, i, rank, x);
      AverageInBucket(e, log, i);
    }
  }
}
