/** The duration histogram of src/timer/timer_enable.cc as values: what one section's entry says
    about the durations that were reported to it. */
module Histogram {

  const BUCKETS := 32                          // kTimerEntryBucketNum
  const BASE_NSEC := 10000                     // 10 us
  const MAX_NSEC := 0x7FFF_FFFF_FFFF_FFFF      // numeric_limits<cr_duration_nsec_t>::max()

  function Pow2(n: nat): nat
  {
    if n == 0 then 1 else 2 * Pow2(n - 1)
  }

  /** The exclusive upper limit of a bucket. */
  function Upper(idx: nat): int
  {
    if idx >= BUCKETS - 1 then MAX_NSEC else BASE_NSEC * Pow2(idx)
  }

  /** The inclusive lower limit of a bucket. */
  function Lower(idx: nat): int
  {
    if idx == 0 then 0 else Upper(idx - 1)
  }

  method UpperNsecOfBucket(idx: nat) returns (result: int)
    ensures result == Upper(idx)
    ensures idx == 0 ==> result == 10_000
    ensures idx >= 31 ==> result == 0x7FFF_FFFF_FFFF_FFFF
  {
    if idx >= BUCKETS - 1 {
      return MAX_NSEC;
    }
    result := BASE_NSEC;
    for i := 0 to idx
      invariant result == BASE_NSEC * Pow2(i)
    {
      result := result * 2;
    }
  }

  lemma {:induction false} Pow2Splits(m: nat, n: nat)
    ensures Pow2(m + n) == Pow2(m) * Pow2(n)
  {
    if n > 0 {
      Pow2Splits(m, n - 1);
      assert Pow2(m) * Pow2(n) == 2 * (Pow2(m) * Pow2(n - 1));
    }
  }

  lemma {:induction false} Pow2Thirty()
    ensures Pow2(30) == 0x4000_0000
  {
    assert Pow2(5) == 2 * 2 * 2 * 2 * 2;
    Pow2Splits(5, 5);
    Pow2Splits(10, 10);
    Pow2Splits(20, 10);
  }

  /** The limits grow strictly, and from bucket 1 to 30 the upper one is twice the lower one. */
  lemma {:induction false} LimitsDouble(idx: nat)
    requires idx < BUCKETS - 1
    ensures 0 < Upper(idx) < Upper(idx + 1)
    ensures 0 < idx ==> Upper(idx) == 2 * Lower(idx)
    decreases BUCKETS - idx
  {
    if idx + 1 == BUCKETS - 1 {
      Pow2Thirty();
    } else {
      LimitsDouble(idx + 1);
    }
  }

  lemma {:induction false} UpperGrows(i: nat, k: nat)
    requires i < k < BUCKETS
    ensures 0 < Upper(i) < Upper(k)
    decreases k - i
  {
    LimitsDouble(i);
    if i + 1 < k { UpperGrows(i + 1, k); }
  }

  // The bucket search of TimerStatCollector::Report from bucket `i` on.
  function BucketFrom(d: nat, i: nat): nat
    requires i < BUCKETS
    decreases BUCKETS - i
  {
    if d < Upper(i) || i == BUCKETS - 1 then i else BucketFrom(d, i + 1)
  }

  /** The bucket a duration is counted in. */
  function BucketOf(d: nat): nat
  {
    BucketFrom(d, 0)
  }

  method FindBucket(d: nat) returns (bucket: nat)
    ensures bucket == BucketOf(d)
  {
    bucket := 0;
    for i := 0 to BUCKETS
      invariant i > 0 ==> bucket == i - 1
      invariant BucketOf(d) == if i < BUCKETS then BucketFrom(d, i) else BUCKETS - 1
    {
      bucket := i;
      if d < Upper(i) { break; }
    }
  }

  lemma {:induction false} BucketFromIs(d: nat, i: nat, b: nat)
    requires i <= b < BUCKETS && Lower(b) <= d && (d < Upper(b) || b == BUCKETS - 1)
    ensures BucketFrom(d, i) == b
    decreases b - i
  {
    if i < b {
      if i < b - 1 { UpperGrows(i, b - 1); }
      BucketFromIs(d, i + 1, b);
    }
  }

  lemma {:induction false} BucketFromLimits(d: nat, i: nat)
    requires i < BUCKETS && Lower(i) <= d
    ensures var b := BucketFrom(d, i); i <= b < BUCKETS && Lower(b) <= d && (d < Upper(b) || b == BUCKETS - 1)
    decreases BUCKETS - i
  {
    if d >= Upper(i) && i < BUCKETS - 1 { BucketFromLimits(d, i + 1); }
  }

  /** A duration is in the bucket whose limits enclose it, and in no other. */
  lemma {:induction false} BucketLimits(d: nat, b: nat)
    requires b < BUCKETS
    ensures BucketOf(d) < BUCKETS
    ensures BucketOf(d) == b <==> Lower(b) <= d && (d < Upper(b) || b == BUCKETS - 1)
  {
    BucketFromLimits(d, 0);
    if Lower(b) <= d && (d < Upper(b) || b == BUCKETS - 1) { BucketFromIs(d, 0, b); }
  }

  lemma {:induction false} BucketsOrdered(x: nat, y: nat)
    requires x <= y
    ensures BucketOf(x) <= BucketOf(y)
  {
    BucketLimits(x, 0);
    BucketLimits(y, 0);
    BucketLimits(x, BucketOf(x));
    BucketLimits(y, BucketOf(y));
    if BucketOf(y) < BucketOf(x) - 1 { UpperGrows(BucketOf(y), BucketOf(x) - 1); }
  }

  // ---------------------------------------------------------------- entries and what they stand for

  datatype Bucket = Bucket(hits: nat, total: nat)

  datatype Entry = Entry(buckets: seq<Bucket>, max: nat)

  /** How many durations of the log fall into bucket `b`. */
  function Hits(log: seq<nat>, b: nat): nat
  {
    if log == [] then 0 else Hits(log[1..], b) + if BucketOf(log[0]) == b then 1 else 0
  }

  /** The sum of the durations of the log that fall into bucket `b`. */
  function Sum(log: seq<nat>, b: nat): nat
  {
    if log == [] then 0 else Sum(log[1..], b) + if BucketOf(log[0]) == b then log[0] else 0
  }

  /** The greatest duration of the log, 0 if there is none. */
  function Max(log: seq<nat>): nat
  {
    if log == [] then 0 else var m := Max(log[1..]); if log[0] > m then log[0] else m
  }

  predicate WellFormed(e: Entry)
  {
    |e.buckets| == BUCKETS
  }

  /** The entry counts exactly the durations of the log. */
  ghost predicate Represents(e: Entry, log: seq<nat>)
  {
    && WellFormed(e)
    && (forall b :: 0 <= b < BUCKETS ==> e.buckets[b] == Bucket(Hits(log, b), Sum(log, b)))
    && e.max == Max(log)
  }

  const EMPTY_ENTRY := Entry(seq(BUCKETS, _ => Bucket(0, 0)), 0)

  function Record(e: Entry, d: nat): (r: Entry)
    requires WellFormed(e)
    ensures WellFormed(r)
  {
    BucketLimits(d, 0);
    var b := BucketOf(d);
    Entry(e.buckets[b := Bucket(e.buckets[b].hits + 1, e.buckets[b].total + d)], if e.max > d then e.max else d)
  }

  function MergeBucket(b: Bucket, c: Bucket): Bucket
  {
    Bucket(b.hits + c.hits, b.total + c.total)
  }

  function Merge(e: Entry, f: Entry): (r: Entry)
    requires WellFormed(e) && WellFormed(f)
    ensures WellFormed(r)
  {
    Entry(seq(BUCKETS, i requires 0 <= i < BUCKETS => MergeBucket(e.buckets[i], f.buckets[i])),
          if e.max > f.max then e.max else f.max)
  }

  lemma {:induction false} LogsJoin(log: seq<nat>, more: seq<nat>, b: nat)
    ensures Hits(log + more, b) == Hits(log, b) + Hits(more, b)
    ensures Sum(log + more, b) == Sum(log, b) + Sum(more, b)
    ensures Max(log + more) == if Max(log) > Max(more) then Max(log) else Max(more)
  {
    if log == [] {
      assert log + more == more;
    } else {
      LogsJoin(log[1..], more, b);
      assert (log + more)[1..] == log[1..] + more;
    }
  }

  lemma {:induction false} EmptyRepresents()
    ensures Represents(EMPTY_ENTRY, [])
  {
  }

  /** Reporting a duration adds it to the log. */
  lemma {:induction false} RecordRepresents(e: Entry, log: seq<nat>, d: nat)
    requires Represents(e, log)
    ensures Represents(Record(e, d), log + [d])
  {
    BucketLimits(d, 0);
    forall b | 0 <= b < BUCKETS ensures Record(e, d).buckets[b] == Bucket(Hits(log + [d], b), Sum(log + [d], b)) {
      LogsJoin(log, [d], b);
      assert Hits([d], b) == Hits([], b) + if BucketOf(d) == b then 1 else 0;
      assert Sum([d], b) == Sum([], b) + if BucketOf(d) == b then d else 0;
    }
    LogsJoin(log, [d], 0);
    assert Max([d]) == d;
  }

  /** Merging two entries joins their logs. */
  lemma {:induction false} MergeRepresents(e: Entry, log: seq<nat>, f: Entry, more: seq<nat>)
    requires Represents(e, log) && Represents(f, more)
    ensures Represents(Merge(e, f), log + more)
  {
    forall b | 0 <= b < BUCKETS ensures Merge(e, f).buckets[b] == Bucket(Hits(log + more, b), Sum(log + more, b)) {
      LogsJoin(log, more, b);
    }
    LogsJoin(log, more, 0);
  }
}
