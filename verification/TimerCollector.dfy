/** TimerStatCollector of src/timer/timer_enable.cc: the per-thread table of section entries. Each
    method is what runs under the collector's mutex; see TimerFlow for its interleavings. */
module TimerCollector {
  import opened Histogram
  import opened Percentile

  const SECTIONS := 8192    // TimerSection::kMaxCapacity

  type Table = seq<Entry>
  type Logs = seq<seq<nat>>   // the accepted durations of each section

  ghost predicate Counts(table: Table, logs: Logs)
  {
    && |table| == |logs| == SECTIONS
    && forall i :: 0 <= i < SECTIONS ==> Represents(table[i], logs[i])
  }

  predicate Tabular(table: Table)
  {
    |table| == SECTIONS && forall i :: 0 <= i < SECTIONS ==> WellFormed(table[i])
  }

  function NoEntries(): Table
  {
    seq(SECTIONS, _ => EMPTY_ENTRY)
  }

  function MergeTables(t: Table, u: Table): (r: Table)
    requires Tabular(t) && Tabular(u)
    ensures Tabular(r)
  {
    seq(SECTIONS, i requires 0 <= i < SECTIONS => Merge(t[i], u[i]))
  }

  predicate Accepts(index: nat, duration: int)
  {
    duration >= 0 && index < SECTIONS
  }

  function RecordAt(t: Table, index: nat, duration: nat): (r: Table)
    requires Tabular(t) && index < SECTIONS
    ensures Tabular(r)
  {
    t[index := Record(t[index], duration)]
  }

  // CollectorEntry::Merge, which leaves the maximum alone.
  method MergeBuckets(e: Entry, another: Entry) returns (r: Entry)
    requires WellFormed(e) && WellFormed(another)
    ensures r == Merge(e, another).(max := e.max)
  {
    r := e;
    for i := 0 to BUCKETS
      invariant WellFormed(r) && r.max == e.max
      invariant forall k :: 0 <= k < i ==> r.buckets[k] == MergeBucket(e.buckets[k], another.buckets[k])
      invariant forall k :: i <= k < BUCKETS ==> r.buckets[k] == e.buckets[k]
    {
      r := r.(buckets := r.buckets[i := MergeBucket(r.buckets[i], another.buckets[i])]);
    }
  }

  class TimerStatCollector {
    const entries: array<Entry>
    var lastClearTime: int
    var lastMergeTime: int
    ghost var logs: Logs

    ghost predicate Valid()
      reads this, entries
    {
      Counts(entries[..], logs)
    }

    constructor (now: int)
      ensures Valid() && fresh(entries)
      ensures entries[..] == NoEntries() && logs == seq(SECTIONS, _ => [])
      ensures lastClearTime == lastMergeTime == now
    {
      entries := new Entry[SECTIONS](_ => EMPTY_ENTRY);
      lastClearTime, lastMergeTime := now, now;
      logs := seq(SECTIONS, _ => []);
      new;
      EmptyRepresents();
      assert entries[..] == NoEntries();
    }

    /** `acquired` is the outcome of try_lock: the data point is skipped while another thread
        collects. */
    method Report(index: nat, duration: int, acquired: bool)
      requires Valid()
      modifies this`logs, entries
      ensures Valid()
      ensures acquired && duration >= 0 && index < SECTIONS ==>
                entries[..] == RecordAt(old(entries[..]), index, duration)
                && logs == old(logs)[index := old(logs)[index] + [duration]]
      ensures !(acquired && duration >= 0 && index < SECTIONS) ==> entries[..] == old(entries[..]) && logs == old(logs)
    {
      if duration < 0 {
        return;
      }
      if index >= SECTIONS {
        return;
      }
      var bucket := FindBucket(duration);
      if !acquired {
        return;
      }
      BucketLimits(duration, 0);
      RecordRepresents(entries[index], logs[index], duration);
      var b := entries[index].buckets[bucket];
      var buckets := entries[index].buckets[bucket := Bucket(b.hits + 1, b.total + duration)];
      var max := if entries[index].max > duration then entries[index].max else duration;
      entries[index] := Entry(buckets, max);
      logs := logs[index := logs[index] + [duration]];
      assert entries[..] == RecordAt(old(entries[..]), index, duration);
    }

    method MergeFrom(another: TimerStatCollector, now: int)
      requires Valid() && another.Valid() && another != this && another.entries != entries
      modifies this, entries
      ensures Valid()
      ensures entries[..] == MergeTables(old(entries[..]), old(another.entries[..]))
      ensures forall i :: 0 <= i < SECTIONS ==> logs[i] == old(logs)[i] + old(another.logs)[i]
      ensures lastMergeTime == now && lastClearTime == old(lastClearTime)
    {
      ghost var table, mine, other, theirs := entries[..], logs, another.entries[..], another.logs;
      for i := 0 to SECTIONS
        invariant unchanged(this, another, another.entries)
        invariant forall k :: 0 <= k < i ==> entries[k] == Merge(old(entries[k]), another.entries[k])
        invariant forall k :: i <= k < SECTIONS ==> entries[k] == old(entries[k])
      {
        var merged := MergeBuckets(entries[i], another.entries[i]);
        var max := if merged.max > another.entries[i].max then merged.max else another.entries[i].max;
        entries[i] := merged.(max := max);
      }
      lastMergeTime := now;
      logs := seq(SECTIONS, i requires 0 <= i < SECTIONS => mine[i] + theirs[i]);
      assert entries[..] == MergeTables(table, other);
      forall i | 0 <= i < SECTIONS ensures Represents(entries[i], logs[i]) {
        MergeRepresents(table[i], mine[i], other[i], theirs[i]);
      }
    }

    method UnsafeClear(now: int)
      requires Valid()
      modifies this, entries
      ensures Valid() && entries[..] == NoEntries() && logs == seq(SECTIONS, _ => [])
      ensures lastClearTime == lastMergeTime == now
    {
      for i := 0 to SECTIONS
        invariant |entries[..]| == SECTIONS
        invariant forall k :: 0 <= k < i ==> entries[k] == EMPTY_ENTRY
      {
        entries[i] := EMPTY_ENTRY;
      }
      lastClearTime := now;
      lastMergeTime := lastClearTime;
      logs := seq(SECTIONS, _ => []);
      EmptyRepresents();
      assert entries[..] == NoEntries();
    }

    /** Hands out a copy, and with `clear` starts over. */
    method Collect(clear: bool, now: int) returns (data: TimerStatCollector)
      requires Valid()
      modifies this, entries
      ensures Valid() && data.Valid() && fresh(data) && fresh(data.entries)
      ensures data.entries[..] == old(entries[..]) && data.logs == old(logs)
      ensures data.lastClearTime == old(lastClearTime) && data.lastMergeTime == old(lastMergeTime)
      ensures if clear then entries[..] == NoEntries() && logs == seq(SECTIONS, _ => [])
              else entries[..] == old(entries[..]) && logs == old(logs)
    {
      data := new TimerStatCollector(now);
      for i := 0 to SECTIONS
        invariant unchanged(this) && unchanged(entries)
        invariant forall k :: 0 <= k < i ==> data.entries[k] == entries[k]
      {
        data.entries[i] := entries[i];
      }
      data.logs := logs;
      data.lastClearTime, data.lastMergeTime := lastClearTime, lastMergeTime;
      assert data.entries[..] == entries[..];
      if clear {
        UnsafeClear(now);
      }
    }

    /** The report of one section, without its subsections. */
    method GetReport(index: nat) returns (report: TimerReport, timingDuration: int, hasData: bool)
      requires Valid() && index < SECTIONS
      ensures report.buckets == entries[index].buckets && report.max == entries[index].max
      ensures timingDuration == lastMergeTime - lastClearTime
      ensures hasData <==> logs[index] != []
    {
      var buckets := [];
      hasData := false;
      for i := 0 to BUCKETS
        invariant |buckets| == i && forall k :: 0 <= k < i ==> buckets[k] == entries[index].buckets[k]
        invariant hasData ==> logs[index] != []
        invariant !hasData ==> forall k :: 0 <= k < i ==> buckets[k].hits == 0
      {
        assert Represents(entries[..][index], logs[index]);
        hasData := hasData || entries[index].buckets[i].hits > 0;
        buckets := buckets + [entries[index].buckets[i]];
      }
      report := new TimerReport(buckets, entries[index].max);
      timingDuration := lastMergeTime - lastClearTime;
      if logs[index] != [] {
        BucketLimits(logs[index][0], 0);
        assert Represents(entries[..][index], logs[index]);
        assert Hits(logs[index], BucketOf(logs[index][0])) > 0;
        assert buckets[BucketOf(logs[index][0])].hits > 0;
      }
    }
  }
}
