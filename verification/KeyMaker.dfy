/** RecordFileKey::Make of src/msg_recorder/record_key.cc: keys from a clock and sixteen shared
    counters, made by any number of threads. */
module KeyMaker {
  import opened Totals
  import opened RecordKey

  const COUNTERS := 16       // kNumOfCounters
  const WRAP := 0x1_0000_0000_0000_0000

  type Caller = nat

  // now & (kNumOfCounters - 1), in two's complement also for a negative clock.
  function Slot(now: int): (slot: nat)
    ensures slot < COUNTERS
  {
    now % COUNTERS
  }

  /** The counter is chosen by the low four bits of the clock. */
  lemma {:induction false} SlotIsLowBits(now: int, later: int)
    ensures (now - Slot(now)) % 16 == 0 && 0 <= Slot(now) < 16
    ensures Slot(now) == Slot(later) <==> (later - now) % 16 == 0
  {
  }

  predicate IsClock(now: int)
  {
    -I64_MAX - 1 <= now <= I64_MAX
  }

  // ---------------------------------------------------------------- concurrent callers

  datatype State = State(
    calls: seq<nat>,            // history: how often each counter was incremented
    reading: map<Caller, int>,  // callers that have read the clock and not the counter
    made: seq<Key>              // history: the keys made, in the order of their fetch_add
  )

  datatype Label = ReadClock(caller: Caller, now: int) | FetchAdd(caller: Caller)

  function Init(): State
  {
    State(seq(COUNTERS, _ => 0), map[], [])
  }

  predicate Enabled(s: State, l: Label)
  {
    match l
    case ReadClock(c, now) => c !in s.reading && IsClock(now)
    case FetchAdd(c) => c in s.reading && |s.calls| == COUNTERS
  }

  function Apply(s: State, l: Label): State
    requires Enabled(s, l)
  {
    match l
    case ReadClock(c, now) => s.(reading := s.reading[c := now])
    case FetchAdd(c) =>
      var slot := Slot(s.reading[c]);
      State(s.calls[slot := s.calls[slot] + 1],
            s.reading - {c},
            s.made + [Key(s.reading[c], s.calls[slot] % WRAP)])   // the counter wraps around
  }

  predicate CanRun(s: State, labels: seq<Label>)
    decreases |labels|
  {
    labels == [] || (Enabled(s, labels[0]) && CanRun(Apply(s, labels[0]), labels[1..]))
  }

  function RunOf(s: State, labels: seq<Label>): State
    requires CanRun(s, labels)
    decreases |labels|
  {
    if labels == [] then s else RunOf(Apply(s, labels[0]), labels[1..])
  }

  // The number of earlier keys made from the counter of key i.
  ghost function Ticket(made: seq<Key>, i: nat): nat
    requires i < |made|
  {
    Drawn(made[..i], Slot(made[i].timestamp))
  }

  ghost function Drawn(made: seq<Key>, slot: nat): nat
  {
    if made == [] then 0
    else Drawn(made[..|made| - 1], slot) + if Slot(made[|made| - 1].timestamp) == slot then 1 else 0
  }

  // Each key has the number its counter had reached.
  ghost predicate Numbered(made: seq<Key>)
  {
    && (forall i :: 0 <= i < |made| ==> made[i].count == Ticket(made, i) % WRAP)
    && (forall i :: 0 <= i < |made| ==> InRange(made[i]))
  }

  ghost predicate Inv(s: State)
  {
    && |s.calls| == COUNTERS
    && (forall slot :: 0 <= slot < COUNTERS ==> s.calls[slot] == Drawn(s.made, slot))
    && Numbered(s.made)
    && (forall c :: c in s.reading ==> IsClock(s.reading[c]))
  }

  lemma {:induction false} KeepsInv(s: State, l: Label)
    requires Inv(s) && Enabled(s, l)
    ensures Inv(Apply(s, l))
  {
    if l.FetchAdd? {
      OneMoreNumber(s.made, s.reading[l.caller]);
    }
  }

  lemma {:induction false} OneMoreNumber(made: seq<Key>, now: int)
    requires Numbered(made) && IsClock(now)
    ensures var key := Key(now, Drawn(made, Slot(now)) % WRAP);
      && Numbered(made + [key])
      && forall slot :: Drawn(made + [key], slot) == Drawn(made, slot) + if slot == Slot(now) then 1 else 0
  {
    var more := made + [Key(now, Drawn(made, Slot(now)) % WRAP)];
    assert more[..|made|] == made;
    forall i | 0 <= i < |more| ensures more[i].count == Ticket(more, i) % WRAP && InRange(more[i]) {
      assert more[..i] == made[..i];
      assert made[..|made|] == made;
    }
  }

  lemma {:induction false} RunsKeepInv(s: State, labels: seq<Label>)
    requires Inv(s) && CanRun(s, labels)
    ensures Inv(RunOf(s, labels))
    decreases |labels|
  {
    if labels != [] {
      KeepsInv(s, labels[0]);
      RunsKeepInv(Apply(s, labels[0]), labels[1..]);
    }
  }

  lemma {:induction false} DrawnGrows(made: seq<Key>, i: nat, k: nat, slot: nat)
    requires i <= k <= |made|
    ensures Drawn(made[..i], slot) <= Drawn(made[..k], slot)
    ensures i < k && Slot(made[i].timestamp) == slot ==> Drawn(made[..i], slot) < Drawn(made[..k], slot)
  {
    if i < k {
      assert made[..k][..k - 1] == made[..k - 1];
      DrawnGrows(made, i, k - 1, slot);
    }
  }

  lemma {:induction false} TicketsDiffer(s: State, i: nat, k: nat)
    requires Inv(s) && i < k < |s.made|
    requires forall slot :: 0 <= slot < COUNTERS ==> s.calls[slot] <= WRAP
    ensures s.made[i] != s.made[k]
  {
    if Slot(s.made[i].timestamp) == Slot(s.made[k].timestamp) {
      SameSlotDiffers(s.made, i, k);
    }
  }

  // Two keys from one counter have different numbers while it has not come round.
  lemma {:induction false} SameSlotDiffers(made: seq<Key>, i: nat, k: nat)
    requires Numbered(made) && i < k < |made| && Slot(made[i].timestamp) == Slot(made[k].timestamp)
    requires Drawn(made, Slot(made[i].timestamp)) <= WRAP
    ensures made[i].count != made[k].count
  {
    TicketsGrow(made, i, k, Drawn(made, Slot(made[i].timestamp)));
    CountsDiffer(Ticket(made, i), Ticket(made, k));
  }

  lemma {:induction false} TicketsGrow(made: seq<Key>, i: nat, k: nat, calls: nat)
    requires i < k < |made| && Slot(made[i].timestamp) == Slot(made[k].timestamp)
    requires Drawn(made, Slot(made[i].timestamp)) == calls
    ensures Ticket(made, i) < Ticket(made, k) < calls
  {
    var slot := Slot(made[i].timestamp);
    DrawnGrows(made, i, k, slot);
    DrawnGrows(made, k, |made|, slot);
    assert made[..|made|] == made;
  }

  lemma {:induction false} CountsDiffer(i: nat, k: nat)
    requires i < k < WRAP
    ensures i % WRAP != k % WRAP
  {
  }

  /** However the callers interleave, no key is made twice, as long as no counter has been used
      more than 2^64 times; with clocks from 1970 on the printed forms differ, too. */
  lemma {:induction false} KeysAreDistinct(labels: seq<Label>, i: nat, k: nat)
    requires CanRun(Init(), labels)
    requires forall slot :: 0 <= slot < |RunOf(Init(), labels).calls| ==> RunOf(Init(), labels).calls[slot] <= WRAP
    requires i < k < |RunOf(Init(), labels).made|
    ensures var made := RunOf(Init(), labels).made;
      && made[i] != made[k]
      && InRange(made[i]) && InRange(made[k])
      && (ToBytes(made[i]) == ToBytes(made[k]) <==> Clamped(made[i]) == Clamped(made[k]))
      && (made[i].timestamp >= 0 && made[k].timestamp >= 0 ==> ToBytes(made[i]) != ToBytes(made[k]))
  {
    var t := RunOf(Init(), labels);
    RunsKeepInv(Init(), labels);
    TicketsDiffer(t, i, k);
    SameBytes(t.made[i], t.made[k]);
  }

  // Keys that print alike have clocks at or before 1970 and come from different counters.
  lemma {:induction false} PrintedAlike(made: seq<Key>, i: nat, k: nat)
    requires Numbered(made) && i < k < |made| && ToBytes(made[i]) == ToBytes(made[k])
    requires forall slot :: 0 <= slot < COUNTERS ==> Drawn(made, slot) <= WRAP
    ensures made[i].timestamp <= 0 && made[k].timestamp <= 0
    ensures Slot(made[i].timestamp) != Slot(made[k].timestamp)
  {
    SameBytes(made[i], made[k]);
    if Slot(made[i].timestamp) == Slot(made[k].timestamp) {
      SameSlotDiffers(made, i, k);
    }
  }

  ghost predicate PrintsApart(made: seq<Key>)
  {
    && (forall i :: 0 <= i < |made| ==> InRange(made[i]))
    && forall i, k :: 0 <= i < k < |made| ==> ToBytes(made[i]) != ToBytes(made[k])
  }

  // Runs that read only these clocks.
  ghost predicate ReadsOnly(labels: seq<Label>, clocks: iset<int>)
  {
    forall l :: l in labels && l.ReadClock? ==> l.now in clocks
  }

  ghost predicate Bounded(s: State)
  {
    forall slot :: 0 <= slot < |s.calls| ==> s.calls[slot] <= WRAP
  }

  ghost predicate NeverCollide(clocks: iset<int>)
  {
    forall labels :: CanRun(Init(), labels) && ReadsOnly(labels, clocks) && Bounded(RunOf(Init(), labels)) ==>
      PrintsApart(RunOf(Init(), labels).made)
  }

  // All clocks that print as zero use the same counter.
  ghost predicate OneSlot(clocks: iset<int>)
  {
    forall a, b :: a in clocks && b in clocks && a <= 0 && b <= 0 ==> Slot(a) == Slot(b)
  }

  lemma {:induction false} ClocksStay(s: State, labels: seq<Label>, clocks: iset<int>)
    requires CanRun(s, labels) && ReadsOnly(labels, clocks)
    requires forall c :: c in s.reading ==> s.reading[c] in clocks
    requires forall i :: 0 <= i < |s.made| ==> s.made[i].timestamp in clocks
    ensures forall i :: 0 <= i < |RunOf(s, labels).made| ==> RunOf(s, labels).made[i].timestamp in clocks
    decreases |labels|
  {
    if labels != [] {
      assert labels[0] in labels;
      assert forall l :: l in labels[1..] ==> l in labels;
      ClocksStay(Apply(s, labels[0]), labels[1..], clocks);
    }
  }

  function TwoCalls(a: int, b: int): seq<Label>
  {
    [ReadClock(0, a), FetchAdd(0), ReadClock(0, b), FetchAdd(0)]
  }

  /** The first two calls of a process print alike exactly when neither clock is after 1970 and the
      two use different counters, as 0 and -1 do. */
  lemma {:induction false} TwoCallsCollide(a: int, b: int)
    requires IsClock(a) && IsClock(b)
    ensures CanRun(Init(), TwoCalls(a, b)) && Bounded(RunOf(Init(), TwoCalls(a, b)))
    ensures var made := RunOf(Init(), TwoCalls(a, b)).made;
      && |made| == 2 && InRange(made[0]) && InRange(made[1]) && made[0].timestamp == a && made[1].timestamp == b
      && (ToBytes(made[0]) == ToBytes(made[1]) <==> a <= 0 && b <= 0 && Slot(a) != Slot(b))
  {
    var s1 := Apply(Init(), ReadClock(0, a));
    var s2 := Apply(s1, FetchAdd(0));
    var s3 := Apply(s2, ReadClock(0, b));
    var s4 := Apply(s3, FetchAdd(0));
    var second := Key(b, if Slot(a) == Slot(b) then 1 else 0);
    assert s4.made == [Key(a, 0), second];
    SameBytes(Key(a, 0), second);
    var labels := TwoCalls(a, b);
    assert labels[1..] == [FetchAdd(0), ReadClock(0, b), FetchAdd(0)];
    assert labels[1..][1..] == [ReadClock(0, b), FetchAdd(0)];
    assert labels[1..][1..][1..] == [FetchAdd(0)];
    assert labels[1..][1..][1..][1..] == [];
    assert CanRun(s4, []) && RunOf(s4, []) == s4;
    assert CanRun(s3, [FetchAdd(0)]) && RunOf(s3, [FetchAdd(0)]) == s4;
    assert CanRun(s2, [ReadClock(0, b), FetchAdd(0)]) && RunOf(s2, [ReadClock(0, b), FetchAdd(0)]) == s4;
    assert CanRun(s1, labels[1..]) && RunOf(s1, labels[1..]) == s4;
  }

  lemma {:induction false} OneSlotPrintsApart(labels: seq<Label>, clocks: iset<int>)
    requires OneSlot(clocks) && CanRun(Init(), labels) && ReadsOnly(labels, clocks) && Bounded(RunOf(Init(), labels))
    ensures PrintsApart(RunOf(Init(), labels).made)
  {
    RunsKeepInv(Init(), labels);
    ClocksStay(Init(), labels, clocks);
    var made := RunOf(Init(), labels).made;
    forall i, k | 0 <= i < k < |made| ensures ToBytes(made[i]) != ToBytes(made[k]) {
      if ToBytes(made[i]) == ToBytes(made[k]) { PrintedAlike(made, i, k); }
    }
  }

  /** The exact condition on the clock: over all interleavings of any callers within the counters'
      range, printed keys never collide if and only if all clocks up to 1970 that can be read lie in
      one counter's slot. Clocks after 1970 are always safe. */
  lemma {:induction false} PrintedKeysNeverCollide(clocks: iset<int>)
    requires forall now :: now in clocks ==> IsClock(now)
    ensures NeverCollide(clocks) <==> OneSlot(clocks)
  {
    if OneSlot(clocks) {
      forall labels | CanRun(Init(), labels) && ReadsOnly(labels, clocks) && Bounded(RunOf(Init(), labels))
        ensures PrintsApart(RunOf(Init(), labels).made)
      {
        OneSlotPrintsApart(labels, clocks);
      }
    } else {
      var a, b :| a in clocks && b in clocks && a <= 0 && b <= 0 && Slot(a) != Slot(b);
      TwoCallsCollide(a, b);
      assert ReadsOnly(TwoCalls(a, b), clocks);
      assert !PrintsApart(RunOf(Init(), TwoCalls(a, b)).made);
    }
  }

  // ---------------------------------------------------------------- one caller after another

  /** The shared counters, as one call of Make sees them. */
  class Counters {
    const values: array<nat>
    // The keys made so far.
    ghost var made: seq<Key>

    ghost predicate Valid()
      reads this, values
    {
      && values.Length == COUNTERS && Numbered(made)
      && forall slot :: 0 <= slot < COUNTERS ==> values[slot] == Drawn(made, slot) % WRAP
    }

    constructor ()
      ensures Valid() && fresh(values) && made == [] && values[..] == seq(COUNTERS, _ => 0)
    {
      values := new nat[COUNTERS](_ => 0);
      made := [];
      new;
      assert values[..] == seq(COUNTERS, _ => 0);
    }

    /** While its counter has not come round, a new key is unlike every key made before. It prints
        like one of them only if both clocks are at or before 1970 and use different counters. */
    method Make(now: int) returns (key: Key)
      requires Valid() && IsClock(now)
      modifies values, this`made
      ensures Valid() && made == old(made) + [key] && key.timestamp == now
      ensures (key, values[..]) == MakeFrom(old(values[..]), now)
      ensures old(Drawn(made, Slot(now))) < WRAP ==> key !in old(made)
      ensures (forall slot :: 0 <= slot < COUNTERS ==> Drawn(made, slot) <= WRAP) ==>
                forall k :: k in old(made) && InRange(k) && ToBytes(k) == ToBytes(key) ==>
                  k.timestamp <= 0 && now <= 0 && Slot(k.timestamp) != Slot(now)
    {
      var slot := Slot(now);
      key := Key(now, values[slot]);
      NewKeyIsNew(made, now);
      OneMoreNumber(made, now);
      CountsOn(Drawn(made, slot));
      values[slot] := (values[slot] + 1) % WRAP;
      made := made + [key];
    }
  }

  lemma {:induction false} CountsOn(drawn: nat)
    ensures (drawn % WRAP + 1) % WRAP == (drawn + 1) % WRAP
  {
  }

  lemma {:induction false} NewKeyIsNew(made: seq<Key>, now: int)
    requires Numbered(made) && IsClock(now)
    ensures var key := Key(now, Drawn(made, Slot(now)) % WRAP);
      && (Drawn(made, Slot(now)) < WRAP ==> key !in made)
      && ((forall slot :: 0 <= slot < COUNTERS ==> Drawn(made + [key], slot) <= WRAP) ==>
            forall k :: k in made && ToBytes(k) == ToBytes(key) ==>
              k.timestamp <= 0 && now <= 0 && Slot(k.timestamp) != Slot(now))
  {
    var key := Key(now, Drawn(made, Slot(now)) % WRAP);
    var more := made + [key];
    OneMoreNumber(made, now);
    forall k | k in made
      ensures Drawn(made, Slot(now)) < WRAP ==> key != k
      ensures (forall slot :: 0 <= slot < COUNTERS ==> Drawn(more, slot) <= WRAP) && ToBytes(k) == ToBytes(key) ==>
                k.timestamp <= 0 && now <= 0 && Slot(k.timestamp) != Slot(now)
    {
      var i :| 0 <= i < |made| && made[i] == k;
      assert more[i] == k && more[|made|] == key;
      if Drawn(made, Slot(now)) < WRAP && k == key { SameSlotDiffers(more, i, |made|); }
      if (forall slot :: 0 <= slot < COUNTERS ==> Drawn(more, slot) <= WRAP) && ToBytes(k) == ToBytes(key) {
        PrintedAlike(more, i, |made|);
      }
    }
  }

  function MakeFrom(counters: seq<nat>, now: int): (Key, seq<nat>)
    requires |counters| == COUNTERS
  {
    var slot := Slot(now);
    (Key(now, counters[slot]), counters[slot := (counters[slot] + 1) % WRAP])
  }

  // The keys of successive calls that read these clocks.
  function MakeAll(counters: seq<nat>, clocks: seq<int>): (keys: seq<Key>)
    requires |counters| == COUNTERS
    ensures |keys| == |clocks|
    decreases |clocks|
  {
    if clocks == [] then []
    else [MakeFrom(counters, clocks[0]).0] + MakeAll(MakeFrom(counters, clocks[0]).1, clocks[1..])
  }

  ghost predicate Ticking(clocks: seq<int>)
  {
    && (forall i :: 0 <= i < |clocks| ==> 0 <= clocks[i] <= I64_MAX)
    && (forall i, k :: 0 <= i < k < |clocks| ==> clocks[i] <= clocks[k])
  }

  // No counter reaches its last value during the calls.
  ghost predicate Roomy(counters: seq<nat>, calls: nat)
  {
    forall slot :: 0 <= slot < |counters| ==> counters[slot] + calls < WRAP
  }

  lemma {:induction false} StillRoomy(counters: seq<nat>, now: int, calls: nat)
    requires |counters| == COUNTERS && Roomy(counters, calls + 1)
    ensures MakeFrom(counters, now).1 == counters[Slot(now) := counters[Slot(now)] + 1]
    ensures Roomy(MakeFrom(counters, now).1, calls)
  {
  }

  lemma {:induction false} KeysOfCalls(counters: seq<nat>, clocks: seq<int>, k: nat)
    requires |counters| == COUNTERS && k < |clocks| && Roomy(counters, |clocks|)
    ensures MakeAll(counters, clocks)[k].timestamp == clocks[k]
    ensures counters[Slot(clocks[k])] <= MakeAll(counters, clocks)[k].count < WRAP
    decreases k
  {
    if k > 0 {
      StillRoomy(counters, clocks[0], |clocks| - 1);
      KeysOfCalls(MakeFrom(counters, clocks[0]).1, clocks[1..], k - 1);
    }
  }

  /** Successive calls on a clock that does not run backwards make strictly increasing keys. */
  lemma {:induction false} KeysIncrease(counters: seq<nat>, clocks: seq<int>, i: nat, k: nat)
    requires |counters| == COUNTERS && Ticking(clocks) && Roomy(counters, |clocks|)
    requires i < k < |clocks|
    ensures var keys := MakeAll(counters, clocks);
      InRange(keys[i]) && InRange(keys[k]) && Compare(keys[i], keys[k]) < 0
    decreases i
  {
    if i == 0 {
      FirstIsLeast(counters, clocks, k);
    } else {
      StillRoomy(counters, clocks[0], |clocks| - 1);
      KeysIncrease(MakeFrom(counters, clocks[0]).1, clocks[1..], i - 1, k - 1);
    }
  }

  lemma {:induction false} FirstIsLeast(counters: seq<nat>, clocks: seq<int>, k: nat)
    requires |counters| == COUNTERS && Ticking(clocks) && Roomy(counters, |clocks|)
    requires 0 < k < |clocks|
    ensures var keys := MakeAll(counters, clocks);
      InRange(keys[0]) && InRange(keys[k]) && Compare(keys[0], keys[k]) < 0
  {
    var keys := MakeAll(counters, clocks);
    KeysOfCalls(counters, clocks, 0);
    KeysOfCalls(counters, clocks, k);
    var next := MakeFrom(counters, clocks[0]).1;
    StillRoomy(counters, clocks[0], |clocks| - 1);
    assert keys[k] == MakeAll(next, clocks[1..])[k - 1];
    KeysOfCalls(next, clocks[1..], k - 1);
    assert clocks[0] <= clocks[k];
    CompareIsNumeric(keys[0], keys[k]);
  }
}
