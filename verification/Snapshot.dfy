/** The snapshot worker of src/msg_recorder/recorder.cc: one thread takes the snapshots of every
    configured interval, and each interval keeps its latest copies. */
module Snapshot {
  import opened Sequences

  const MAX_SNAPSHOTS := 48
  const NSEC_PER_SEC := 1_000_000_000

  datatype Interval = Interval(name: string, seconds: nat)

  // The next wake time of the configured interval `id`, in nanoseconds.
  datatype WakeUp = WakeUp(id: nat, at: int)

  // What one turn of the loop meets: the clock, a directory name, and how the copying ends.
  datatype Tick = Tick(now: int, dir: string, ok: bool)

  datatype Handling = Handling(wake: WakeUp, tick: Tick)

  function Period(interval: Interval): nat
  {
    interval.seconds * NSEC_PER_SEC
  }

  // The order of the wake-up queue.
  predicate Leq(intervals: seq<Interval>, a: WakeUp, b: WakeUp)
    requires a.id < |intervals| && b.id < |intervals|
  {
    a.at < b.at || (a.at == b.at && intervals[a.id].seconds <= intervals[b.id].seconds)
  }

  // A snapshot is skipped when no more than half a period is left before the next one.
  predicate InTime(intervals: seq<Interval>, h: Handling)
    requires h.wake.id < |intervals|
  {
    var period := Period(intervals[h.wake.id]);
    2 * (h.wake.at + period - h.tick.now) > period
  }

  // ---------------------------------------------------------------- what the schedule is meant to be

  function Count(log: seq<Handling>, id: nat): nat
  {
    if log == [] then 0
    else Count(log[..|log| - 1], id) + if log[|log| - 1].wake.id == id then 1 else 0
  }

  /** The k-th instant of an interval is start + k * period, however late the earlier ones ran. */
  function Instant(intervals: seq<Interval>, start: int, id: nat, k: nat): int
    requires id < |intervals|
  {
    start + k * Period(intervals[id])
  }

  // The first instant of an interval that is not handled yet.
  function Due(intervals: seq<Interval>, start: int, log: seq<Handling>, id: nat): WakeUp
    requires id < |intervals|
  {
    WakeUp(id, Instant(intervals, start, id, Count(log, id)))
  }

  /** The wake-up handled next is the earliest of all the instants still due. */
  ghost predicate IsNext(intervals: seq<Interval>, start: int, log: seq<Handling>, w: WakeUp)
  {
    && w.id < |intervals| && w == Due(intervals, start, log, w.id)
    && forall i: nat :: i < |intervals| ==> Leq(intervals, w, Due(intervals, start, log, i))
  }

  ghost predicate EarliestFirst(intervals: seq<Interval>, start: int, log: seq<Handling>)
  {
    forall j :: 0 <= j < |log| ==> IsNext(intervals, start, log[..j], log[j].wake)
  }

  /** The directories of the successful snapshots of a name, oldest first. */
  function Saved(intervals: seq<Interval>, log: seq<Handling>, name: string): seq<string>
    requires forall j :: 0 <= j < |log| ==> log[j].wake.id < |intervals|
  {
    if log == [] then []
    else
      var h := log[|log| - 1];
      Saved(intervals, log[..|log| - 1], name)
        + if intervals[h.wake.id].name == name && InTime(intervals, h) && h.tick.ok then [h.tick.dir] else []
  }

  function Latest(dirs: seq<string>): seq<string>
  {
    LatestOf(dirs, MAX_SNAPSHOTS)
  }

  function LatestOf(dirs: seq<string>, copies: nat): seq<string>
  {
    if |dirs| <= copies then dirs else dirs[|dirs| - copies..]
  }

  /** The configured number of copies of an interval, max_num_of_copies_, is not consulted. What is
      kept is nevertheless what was configured exactly while neither number is exceeded, or when the
      configured one is 48. */
  lemma {:induction false} ConfiguredCopies(dirs: seq<string>, copies: nat)
    ensures Latest(dirs) == LatestOf(dirs, copies)
            <==> copies == MAX_SNAPSHOTS || (|dirs| <= copies && |dirs| <= MAX_SNAPSHOTS)
  {
    assert |Latest(dirs)| == if |dirs| <= MAX_SNAPSHOTS then |dirs| else MAX_SNAPSHOTS;
    assert |LatestOf(dirs, copies)| == if |dirs| <= copies then |dirs| else copies;
  }

  /** Every name keeps exactly its latest successful snapshots, and the older ones are removed. */
  ghost predicate Keeps(intervals: seq<Interval>, log: seq<Handling>,
                        kept: map<string, seq<string>>, removed: map<string, seq<string>>)
    requires forall j :: 0 <= j < |log| ==> log[j].wake.id < |intervals|
  {
    && kept.Keys == removed.Keys
    && forall name :: KeepsName(Saved(intervals, log, name), name, kept, removed)
  }

  ghost predicate KeepsName(saved: seq<string>, name: string,
                            kept: map<string, seq<string>>, removed: map<string, seq<string>>)
    requires kept.Keys == removed.Keys
  {
    if name in kept then saved == removed[name] + kept[name] && kept[name] == Latest(saved) != []
    else saved == []
  }

  // ---------------------------------------------------------------- what follows from the order

  lemma {:induction false} InstantsGrow(intervals: seq<Interval>, start: int, id: nat, j: nat, k: nat)
    requires id < |intervals| && j <= k
    ensures Instant(intervals, start, id, j) <= Instant(intervals, start, id, k)
    ensures Period(intervals[id]) > 0 ==> Instant(intervals, start, id, k) >= start + k
  {
    var p := Period(intervals[id]);
    assert k * p == j * p + (k - j) * p;
    assert p > 0 ==> k * p >= k;
  }

  lemma {:induction false} CountGrows(log: seq<Handling>, id: nat, j: nat, k: nat)
    requires j <= k <= |log|
    ensures Count(log[..j], id) <= Count(log[..k], id)
    decreases k
  {
    if j < k {
      CountGrows(log, id, j, k - 1);
      assert log[..k][..k - 1] == log[..k - 1];
    }
  }

  /** Wake-ups are handled in the order of their time, and of their period at one time. */
  lemma {:induction false} HandledInOrder(intervals: seq<Interval>, start: int, log: seq<Handling>, j: nat, k: nat)
    requires EarliestFirst(intervals, start, log) && j <= k < |log|
    ensures log[k].wake.id < |intervals| && log[j].wake.id < |intervals|
    ensures log[j].wake.at <= log[k].wake.at
    ensures log[j].wake.at == log[k].wake.at ==>
              intervals[log[j].wake.id].seconds <= intervals[log[k].wake.id].seconds
  {
    assert IsNext(intervals, start, log[..j], log[j].wake);
    assert IsNext(intervals, start, log[..k], log[k].wake);
    var id := log[k].wake.id;
    CountGrows(log, id, j, k);
    InstantsGrow(intervals, start, id, Count(log[..j], id), Count(log[..k], id));
    assert Leq(intervals, log[j].wake, Due(intervals, start, log[..j], id));
  }

  lemma {:induction false} FindHandling(log: seq<Handling>, id: nat, k: nat) returns (m: nat)
    requires k < Count(log, id)
    ensures m < |log| && log[m].wake.id == id && Count(log[..m], id) == k
  {
    var last := |log| - 1;
    if k < Count(log[..last], id) {
      m := FindHandling(log[..last], id, k);
      assert log[..last][..m] == log[..m];
    } else {
      m := last;
    }
  }

  /** No interval is passed over: before a wake-up is handled, every instant of every interval that
      comes earlier has been handled, as that interval's own k-th. */
  lemma {:induction false} NothingIsPassedOver(intervals: seq<Interval>, start: int, log: seq<Handling>, j: nat,
                                               id: nat, k: nat)
      returns (m: nat)
    requires EarliestFirst(intervals, start, log) && j < |log| && id < |intervals|
    requires start + k * (intervals[id].seconds * NSEC_PER_SEC) < log[j].wake.at
    ensures m < j && log[m].wake == WakeUp(id, start + k * (intervals[id].seconds * NSEC_PER_SEC))
    ensures Count(log[..m], id) == k
  {
    assert IsNext(intervals, start, log[..j], log[j].wake);
    assert Leq(intervals, log[j].wake, Due(intervals, start, log[..j], id));
    if Count(log[..j], id) <= k {
      InstantsGrow(intervals, start, id, Count(log[..j], id), k);
    }
    m := FindHandling(log[..j], id, k);
    assert log[..j][..m] == log[..m];
    assert IsNext(intervals, start, log[..m], log[m].wake);
  }

  function CountAll(log: seq<Handling>, ids: nat): nat
  {
    if ids == 0 then 0 else CountAll(log, ids - 1) + Count(log, ids - 1)
  }

  lemma {:induction false} CountAllMore(log: seq<Handling>, h: Handling, ids: nat)
    ensures CountAll(log + [h], ids) == CountAll(log, ids) + if h.wake.id < ids then 1 else 0
  {
    if ids > 0 {
      CountAllMore(log, h, ids - 1);
      assert (log + [h])[..|log|] == log;
    }
  }

  lemma {:induction false} EveryHandlingCounts(log: seq<Handling>, ids: nat)
    requires forall j :: 0 <= j < |log| ==> log[j].wake.id < ids
    ensures CountAll(log, ids) == |log|
  {
    if log == [] {
      NoneCounts(ids);
    } else {
      var init, last := log[..|log| - 1], log[|log| - 1];
      EveryHandlingCounts(init, ids);
      CountAllMore(init, last, ids);
      assert log == init + [last];
    }
  }

  lemma {:induction false} NoneCounts(ids: nat)
    ensures CountAll([], ids) == 0
  {
    if ids > 0 {
      NoneCounts(ids - 1);
    }
  }

  lemma {:induction false} CountAllAtMost(log: seq<Handling>, ids: nat, bound: nat)
    requires forall id: nat :: id < ids ==> Count(log, id) <= bound
    ensures CountAll(log, ids) <= ids * bound
  {
    if ids > 0 {
      CountAllAtMost(log, ids - 1, bound);
      assert ids * bound == (ids - 1) * bound + bound;
    }
  }

  /** With positive periods the worker gets past every time: only so many wake-ups can be handled
      while the schedule is still at `until`. So each interval gets its turn again and again. */
  lemma {:induction false} ScheduleAdvances(intervals: seq<Interval>, start: int, log: seq<Handling>, until: int)
    requires EarliestFirst(intervals, start, log)
    requires forall i :: 0 <= i < |intervals| ==> intervals[i].seconds > 0
    requires log != [] && log[|log| - 1].wake.at <= until
    ensures |log| <= |intervals| * (until - start + 1)
  {
    var last := |log| - 1;
    forall j | 0 <= j < |log| ensures log[j].wake.id < |intervals| && log[j].wake.at <= until {
      HandledInOrder(intervals, start, log, j, last);
    }
    assert IsNext(intervals, start, log[..last], log[last].wake);
    InstantsGrow(intervals, start, log[last].wake.id, 0, Count(log[..last], log[last].wake.id));
    forall id: nat | id < |intervals| ensures Count(log, id) <= until - start + 1 {
      if Count(log, id) > 0 {
        var k := Count(log, id) - 1;
        var m := FindHandling(log, id, k);
        assert IsNext(intervals, start, log[..m], log[m].wake);
        InstantsGrow(intervals, start, id, 0, k);
      }
    }
    EveryHandlingCounts(log, |intervals|);
    CountAllAtMost(log, |intervals|, until - start + 1);
  }

  /** A period of zero, which the configuration does not refuse, takes every turn: no interval with
      a positive period is ever handled. */
  lemma {:induction false} ZeroPeriodStarves(intervals: seq<Interval>, start: int, log: seq<Handling>,
                                             zero: nat, j: nat)
    requires EarliestFirst(intervals, start, log) && j < |log|
    requires zero < |intervals| && intervals[zero].seconds == 0
    ensures log[j].wake.id < |intervals| && intervals[log[j].wake.id].seconds == 0 && log[j].wake.at == start
  {
    assert IsNext(intervals, start, log[..j], log[j].wake);
    assert Leq(intervals, log[j].wake, Due(intervals, start, log[..j], zero));
    InstantsGrow(intervals, start, log[j].wake.id, 0, Count(log[..j], log[j].wake.id));
    assert Instant(intervals, start, zero, Count(log[..j], zero)) == start;
  }

  // ---------------------------------------------------------------- the queue between two turns

  // The queue holds the first unhandled instant of every interval, once.
  ghost predicate Holds(intervals: seq<Interval>, start: int, log: seq<Handling>, queue: multiset<WakeUp>)
  {
    forall w: WakeUp :: queue[w] == if w.id < |intervals| && w == Due(intervals, start, log, w.id) then 1 else 0
  }

  lemma {:induction false} CountMore(log: seq<Handling>, h: Handling, id: nat)
    ensures Count(log + [h], id) == Count(log, id) + if h.wake.id == id then 1 else 0
  {
    assert (log + [h])[..|log|] == log;
  }

  lemma {:induction false} TurnKeepsQueue(intervals: seq<Interval>, start: int, log: seq<Handling>, h: Handling,
                       rest: multiset<WakeUp>, next: WakeUp)
    requires Holds(intervals, start, log, rest + multiset{h.wake})
    requires h.wake.id < |intervals| && next == WakeUp(h.wake.id, h.wake.at + Period(intervals[h.wake.id]))
    ensures Holds(intervals, start, log + [h], rest + multiset{next})
  {
    var all := rest + multiset{h.wake};
    assert all[h.wake] > 0;
    var n := Count(log, h.wake.id);
    assert (n + 1) * Period(intervals[h.wake.id]) == n * Period(intervals[h.wake.id]) + Period(intervals[h.wake.id]);
    forall w: WakeUp
      ensures (rest + multiset{next})[w]
              == if w.id < |intervals| && w == Due(intervals, start, log + [h], w.id) then 1 else 0
    {
      CountMore(log, h, w.id);
      assert all[w] == rest[w] + if w == h.wake then 1 else 0;
      assert (rest + multiset{next})[w] == rest[w] + if w == next then 1 else 0;
    }
  }

  lemma {:induction false} LeastIsNext(intervals: seq<Interval>, start: int, log: seq<Handling>,
                                       all: multiset<WakeUp>, top: WakeUp)
    requires Holds(intervals, start, log, all) && top in all
    requires forall w :: w in all ==> w.id < |intervals|
    requires forall w :: w in all ==> Leq(intervals, top, w)
    ensures IsNext(intervals, start, log, top)
  {
    forall i: nat | i < |intervals| ensures Leq(intervals, top, Due(intervals, start, log, i)) {
      assert all[Due(intervals, start, log, i)] == 1;
    }
  }

  // The top of the priority queue, taken off; which of equal ones is left open.
  method TakeTop(intervals: seq<Interval>, queue: seq<WakeUp>) returns (top: WakeUp, rest: seq<WakeUp>)
    requires queue != [] && forall i :: 0 <= i < |queue| ==> queue[i].id < |intervals|
    ensures multiset(queue) == multiset(rest) + multiset{top} && top in queue
    ensures forall w :: w in multiset(queue) ==> w.id < |intervals| && Leq(intervals, top, w)
  {
    var best := 0;
    for i := 1 to |queue|
      invariant best < |queue|
      invariant forall k :: 0 <= k < i ==> Leq(intervals, queue[best], queue[k])
    {
      if !Leq(intervals, queue[best], queue[i]) {
        best := i;
      }
    }
    top := queue[best];
    rest := queue[..best] + queue[best + 1..];
    TakeOut(queue, best);
  }

  method FillQueue(intervals: seq<Interval>, start: int) returns (queue: seq<WakeUp>)
    ensures Holds(intervals, start, [], multiset(queue)) && |queue| == |intervals|
    ensures forall w :: w in queue ==> w.id < |intervals|
  {
    queue := [];
    for n := 0 to |intervals|
      invariant |queue| == n && forall w :: w in queue ==> w.id < n
      invariant forall w: WakeUp :: multiset(queue)[w] == if w.id < n && w.at == start then 1 else 0
    {
      queue := queue + [WakeUp(n, start)];
    }
  }

  // Put the handled wake-up back one period later, and take the next one.
  method Reschedule(intervals: seq<Interval>, ghost start: int, queue0: seq<WakeUp>, ghost log: seq<Handling>,
                    ghost h: Handling, current0: WakeUp)
      returns (current: WakeUp, queue: seq<WakeUp>)
    requires h.wake == current0 && current0.id < |intervals| && forall w :: w in queue0 ==> w.id < |intervals|
    requires Holds(intervals, start, log, multiset(queue0) + multiset{current0})
    ensures IsNext(intervals, start, log + [h], current) && forall w :: w in queue ==> w.id < |intervals|
    ensures Holds(intervals, start, log + [h], multiset(queue) + multiset{current})
  {
    var next := WakeUp(current0.id, current0.at + Period(intervals[current0.id]));
    TurnKeepsQueue(intervals, start, log, h, multiset(queue0), next);
    ghost var all := multiset(queue0 + [next]);
    current, queue := TakeTop(intervals, queue0 + [next]);
    LeastIsNext(intervals, start, log + [h], all, current);
    assert forall w :: w in queue ==> w in all;
  }

  // Everything is in order before `current` is handled.
  ghost predicate Scheduled(intervals: seq<Interval>, start: int, log: seq<Handling>,
                            queue: seq<WakeUp>, current: WakeUp)
  {
    && EarliestFirst(intervals, start, log) && IsNext(intervals, start, log, current)
    && (forall j :: 0 <= j < |log| ==> log[j].wake.id < |intervals|)
    && Holds(intervals, start, log, multiset(queue) + multiset{current})
    && forall w :: w in queue ==> w.id < |intervals|
  }

  method FirstWakeUp(intervals: seq<Interval>, start: int) returns (current: WakeUp, queue: seq<WakeUp>)
    requires intervals != []
    ensures Scheduled(intervals, start, [], queue, current)
  {
    var filled := FillQueue(intervals, start);
    current, queue := TakeTop(intervals, filled);
    LeastIsNext(intervals, start, [], multiset(filled), current);
    assert forall w :: w in queue ==> w in multiset(filled);
  }

  // ---------------------------------------------------------------- the worker

  lemma {:induction false} SavedMore(intervals: seq<Interval>, log: seq<Handling>, h: Handling, name: string)
    requires forall j :: 0 <= j < |log| ==> log[j].wake.id < |intervals|
    requires h.wake.id < |intervals|
    ensures Saved(intervals, log + [h], name) == Saved(intervals, log, name)
              + if intervals[h.wake.id].name == name && InTime(intervals, h) && h.tick.ok then [h.tick.dir] else []
  {
    assert (log + [h])[..|log|] == log;
  }

  predicate Stores(intervals: seq<Interval>, h: Handling)
    requires h.wake.id < |intervals|
  {
    InTime(intervals, h) && h.tick.ok
  }

  lemma {:induction false} LatestMore(dirs: seq<string>, dir: string)
    ensures Latest(Latest(dirs) + [dir]) == Latest(dirs + [dir])
  {
  }

  lemma {:induction false} SkippedKeeps(intervals: seq<Interval>, log: seq<Handling>, h: Handling,
                     kept: map<string, seq<string>>, removed: map<string, seq<string>>)
    requires forall j :: 0 <= j < |log| ==> log[j].wake.id < |intervals|
    requires Keeps(intervals, log, kept, removed) && h.wake.id < |intervals| && !Stores(intervals, h)
    ensures Keeps(intervals, log + [h], kept, removed)
  {
    forall name ensures KeepsName(Saved(intervals, log + [h], name), name, kept, removed) {
      assert KeepsName(Saved(intervals, log, name), name, kept, removed);
      SavedMore(intervals, log, h, name);
      assert Saved(intervals, log, name) + [] == Saved(intervals, log, name);
    }
  }

  lemma {:induction false} StoredKeeps(intervals: seq<Interval>, log: seq<Handling>, h: Handling,
                    kept: map<string, seq<string>>, removed: map<string, seq<string>>,
                    kept': map<string, seq<string>>, removed': map<string, seq<string>>,
                    before: seq<string>, gone: seq<string>)
    requires forall j :: 0 <= j < |log| ==> log[j].wake.id < |intervals|
    requires Keeps(intervals, log, kept, removed) && h.wake.id < |intervals| && Stores(intervals, h)
    requires var name := intervals[h.wake.id].name;
      && before == (if name in kept then kept[name] else []) && gone == (if name in removed then removed[name] else [])
      && kept' == kept[name := Latest(before + [h.tick.dir])] && removed'.Keys == kept'.Keys
      && removed'[name] + kept'[name] == gone + (before + [h.tick.dir])
      && forall other :: other in removed' && other != name ==> removed'[other] == removed[other]
    ensures Keeps(intervals, log + [h], kept', removed')
  {
    var name, dir := intervals[h.wake.id].name, h.tick.dir;
    forall other ensures KeepsName(Saved(intervals, log + [h], other), other, kept', removed') {
      var saved := Saved(intervals, log, other);
      assert KeepsName(saved, other, kept, removed);
      SavedMore(intervals, log, h, other);
      if other == name {
        LatestMore(saved, dir);
        assert saved == gone + before && before == Latest(saved);
        assert gone + (before + [dir]) == saved + [dir];
      } else {
        assert saved + [] == saved;
      }
    }
  }

  /** A snapshot that succeeds is kept exactly if it was handled less than half a period after its
      instant. So, with a positive period, none that is handled on time is skipped. */
  lemma {:induction false} SavedExactly(intervals: seq<Interval>, log: seq<Handling>, name: string, dir: string)
    requires forall j :: 0 <= j < |log| ==> log[j].wake.id < |intervals|
    ensures dir in Saved(intervals, log, name)
            <==> exists j :: 0 <= j < |log| && MadeTimely(intervals, log[j], name, dir)
  {
    if log != [] {
      var init, h := log[..|log| - 1], log[|log| - 1];
      SavedExactly(intervals, init, name, dir);
      assert log == init + [h];
      SavedMore(intervals, init, h, name);
      if dir in Saved(intervals, init, name) {
        var j :| 0 <= j < |init| && MadeTimely(intervals, init[j], name, dir);
        assert MadeTimely(intervals, log[j], name, dir);
      }
      if j :| 0 <= j < |log| && MadeTimely(intervals, log[j], name, dir) && j < |init| {
        assert MadeTimely(intervals, init[j], name, dir);
      }
    }
  }

  // The snapshot succeeded under the name, less than half a period after its instant.
  predicate MadeTimely(intervals: seq<Interval>, h: Handling, name: string, dir: string)
    requires h.wake.id < |intervals|
  {
    var interval := intervals[h.wake.id];
    && interval.name == name && h.tick.dir == dir && h.tick.ok
    && 2 * (h.tick.now - h.wake.at) < interval.seconds * NSEC_PER_SEC
  }

  lemma {:induction false} OnTimeIsSaved(intervals: seq<Interval>, log: seq<Handling>, j: nat)
    requires forall j :: 0 <= j < |log| ==> log[j].wake.id < |intervals|
    requires j < |log| && intervals[log[j].wake.id].seconds > 0
    requires log[j].tick.now <= log[j].wake.at && log[j].tick.ok
    ensures log[j].tick.dir in Saved(intervals, log, intervals[log[j].wake.id].name)
  {
    var name, dir := intervals[log[j].wake.id].name, log[j].tick.dir;
    assert MadeTimely(intervals, log[j], name, dir);
    SavedExactly(intervals, log, name, dir);
  }

  class MessageRecorder {
    const intervals: seq<Interval>
    // snapshot_path_map_, and the directories that were removed from it again.
    var kept: map<string, seq<string>>
    ghost var removed: map<string, seq<string>>

    constructor (intervals: seq<Interval>)
      ensures this.intervals == intervals && kept == map[] && removed == map[]
    {
      this.intervals := intervals;
      kept, removed := map[], map[];
    }

    method MaintainMaxNumOfSnapshots(name: string)
      requires name in kept && name in removed
      modifies this
      ensures kept == old(kept)[name := Latest(old(kept[name]))]
      ensures removed.Keys == old(removed.Keys) && removed[name] + kept[name] == old(removed[name] + kept[name])
      ensures forall other :: other in removed && other != name ==> removed[other] == old(removed)[other]
    {
      while |kept[name]| > MAX_SNAPSHOTS
        invariant name in kept && kept == old(kept)[name := kept[name]] && Latest(kept[name]) == Latest(old(kept[name]))
        invariant removed.Keys == old(removed.Keys) && removed[name] + kept[name] == old(removed[name] + kept[name])
        invariant forall other :: other in removed && other != name ==> removed[other] == old(removed)[other]
        decreases |kept[name]|
      {
        var dirs := kept[name];
        removed := removed[name := removed[name] + [dirs[0]]];
        kept := kept[name := dirs[1..]];
      }
    }

    // The first half of a turn: take the snapshot of the current wake-up, or skip it.
    method Handle(wake: WakeUp, tick: Tick, ghost log: seq<Handling>)
      requires wake.id < |intervals| && forall j :: 0 <= j < |log| ==> log[j].wake.id < |intervals|
      requires Keeps(intervals, log, kept, removed)
      modifies this
      ensures Keeps(intervals, log + [Handling(wake, tick)], kept, removed)
      ensures var name := intervals[wake.id].name;
        if tick.ok && 2 * (tick.now - wake.at) < intervals[wake.id].seconds * NSEC_PER_SEC
        then kept == old(kept)[name := Latest((if name in old(kept) then old(kept)[name] else []) + [tick.dir])]
        else kept == old(kept)
    {
      ghost var h := Handling(wake, tick);
      var name := intervals[wake.id].name;
      var period := Period(intervals[wake.id]);
      if 2 * (wake.at + period - tick.now) > period && tick.ok {
        var before := if name in kept then kept[name] else [];
        ghost var gone := if name in removed then removed[name] else [];
        removed := removed[name := gone];
        kept := kept[name := before + [tick.dir]];
        MaintainMaxNumOfSnapshots(name);
        StoredKeeps(intervals, log, h, old(kept), old(removed), kept, removed, before, gone);
      } else {
        SkippedKeeps(intervals, log, h, kept, removed);
      }
    }

    method Turn(ghost start: int, queue0: seq<WakeUp>, current0: WakeUp, tick: Tick, ghost log: seq<Handling>)
        returns (current: WakeUp, queue: seq<WakeUp>)
      requires Scheduled(intervals, start, log, queue0, current0) && Keeps(intervals, log, kept, removed)
      modifies this
      ensures var log' := log + [Handling(current0, tick)];
        Scheduled(intervals, start, log', queue, current) && Keeps(intervals, log', kept, removed)
    {
      ghost var h := Handling(current0, tick);
      Handle(current0, tick, log);
      OneMore(intervals, start, log, h);
      current, queue := Reschedule(intervals, start, queue0, log, h, current0);
    }

    /** One turn per tick until the shutdown flag is seen: `log` is what was handled. */
    method SnapshotWorker(start: int, ticks: seq<Tick>) returns (ghost log: seq<Handling>)
      requires kept == map[] && removed == map[]
      modifies this
      ensures |log| == if intervals == [] then 0 else |ticks|
      ensures forall j :: 0 <= j < |log| ==> log[j].tick == ticks[j]
      ensures EarliestFirst(intervals, start, log)
      ensures forall j :: 0 <= j < |log| ==> log[j].wake.id < |intervals|
      ensures Keeps(intervals, log, kept, removed)
    {
      log := [];
      if intervals == [] {
        return;
      }
      var current, queue := FirstWakeUp(intervals, start);
      for n := 0 to |ticks|
        invariant |log| == n && forall j :: 0 <= j < n ==> log[j].tick == ticks[j]
        invariant Scheduled(intervals, start, log, queue, current) && Keeps(intervals, log, kept, removed)
      {
        ghost var before := current;
        current, queue := Turn(start, queue, current, ticks[n], log);
        log := log + [Handling(before, ticks[n])];
      }
    }
  }

  lemma {:induction false} OneMore(intervals: seq<Interval>, start: int, log: seq<Handling>, h: Handling)
    requires EarliestFirst(intervals, start, log) && IsNext(intervals, start, log, h.wake)
    ensures EarliestFirst(intervals, start, log + [h])
  {
    forall j | 0 <= j < |log + [h]| ensures IsNext(intervals, start, (log + [h])[..j], (log + [h])[j].wake) {
      assert (log + [h])[..j] == log[..j];
      if j == |log| {
        assert log[..j] == log;
      }
    }
  }
}
