/** How data points travel between the collectors of src/timer/timer_enable.cc: any number of
    threads report, exit, flush and take reports, in any interleaving. Each action below runs under
    one mutex of the source. */
module TimerFlow {
  import opened Totals
  import opened Histogram
  import opened Percentile
  import opened TimerCollector

  type Thread = nat

  datatype Point = Point(section: nat, duration: int)

  // A collector's table and the points it has counted.
  datatype Cell = Cell(table: Table, logs: Logs)

  // Who is between collecting a table and merging it into the total.
  datatype Carrier = Flushing(flusher: Thread) | Exiting(thread: Thread)

  datatype State = State(
    live: map<Thread, Cell>,        // GetCollectorList()
    exiting: set<Thread>,           // threads whose collector's deleter has begun
    carried: map<Carrier, Cell>,    // collected and not merged yet
    listLock: Option<Thread>,       // CollectorList::mtx_, held throughout a flush
    total: Cell,                    // GetTotalStats()
    cleared: seq<Cell>,             // what GetAllReports(true) handed out and wiped
    accepted: seq<Point>,           // history: the points Report did not skip
    visited: set<Thread>,           // the collectors the flush has been at
    mark: nat                       // history: how many points were accepted when it began
  )

  datatype Label =
    | Open(thread: Thread)                                   // first report of a thread
    | Report(thread: Thread, section: nat, duration: int)    // mutex acquired
    | Skip                                                   // mutex busy: the point is dropped
    | BeginFlush(flusher: Thread)
    | FlushCollect(flusher: Thread, thread: Thread)
    | EndFlush(flusher: Thread)
    | ExitCollect(thread: Thread)
    | ExitErase(thread: Thread)
    | MergeCarried(carrier: Carrier)
    | TakeReport(clear: bool)

  function NoPoints(): Cell
  {
    Cell(NoEntries(), seq(SECTIONS, _ => []))
  }

  ghost predicate Sound(c: Cell)
  {
    Counts(c.table, c.logs)
  }

  function MergeCells(c: Cell, d: Cell): Cell
    requires Tabular(c.table) && Tabular(d.table) && |c.logs| == |d.logs| == SECTIONS
  {
    Cell(MergeTables(c.table, d.table), seq(SECTIONS, i requires 0 <= i < SECTIONS => c.logs[i] + d.logs[i]))
  }

  function AddPoint(c: Cell, p: Point): Cell
    requires Tabular(c.table) && |c.logs| == SECTIONS && Accepts(p.section, p.duration)
  {
    Cell(RecordAt(c.table, p.section, p.duration), c.logs[p.section := c.logs[p.section] + [p.duration]])
  }

  function Init(): State
  {
    State(map[], {}, map[], None, NoPoints(), [], [], {}, 0)
  }

  ghost predicate AllSound(s: State)
  {
    && (forall t :: t in s.live ==> Sound(s.live[t]))
    && (forall c :: c in s.carried ==> Sound(s.carried[c]))
    && Sound(s.total)
    && (forall i :: 0 <= i < |s.cleared| ==> Sound(s.cleared[i]))
  }

  // A collector is only erased after its points were taken out, and nobody reports to it later.
  ghost predicate Inv(s: State)
  {
    && AllSound(s)
    && (forall t :: t in s.exiting && t in s.live ==> s.live[t] == NoPoints())
    && (forall t :: Exiting(t) in s.carried ==> t in s.exiting)
  }

  ghost predicate Enabled(s: State, l: Label)
  {
    match l
    case Open(t) => t !in s.live && t !in s.exiting && s.listLock.None?
    case Report(t, section, duration) => t in s.live && t !in s.exiting
    case Skip => true
    case BeginFlush(f) => s.listLock.None?
    case FlushCollect(f, t) =>
      s.listLock == Some(f) && Flushing(f) !in s.carried && t in s.live && t !in s.visited
    case EndFlush(f) => s.listLock == Some(f) && Flushing(f) !in s.carried && forall t :: t in s.live ==> t in s.visited
    case ExitCollect(t) => t in s.live && t !in s.exiting
    case ExitErase(t) => t in s.exiting && t in s.live && Exiting(t) !in s.carried && s.listLock.None?
    case MergeCarried(c) => c in s.carried
    case TakeReport(_) => true
  }

  ghost function Apply(s: State, l: Label): State
    requires Inv(s) && Enabled(s, l)
  {
    match l
    case Open(t) => s.(live := s.live[t := NoPoints()])
    case Report(t, section, duration) =>
      if Accepts(section, duration)
      then s.(live := s.live[t := AddPoint(s.live[t], Point(section, duration))],
              accepted := s.accepted + [Point(section, duration)])
      else s
    case Skip => s
    case BeginFlush(f) => s.(listLock := Some(f), visited := {}, mark := |s.accepted|)
    case FlushCollect(f, t) =>
      s.(live := s.live[t := NoPoints()], carried := s.carried[Flushing(f) := s.live[t]], visited := s.visited + {t})
    case EndFlush(f) => s.(listLock := None)
    case ExitCollect(t) =>
      s.(live := s.live[t := NoPoints()], exiting := s.exiting + {t}, carried := s.carried[Exiting(t) := s.live[t]])
    case ExitErase(t) => s.(live := s.live - {t})
    case MergeCarried(c) => s.(carried := s.carried - {c}, total := MergeCells(s.total, s.carried[c]))
    case TakeReport(clear) => if clear then s.(total := NoPoints(), cleared := s.cleared + [s.total]) else s
  }

  lemma {:induction false} NoPointsSound()
    ensures Sound(NoPoints())
  {
    EmptyRepresents();
  }

  lemma {:induction false} MergeSound(c: Cell, d: Cell)
    requires Sound(c) && Sound(d)
    ensures Sound(MergeCells(c, d))
  {
    forall i | 0 <= i < SECTIONS ensures Represents(MergeCells(c, d).table[i], MergeCells(c, d).logs[i]) {
      MergeRepresents(c.table[i], c.logs[i], d.table[i], d.logs[i]);
    }
  }

  lemma {:induction false} AddSound(c: Cell, p: Point)
    requires Sound(c) && Accepts(p.section, p.duration)
    ensures Sound(AddPoint(c, p))
  {
    RecordRepresents(c.table[p.section], c.logs[p.section], p.duration);
  }

  /** Every table always counts exactly the points in its log, so every report is accurate. */
  lemma {:induction false} KeepsInv(s: State, l: Label)
    requires Inv(s) && Enabled(s, l)
    ensures Inv(Apply(s, l))
  {
    NoPointsSound();
    match l
    case Report(t, section, duration) =>
      if Accepts(section, duration) { AddSound(s.live[t], Point(section, duration)); }
    case MergeCarried(c) => MergeSound(s.total, s.carried[c]);
    case _ =>
  }

  // ---------------------------------------------------------------- conservation

  /** A quantity that merging adds up. */
  ghost predicate Additive(w: Cell -> nat)
  {
    && w(NoPoints()) == 0
    && forall c, d :: Sound(c) && Sound(d) ==> w(MergeCells(c, d)) == w(c) + w(d)
  }

  ghost function SeqTotal(cells: seq<Cell>, w: Cell -> nat): nat
  {
    if cells == [] then 0 else SeqTotal(cells[..|cells| - 1], w) + w(cells[|cells| - 1])
  }

  /** The quantity over every place a data point can be. */
  ghost function Amount(s: State, w: Cell -> nat): nat
  {
    Total(s.live, w) + Total(s.carried, w) + w(s.total) + SeqTotal(s.cleared, w)
  }

  // What one label adds to the quantity: only accepted reports do.
  ghost function Added(s: State, l: Label, w: Cell -> nat): int
    requires Inv(s) && Enabled(s, l)
  {
    if l.Report? && Accepts(l.section, l.duration)
    then w(AddPoint(s.live[l.thread], Point(l.section, l.duration))) - w(s.live[l.thread])
    else 0
  }

  /** No step loses or repeats what was counted. */
  lemma {:induction false} StepConserves(s: State, l: Label, w: Cell -> nat)
    requires Inv(s) && Enabled(s, l) && Additive(w)
    ensures Amount(Apply(s, l), w) == Amount(s, w) + Added(s, l, w)
  {
    match l
    case Open(t) => TotalInsert(s.live, t, NoPoints(), w);
    case Report(t, section, duration) =>
      if Accepts(section, duration) {
        TotalUpdate(s.live, t, AddPoint(s.live[t], Point(section, duration)), w);
      }
    case FlushCollect(f, t) =>
      TotalUpdate(s.live, t, NoPoints(), w);
      TotalInsert(s.carried, Flushing(f), s.live[t], w);
    case ExitCollect(t) =>
      TotalUpdate(s.live, t, NoPoints(), w);
      TotalInsert(s.carried, Exiting(t), s.live[t], w);
    case ExitErase(t) => TotalSplit(s.live, t, w);
    case MergeCarried(c) => TotalSplit(s.carried, c, w);
    case TakeReport(clear) =>
      assert (s.cleared + [s.total])[..|s.cleared|] == s.cleared;
    case _ =>
  }

  // ---------------------------------------------------------------- what is conserved

  ghost function HitsAt(i: nat, b: nat): Cell -> nat
  {
    (c: Cell) => if i < |c.table| && b < |c.table[i].buckets| then c.table[i].buckets[b].hits else 0
  }

  ghost function DurationAt(i: nat, b: nat): Cell -> nat
  {
    (c: Cell) => if i < |c.table| && b < |c.table[i].buckets| then c.table[i].buckets[b].total else 0
  }

  ghost function CopiesOf(i: nat, d: nat): Cell -> nat
  {
    (c: Cell) => if i < |c.logs| then multiset(c.logs[i])[d] else 0
  }

  /** The accepted durations of one section, in the order they were reported. */
  function InSection(points: seq<Point>, i: nat): seq<nat>
  {
    if points == [] then []
    else
      var p := points[|points| - 1];
      InSection(points[..|points| - 1], i) + if p.section == i && p.duration >= 0 then [p.duration] else []
  }

  // The three balances of one section, bucket and duration.
  ghost predicate BalancedAt(s: State, i: nat, b: nat, d: nat)
  {
    && Amount(s, HitsAt(i, b)) == Hits(InSection(s.accepted, i), b)
    && Amount(s, DurationAt(i, b)) == Sum(InSection(s.accepted, i), b)
    && Amount(s, CopiesOf(i, d)) == multiset(InSection(s.accepted, i))[d]
  }

  /** Hits, total duration and the points themselves, each exactly once somewhere. */
  ghost predicate Balanced(s: State)
  {
    forall i: nat, b: nat, d: nat :: i < SECTIONS && b < BUCKETS ==> BalancedAt(s, i, b, d)
  }

  lemma {:induction false} QuantitiesAdd(i: nat, b: nat, d: nat)
    requires i < SECTIONS && b < BUCKETS
    ensures Additive(HitsAt(i, b)) && Additive(DurationAt(i, b)) && Additive(CopiesOf(i, d))
  {
  }

  lemma {:induction false} AcceptedGrows(points: seq<Point>, p: Point, i: nat, b: nat)
    requires p.duration >= 0
    ensures var before, after := InSection(points, i), InSection(points + [p], i);
      && after == before + (if p.section == i then [p.duration] else [])
      && Hits(after, b) == Hits(before, b) + (if p.section == i && BucketOf(p.duration) == b then 1 else 0)
      && Sum(after, b) == Sum(before, b) + (if p.section == i && BucketOf(p.duration) == b then p.duration else 0)
  {
    assert (points + [p])[..|points|] == points;
    var before := InSection(points, i);
    assert before + [] == before;
    if p.section == i {
      LogsJoin(before, [p.duration], b);
      assert Hits([p.duration], b) == Hits([], b) + if BucketOf(p.duration) == b then 1 else 0;
      assert Sum([p.duration], b) == Sum([], b) + if BucketOf(p.duration) == b then p.duration else 0;
    }
  }

  // What an accepted point adds to a cell is what it adds to the history.
  lemma {:induction false} PointAdds(c: Cell, p: Point, i: nat, b: nat, d: nat)
    requires Sound(c) && Accepts(p.section, p.duration) && i < SECTIONS && b < BUCKETS
    ensures HitsAt(i, b)(AddPoint(c, p))
            == HitsAt(i, b)(c) + if p.section == i && BucketOf(p.duration) == b then 1 else 0
    ensures DurationAt(i, b)(AddPoint(c, p))
            == DurationAt(i, b)(c) + if p.section == i && BucketOf(p.duration) == b then p.duration else 0
    ensures CopiesOf(i, d)(AddPoint(c, p)) == CopiesOf(i, d)(c) + if p.section == i && p.duration == d then 1 else 0
  {
    BucketLimits(p.duration, 0);
  }

  // The point a step adds to the history, if any.
  function Gained(l: Label): seq<Point>
  {
    if l.Report? && Accepts(l.section, l.duration) then [Point(l.section, l.duration)] else []
  }

  lemma {:induction false} HistoryGains(s: State, l: Label)
    requires Inv(s) && Enabled(s, l)
    ensures Apply(s, l).accepted == s.accepted + Gained(l)
  {
    assert s.accepted + [] == s.accepted;
  }

  lemma {:induction false} KeepsBalanceAt(s: State, l: Label, i: nat, b: nat, d: nat)
    requires Inv(s) && Enabled(s, l) && i < SECTIONS && b < BUCKETS && BalancedAt(s, i, b, d)
    ensures BalancedAt(Apply(s, l), i, b, d)
  {
    HistoryGains(s, l);
    AmountsChange(s, l, i, b, d);
    ReportBalances(s, l, i, b, d);
    BalanceCarries(s, Apply(s, l), Gained(l), i, b, d,
                   Added(s, l, HitsAt(i, b)), Added(s, l, DurationAt(i, b)), Added(s, l, CopiesOf(i, d)));
  }

  lemma {:induction false} BalanceCarries(s: State, s': State, more: seq<Point>, i: nat, b: nat, d: nat,
                                          hits: int, total: int, copies: int)
    requires i < SECTIONS && b < BUCKETS && BalancedAt(s, i, b, d) && s'.accepted == s.accepted + more
    requires Amount(s', HitsAt(i, b)) == Amount(s, HitsAt(i, b)) + hits
    requires Amount(s', DurationAt(i, b)) == Amount(s, DurationAt(i, b)) + total
    requires Amount(s', CopiesOf(i, d)) == Amount(s, CopiesOf(i, d)) + copies
    requires Hits(InSection(s.accepted, i), b) + hits == Hits(InSection(s.accepted + more, i), b)
    requires Sum(InSection(s.accepted, i), b) + total == Sum(InSection(s.accepted + more, i), b)
    requires multiset(InSection(s.accepted, i))[d] + copies == multiset(InSection(s.accepted + more, i))[d]
    ensures BalancedAt(s', i, b, d)
  {
  }

  lemma {:induction false} AmountsChange(s: State, l: Label, i: nat, b: nat, d: nat)
    requires Inv(s) && Enabled(s, l) && i < SECTIONS && b < BUCKETS
    ensures Amount(Apply(s, l), HitsAt(i, b)) == Amount(s, HitsAt(i, b)) + Added(s, l, HitsAt(i, b))
    ensures Amount(Apply(s, l), DurationAt(i, b)) == Amount(s, DurationAt(i, b)) + Added(s, l, DurationAt(i, b))
    ensures Amount(Apply(s, l), CopiesOf(i, d)) == Amount(s, CopiesOf(i, d)) + Added(s, l, CopiesOf(i, d))
  {
    QuantitiesAdd(i, b, d);
    StepConserves(s, l, HitsAt(i, b));
    StepConserves(s, l, DurationAt(i, b));
    StepConserves(s, l, CopiesOf(i, d));
  }

  lemma {:induction false} ReportBalances(s: State, l: Label, i: nat, b: nat, d: nat)
    requires Inv(s) && Enabled(s, l) && i < SECTIONS && b < BUCKETS
    ensures var before, after := InSection(s.accepted, i), InSection(s.accepted + Gained(l), i);
      && Hits(before, b) + Added(s, l, HitsAt(i, b)) == Hits(after, b)
      && Sum(before, b) + Added(s, l, DurationAt(i, b)) == Sum(after, b)
      && multiset(before)[d] + Added(s, l, CopiesOf(i, d)) == multiset(after)[d]
  {
    if Gained(l) == [] {
      assert s.accepted + [] == s.accepted;
    } else {
      PointAdds(s.live[l.thread], Point(l.section, l.duration), i, b, d);
      AcceptedGrows(s.accepted, Point(l.section, l.duration), i, b);
    }
  }

  // ---------------------------------------------------------------- runs

  ghost predicate Reachable(labels: seq<Label>, s: State)
    decreases |labels|, 1
  {
    if labels == [] then s == Init()
    else exists prior :: ReachedBefore(labels, prior, s)
  }

  ghost predicate ReachedBefore(labels: seq<Label>, prior: State, s: State)
    requires labels != []
    decreases |labels|, 0
  {
    var l := labels[|labels| - 1];
    Reachable(labels[..|labels| - 1], prior) && Inv(prior) && Enabled(prior, l) && s == Apply(prior, l)
  }

  /** The data points that the threads report, but those out of range and those that met a busy mutex. */
  function Reported(labels: seq<Label>): seq<Point>
  {
    if labels == [] then []
    else
      var l := labels[|labels| - 1];
      Reported(labels[..|labels| - 1])
        + if l.Report? && l.duration >= 0 && l.section < 8192 then [Point(l.section, l.duration)] else []
  }

  // How many of them were reported before the last flush began.
  function ReportedBeforeFlush(labels: seq<Label>): nat
  {
    if labels == [] then 0
    else if labels[|labels| - 1].BeginFlush? then |Reported(labels[..|labels| - 1])|
    else ReportedBeforeFlush(labels[..|labels| - 1])
  }

  /** What is accepted is what was reported, in that order. */
  lemma {:induction false} AcceptedAreReported(labels: seq<Label>, s: State)
    requires Reachable(labels, s)
    ensures s.accepted == Reported(labels) && s.mark == ReportedBeforeFlush(labels)
    decreases |labels|
  {
    if labels != [] {
      var prior :| ReachedBefore(labels, prior, s);
      AcceptedAreReported(labels[..|labels| - 1], prior);
      StepAccepts(prior, labels[|labels| - 1]);
    }
  }

  // Who has a collector, holds the list's mutex, and how many reports cleared the total, by the actions.
  predicate HasCollector(labels: seq<Label>, t: Thread)
  {
    labels != [] &&
    var l, before := labels[|labels| - 1], labels[..|labels| - 1];
    l == Open(t) || (l != ExitErase(t) && HasCollector(before, t))
  }

  function Flusher(labels: seq<Label>): Option<Thread>
  {
    if labels == [] then None
    else
      var l := labels[|labels| - 1];
      if l.BeginFlush? then Some(l.flusher) else if l.EndFlush? then None else Flusher(labels[..|labels| - 1])
  }

  function Clears(labels: seq<Label>): nat
  {
    if labels == [] then 0
    else Clears(labels[..|labels| - 1]) + if labels[|labels| - 1] == TakeReport(true) then 1 else 0
  }

  /** A thread has a collector from its first report on until it is erased at its exit, a flush holds the
      list from its beginning to its end, and only a report that is told to clears the total. */
  lemma {:induction false} StateFollowsActions(labels: seq<Label>, s: State)
    requires Reachable(labels, s)
    ensures forall t :: t in s.live <==> HasCollector(labels, t)
    ensures s.listLock == Flusher(labels) && |s.cleared| == Clears(labels)
    decreases |labels|
  {
    if labels != [] {
      var prior :| ReachedBefore(labels, prior, s);
      var l := labels[|labels| - 1];
      StateFollowsActions(labels[..|labels| - 1], prior);
      StepFollows(prior, l);
      forall t ensures t in s.live <==> HasCollector(labels, t) {
        assert t in prior.live <==> HasCollector(labels[..|labels| - 1], t);
      }
    }
  }

  lemma {:induction false} StepFollows(s: State, l: Label)
    requires Inv(s) && Enabled(s, l)
    ensures forall t :: t in Apply(s, l).live <==> l == Open(t) || (l != ExitErase(t) && t in s.live)
    ensures Apply(s, l).listLock == if l.BeginFlush? then Some(l.flusher) else if l.EndFlush? then None else s.listLock
    ensures |Apply(s, l).cleared| == |s.cleared| + if l == TakeReport(true) then 1 else 0
  {
    match l
    case Open(_) =>
    case Report(_, _, _) =>
    case Skip =>
    case BeginFlush(_) =>
    case FlushCollect(_, _) =>
    case EndFlush(_) =>
    case ExitCollect(_) =>
    case ExitErase(_) =>
    case MergeCarried(_) =>
    case TakeReport(_) =>
  }

  lemma {:induction false} StepAccepts(s: State, l: Label)
    requires Inv(s) && Enabled(s, l)
    ensures Apply(s, l).accepted
            == s.accepted
               + if l.Report? && l.duration >= 0 && l.section < 8192 then [Point(l.section, l.duration)] else []
    ensures Apply(s, l).mark == if l.BeginFlush? then |s.accepted| else s.mark
  {
    assert s.accepted + [] == s.accepted;
    match l
    case Report(_, _, _) =>
    case Open(_) =>
    case Skip =>
    case BeginFlush(_) =>
    case FlushCollect(_, _) =>
    case EndFlush(_) =>
    case ExitCollect(_) =>
    case ExitErase(_) =>
    case MergeCarried(_) =>
    case TakeReport(_) =>
  }

  /** In every interleaving, every accepted point is counted exactly once, for hits and for
      duration, in a live collector, on its way to the total, in the total, or in a report that
      cleared it; and each of those tables counts exactly its own points. */
  lemma {:induction false} EveryPointOnce(labels: seq<Label>, s: State)
    requires Reachable(labels, s)
    ensures Inv(s) && Balanced(s)
    decreases |labels|
  {
    if labels == [] {
      NoPointsSound();
      forall i: nat, b: nat, d: nat | i < SECTIONS && b < BUCKETS ensures BalancedAt(s, i, b, d) {
        QuantitiesAdd(i, b, d);
      }
    } else {
      var prior :| ReachedBefore(labels, prior, s);
      EveryPointOnce(labels[..|labels| - 1], prior);
      KeepsInv(prior, labels[|labels| - 1]);
      forall i: nat, b: nat, d: nat | i < SECTIONS && b < BUCKETS ensures BalancedAt(s, i, b, d) {
        KeepsBalanceAt(prior, labels[|labels| - 1], i, b, d);
      }
    }
  }

  // ---------------------------------------------------------------- what a flush catches

  // The collectors the flush has been at, with what was reported to them since.
  ghost function Visited(s: State): map<Thread, Cell>
  {
    map t | t in s.live && t in s.visited :: s.live[t]
  }

  // The copies of a duration among the points accepted before the flush began.
  ghost function Early(s: State, i: nat, d: nat): nat
    requires s.mark <= |s.accepted|
  {
    multiset(InSection(s.accepted[..s.mark], i))[d]
  }

  // Visited collectors only hold points accepted during the flush, and only the flush has a table of
  // its own on the way.
  ghost predicate Catching(s: State, i: nat, d: nat)
  {
    && s.mark <= |s.accepted|
    && (forall f: Thread :: Flushing(f) in s.carried ==> s.listLock == Some(f))
    && (s.listLock.Some? ==>
          Total(Visited(s), CopiesOf(i, d)) + Early(s, i, d) <= multiset(InSection(s.accepted, i))[d])
  }

  lemma {:induction false} VisitedStays(s: State, s': State)
    requires s'.live == s.live && s'.visited == s.visited
    ensures Visited(s') == Visited(s)
  {
  }

  // One collector of the list changes.
  lemma {:induction false} VisitedChanges(s: State, s': State, t: Thread, c: Cell, w: Cell -> nat)
    requires t in s.live && s'.live == s.live[t := c] && s'.visited == s.visited
    ensures Total(Visited(s'), w) + (if t in s.visited then w(s.live[t]) else 0)
            == Total(Visited(s), w) + if t in s.visited then w(c) else 0
  {
    if t in s.visited {
      assert Visited(s') == Visited(s)[t := c];
      TotalUpdate(Visited(s), t, c, w);
    } else {
      assert Visited(s') == Visited(s);
    }
  }

  lemma {:induction false} VisitedGrows(s: State, s': State, t: Thread, w: Cell -> nat)
    requires t in s.live && t !in s.visited && s'.live == s.live[t := NoPoints()] && s'.visited == s.visited + {t}
    requires w(NoPoints()) == 0
    ensures Total(Visited(s'), w) == Total(Visited(s), w)
  {
    assert Visited(s') == Visited(s)[t := NoPoints()];
    TotalInsert(Visited(s), t, NoPoints(), w);
  }

  lemma {:induction false} ReportCatches(s: State, t: Thread, p: Point, i: nat, d: nat)
    requires Inv(s) && Catching(s, i, d) && t in s.live && Accepts(p.section, p.duration) && i < SECTIONS
    ensures Catching(s.(live := s.live[t := AddPoint(s.live[t], p)], accepted := s.accepted + [p]), i, d)
  {
    var s' := s.(live := s.live[t := AddPoint(s.live[t], p)], accepted := s.accepted + [p]);
    VisitedChanges(s, s', t, AddPoint(s.live[t], p), CopiesOf(i, d));
    PointAdds(s.live[t], p, i, 0, d);
    AcceptedGrows(s.accepted, p, i, 0);
    assert s'.accepted[..s.mark] == s.accepted[..s.mark];
  }

  lemma {:induction false} KeepsCatching(s: State, l: Label, i: nat, d: nat)
    requires Inv(s) && Enabled(s, l) && Catching(s, i, d) && i < SECTIONS
    ensures Catching(Apply(s, l), i, d)
  {
    var s', w := Apply(s, l), CopiesOf(i, d);
    match l
    case Open(t) =>
    case Report(t, section, duration) =>
      if Accepts(section, duration) { ReportCatches(s, t, Point(section, duration), i, d); }
    case Skip =>
    case BeginFlush(f) =>
      assert Visited(s') == map[] && s.accepted[..|s.accepted|] == s.accepted;
    case FlushCollect(f, t) => VisitedGrows(s, s', t, w);
    case EndFlush(f) =>
    case ExitCollect(t) => VisitedChanges(s, s', t, NoPoints(), w);
    case ExitErase(t) =>
    case MergeCarried(c) => VisitedStays(s, s');
    case TakeReport(clear) => VisitedStays(s, s');
  }

  lemma {:induction false} RunsCatch(labels: seq<Label>, s: State, i: nat, d: nat)
    requires Reachable(labels, s) && i < SECTIONS
    ensures Catching(s, i, d)
    decreases |labels|
  {
    if labels != [] {
      var prior :| ReachedBefore(labels, prior, s);
      RunsCatch(labels[..|labels| - 1], prior, i, d);
      KeepsCatching(prior, labels[|labels| - 1], i, d);
    }
  }

  /** A flush loses nothing: every point accepted before it began is, when it ends, in the total, in a
      cleared report, or on the way there from a thread that exits. */
  lemma {:induction false} FlushCatchesAll(labels: seq<Label>, s: State, f: Thread, i: nat, d: nat)
    requires Reachable(labels, s) && Enabled(s, EndFlush(f)) && i < SECTIONS
    ensures s.mark <= |s.accepted| && forall c :: c in s.carried ==> c.Exiting?
    ensures Early(s, i, d)
            <= CopiesOf(i, d)(s.total) + SeqTotal(s.cleared, CopiesOf(i, d)) + Total(s.carried, CopiesOf(i, d))
            <= multiset(InSection(s.accepted, i))[d]
  {
    EveryPointOnce(labels, s);
    RunsCatch(labels, s, i, d);
    assert BalancedAt(s, i, 0, d);
    assert Visited(s) == s.live;
  }

  /** So when no thread is exiting and nothing was cleared, the total then holds everything accepted
      before the flush, and nothing that was not accepted. */
  lemma {:induction false} TotalAfterFlush(labels: seq<Label>, s: State, f: Thread, i: nat)
    requires Reachable(labels, s) && Enabled(s, EndFlush(f)) && i < SECTIONS && s.carried == map[] && s.cleared == []
    ensures s.mark <= |s.accepted| && Sound(s.total)
    ensures multiset(InSection(s.accepted[..s.mark], i)) <= multiset(s.total.logs[i])
    ensures multiset(s.total.logs[i]) <= multiset(InSection(s.accepted, i))
    ensures s.mark == |s.accepted| ==> multiset(s.total.logs[i]) == multiset(InSection(s.accepted, i))
  {
    EveryPointOnce(labels, s);
    RunsCatch(labels, s, i, 0);
    if s.mark == |s.accepted| { assert s.accepted[..s.mark] == s.accepted; }
    forall d: nat
      ensures Early(s, i, d) <= multiset(s.total.logs[i])[d] <= multiset(InSection(s.accepted, i))[d]
    {
      FlushCatchesAll(labels, s, f, i, d);
    }
  }

  /** A percentile read from it is in the bucket of the r-th smallest of those durations, for the integer
      r nearest to p percent of their number. */
  lemma {:induction false} PercentileAfterFlush(labels: seq<Label>, s: State, f: Thread, i: nat,
                                                sorted: seq<nat>, p: nat, r: nat, value: nat)
    requires Reachable(labels, s) && Enabled(s, EndFlush(f)) && i < SECTIONS && s.carried == map[] && s.cleared == []
    requires |s.total.logs| == |s.total.table| == SECTIONS
    requires Sorted(sorted) && multiset(sorted) == multiset(s.total.logs[i])
    requires p < 100 && r > 0 && 200 * r - 100 <= 2 * |sorted| * p < 200 * r + 100
    requires IsPercentile(s.total.table[i].buckets, s.total.table[i].max, p, value)
    ensures s.mark <= |s.accepted|
    ensures multiset(InSection(s.accepted[..s.mark], i)) <= multiset(sorted) <= multiset(InSection(s.accepted, i))
    ensures 1 <= r <= |sorted|
    ensures BucketOf(value) == BucketOf(sorted[r - 1])
  {
    TotalAfterFlush(labels, s, f, i);
    assert |multiset(sorted)| == |multiset(s.total.logs[i])|;
    PercentileInBucketOfRank(s.total.table[i], s.total.logs[i], sorted, p, r, value);
  }
}
