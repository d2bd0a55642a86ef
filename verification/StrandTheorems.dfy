/** What every run of the strand protocol guarantees. */
module StrandTheorems {
  import opened Totals
  import opened Serial
  import opened Strand
  import opened StrandSafety

  // ---------------------------------------------------------------- runs

  predicate CanRun(s: State, labels: seq<Label>)
    decreases |labels|
  {
    labels == [] || (Enabled(s, labels[0]) && CanRun(Apply(s, labels[0]), labels[1..]))
  }

  function RunOf(s: State, labels: seq<Label>): State
    requires CanRun(s, labels)
    decreases |labels|
  {
    if labels == [] then s else RunOf(Apply(s, labels[0]), labels[1..])
  }

  ghost predicate Reachable(workers: nat, s: State)
  {
    exists labels :: CanRun(Init(workers), labels) && RunOf(Init(workers), labels) == s
  }

  lemma {:induction false} RunExtends(s: State, labels: seq<Label>, l: Label)
    requires CanRun(s, labels) && Enabled(RunOf(s, labels), l)
    ensures CanRun(s, labels + [l]) && RunOf(s, labels + [l]) == Apply(RunOf(s, labels), l)
    decreases |labels|
  {
    if labels != [] {
      RunExtends(Apply(s, labels[0]), labels[1..], l);
      assert (labels + [l])[1..] == labels[1..] + [l];
    }
  }

  lemma {:induction false} ReachesOn(workers: nat, s: State, l: Label)
    requires Reachable(workers, s) && Enabled(s, l)
    ensures Reachable(workers, Apply(s, l))
  {
    var labels :| CanRun(Init(workers), labels) && RunOf(Init(workers), labels) == s;
    RunExtends(Init(workers), labels, l);
    assert CanRun(Init(workers), labels + [l]);
  }

  lemma {:induction false} KeepsInv(s: State, l: Label)
    requires Inv(s) && Enabled(s, l)
    ensures Inv(Apply(s, l))
  {
    var ob :| InvWith(s, ob);
    BatonMoves(s, l, ob);
    KeepsLocking(s, l, ob);
    KeepsBodies(s, l, ob);
    KeepsLively(s, l, ob);
    KeepsNames(s, l);
    KeepsHistories(s, l, ob);
    KeepsQueues(s, l);
    assert InvWith(Apply(s, l), Moved(s, l, ob));
  }

  lemma {:induction false} KeepsQueues(s: State, l: Label)
    requires Enabled(s, l)
    ensures |Apply(s, l).queues| == |s.queues|
  {
  }

  lemma {:induction false} RunsKeepInv(s: State, labels: seq<Label>)
    requires Inv(s) && CanRun(s, labels)
    ensures Inv(RunOf(s, labels))
    decreases |labels|
  {
    if labels != [] {
      KeepsInv(s, labels[0]);
      RunsKeepInv(Apply(s, labels[0]), labels[1..]);
    }
  }

  lemma {:induction false} ReachableInv(workers: nat, s: State)
    requires workers > 0 && Reachable(workers, s)
    ensures Inv(s)
  {
    InitHolds(workers);
    var labels :| CanRun(Init(workers), labels) && RunOf(Init(workers), labels) == s;
    RunsKeepInv(Init(workers), labels);
  }

  // ---------------------------------------------------------------- safety

  /** There are never two batons, and outside the critical section has_ready_job_ says whether
      there is one. */
  lemma {:induction false} FlagIsBaton(workers: nat, s: State)
    requires workers > 0 && Reachable(workers, s)
    ensures forall a, b :: IsBaton(s, a) && IsBaton(s, b) ==> a == b
    ensures s.lock.None? ==> (s.flag <==> exists b :: IsBaton(s, b))
  {
    ReachableInv(workers, s);
    var ob :| InvWith(s, ob);
    forall a, b | IsBaton(s, a) && IsBaton(s, b) ensures a == b {
      assert ob == Some(a);
    }
    if ob.Some? { assert IsBaton(s, ob.value); }
  }

  // The job a step calls, if any.
  function Started(s: State, l: Label): Option<JobId>
    requires Enabled(s, l)
  {
    match l
    case Take(w) => if s.queues[w][0].Job? then Some(s.queues[w][0].job) else None
    case Advance(c) => if s.calls[c].RunNow? then Some(c.job) else None
    case _ => None
  }

  /** No job of the strand is called while a reference to an earlier job's alive token remains, and
      no job is called twice. */
  lemma {:induction false} StartsAlone(workers: nat, s: State, l: Label)
    requires workers > 0 && Reachable(workers, s) && Enabled(s, l) && Started(s, l).Some?
    ensures s.tokens == map[]
    ensures s.started == s.finished
    ensures Started(s, l).value !in s.started
    ensures Apply(s, l).started == s.started + [Started(s, l).value]
    ensures |s.started| < |s.submitted| && s.submitted[|s.started|] == Started(s, l).value
  {
    ReachableInv(workers, s);
    var ob :| InvWith(s, ob);
    var b := if l.Take? then InQueue(l.worker, 0) else AtCall(l.call);
    assert IsBaton(s, b);
    assert forall j :: j in s.tokens ==> IsBaton(s, Alive(j));
    var j := Started(s, l).value;
    assert Active(s, ob) == [j];
    assert s.submitted[|s.started|] == j;
    forall i | 0 <= i < |s.started| ensures s.started[i] != j {
      assert s.submitted[i] == s.started[i];
    }
  }

  /** Functions that do not receive their token never overlap. */
  lemma {:induction false} PlainBodiesAlone(workers: nat, s: State, i: JobId, j: JobId)
    requires workers > 0 && Reachable(workers, s)
    requires i in s.bodies && i in s.plain && j in s.bodies && j in s.plain
    ensures i == j
  {
    ReachableInv(workers, s);
    var ob :| InvWith(s, ob);
    assert IsBaton(s, Alive(i)) && IsBaton(s, Alive(j));
  }

  /** Each accepted job is called at most once, in the order the jobs were accepted, and at most
      one is between its call and the death of its token. */
  lemma {:induction false} FirstInFirstOut(workers: nat, s: State)
    requires workers > 0 && Reachable(workers, s)
    ensures s.finished <= s.started <= s.submitted
    ensures |s.started| <= |s.finished| + 1
    ensures |s.tokens| == |s.started| - |s.finished|
    ensures Distinct(s.submitted)
  {
    ReachableInv(workers, s);
    var ob :| InvWith(s, ob);
    if ob.Some? && ob.value.Alive? {
      forall j | j in s.tokens ensures j == ob.value.job {
        assert IsBaton(s, Alive(j));
      }
      assert IsBaton(s, ob.value);
      assert s.tokens.Keys == {ob.value.job};
    } else {
      assert forall j :: j in s.tokens ==> IsBaton(s, Alive(j));
      assert s.tokens.Keys == {};
    }
  }

  // ---------------------------------------------------------------- refinement

  predicate Counted(submitted: seq<JobId>, started: seq<JobId>, finished: seq<JobId>)
  {
    finished <= started <= submitted && |started| <= |finished| + 1
  }

  // The serial executor that has seen these histories.
  function Seen(submitted: seq<JobId>, started: seq<JobId>, finished: seq<JobId>): Executor<JobId>
    requires Counted(submitted, started, finished)
  {
    Executor(submitted[|started|..],
             if |started| > |finished| then Some(started[|finished|]) else None,
             finished)
  }

  function Abstract(s: State): Executor<JobId>
    requires Counted(s.submitted, s.started, s.finished)
  {
    Seen(s.submitted, s.started, s.finished)
  }

  lemma {:induction false} SeenSubmit(submitted: seq<JobId>, started: seq<JobId>, finished: seq<JobId>, j: JobId)
    requires Counted(submitted, started, finished)
    ensures Counted(submitted + [j], started, finished)
    ensures Seen(submitted + [j], started, finished) == After(Seen(submitted, started, finished), Submit(j))
  {
    assert (submitted + [j])[|started|..] == submitted[|started|..] + [j];
  }

  lemma {:induction false} SeenStart(submitted: seq<JobId>, started: seq<JobId>, j: JobId)
    requires started <= submitted && |started| < |submitted| && submitted[|started|] == j
    ensures Counted(submitted, started + [j], started)
    ensures Allowed(Seen(submitted, started, started), Start)
    ensures Seen(submitted, started + [j], started) == After(Seen(submitted, started, started), Start)
  {
  }

  lemma {:induction false} SeenFinish(submitted: seq<JobId>, finished: seq<JobId>, j: JobId)
    requires Counted(submitted, finished + [j], finished)
    ensures Counted(submitted, finished + [j], finished + [j])
    ensures Allowed(Seen(submitted, finished + [j], finished), Finish)
    ensures Seen(submitted, finished + [j], finished + [j]) == After(Seen(submitted, finished + [j], finished), Finish)
  {
  }

  // What a step of the protocol is for the serial executor.
  function EventOf(s: State, l: Label): Event<JobId>
    requires Enabled(s, l)
  {
    if Started(s, l).Some? then Start
    else if l.Advance? && l.call.Add? && Apply(s, l).submitted != s.submitted then Submit(l.call.job)
    else if Apply(s, l).finished != s.finished then Finish
    else Stutter
  }

  // The only ways a step can change the three histories.
  lemma {:induction false} HistoryChanges(s: State, l: Label)
    requires Enabled(s, l)
    ensures var s' := Apply(s, l);
      || (s'.submitted == s.submitted && s'.started == s.started && s'.finished == s.finished)
      || (l.Advance? && s'.submitted == s.submitted + [l.call.job] && s'.started == s.started
          && s'.finished == s.finished)
      || (Started(s, l).Some? && s'.submitted == s.submitted && s'.started == s.started + [Started(s, l).value]
          && s'.finished == s.finished)
      || ((l.DropToken? || l.EndBody?) && l.job in s.tokens && s'.submitted == s.submitted && s'.started == s.started
          && s'.finished == s.finished + [l.job])
    ensures Started(s, l).Some? ==> Apply(s, l).started != s.started
  {
    match l
    case BeginAdd(_, _) =>
    case BeginTry(_, _, _) =>
    case BeginForeign(_) =>
    case Advance(c) => if s.calls[c].TryLock? || s.calls[c].TryTest? {} else if s.calls[c].Decide? {}
    case PushTo(_, _) =>
    case Take(_) =>
    case CopyToken(_) =>
    case MoveToken(_) =>
    case DropToken(_) =>
    case EndBody(_) =>
  }

  lemma {:induction false} SubmitterIsAdd(s: State, l: Label)
    requires Inv(s) && Enabled(s, l) && l.Advance? && Apply(s, l).submitted != s.submitted
    ensures l.call.Add?
  {
  }

  /** Every step is a step of the serial executor or invisible to it. */
  lemma {:induction false} StepRefinesSerial(workers: nat, s: State, l: Label)
    requires workers > 0 && Reachable(workers, s) && Enabled(s, l)
    ensures Counted(s.submitted, s.started, s.finished)
    ensures Counted(Apply(s, l).submitted, Apply(s, l).started, Apply(s, l).finished)
    ensures Allowed(Abstract(s), EventOf(s, l))
    ensures Abstract(Apply(s, l)) == After(Abstract(s), EventOf(s, l))
  {
    var s' := Apply(s, l);
    FirstInFirstOut(workers, s);
    HistoryChanges(s, l);
    if Started(s, l).Some? {
      StartsAlone(workers, s, l);
      SeenStart(s.submitted, s.started, Started(s, l).value);
    } else if s'.submitted != s.submitted {
      ReachableInv(workers, s);
      SubmitterIsAdd(s, l);
      SeenSubmit(s.submitted, s.started, s.finished, l.call.job);
    } else if s'.finished != s.finished {
      TokenIsLast(workers, s, l.job);
      SeenFinish(s.submitted, s.finished, l.job);
    }
  }

  lemma {:induction false} TokenIsLast(workers: nat, s: State, j: JobId)
    requires workers > 0 && Reachable(workers, s) && j in s.tokens
    ensures s.started == s.finished + [j]
  {
    ReachableInv(workers, s);
    var ob :| InvWith(s, ob);
    assert IsBaton(s, Alive(j));
  }

  function Events(s: State, labels: seq<Label>): seq<Event<JobId>>
    requires CanRun(s, labels)
    decreases |labels|
  {
    if labels == [] then []
    else [EventOf(s, labels[0])] + Events(Apply(s, labels[0]), labels[1..])
  }

  lemma {:induction false} RunRefinesSerialFrom(workers: nat, s: State, labels: seq<Label>)
    requires workers > 0 && Reachable(workers, s) && CanRun(s, labels)
    ensures var t := RunOf(s, labels);
      && Counted(s.submitted, s.started, s.finished) && Counted(t.submitted, t.started, t.finished)
      && CanDo(Abstract(s), Events(s, labels))
      && Outcome(Abstract(s), Events(s, labels)) == Abstract(t)
    decreases |labels|
  {
    FirstInFirstOut(workers, s);
    if labels != [] {
      StepRefinesSerial(workers, s, labels[0]);
      ReachesOn(workers, s, labels[0]);
      RunRefinesSerialFrom(workers, Apply(s, labels[0]), labels[1..]);
      assert Events(s, labels)[1..] == Events(Apply(s, labels[0]), labels[1..]);
    }
  }

  /** Whatever the interleaving, what the strand did is something the serial executor can do. */
  lemma {:induction false} RunRefinesSerial(workers: nat, labels: seq<Label>)
    requires workers > 0 && CanRun(Init(workers), labels)
    ensures var t := RunOf(Init(workers), labels);
      && Counted(t.submitted, t.started, t.finished)
      && CanDo(Executor([], None, []), Events(Init(workers), labels))
      && Outcome(Executor([], None, []), Events(Init(workers), labels)) == Abstract(t)
  {
    assert CanRun(Init(workers), []) && RunOf(Init(workers), []) == Init(workers);
    RunRefinesSerialFrom(workers, Init(workers), labels);
    assert Abstract(Init(workers)) == Executor([], None, []);
  }

  /** So the jobs of a run are called, and finish, in the order in which its AddJob calls put them
      into the strand. */
  lemma {:induction false} RunsInSubmissionOrder(workers: nat, labels: seq<Label>)
    requires workers > 0 && CanRun(Init(workers), labels)
    ensures var t, accepted := RunOf(Init(workers), labels), Submissions(Events(Init(workers), labels));
      t.submitted == accepted && t.finished <= t.started <= accepted
  {
    RunRefinesSerial(workers, labels);
    var t := RunOf(Init(workers), labels);
    RunsInOrder(Executor([], None, []), Events(Init(workers), labels));
    SeenHistory(t.submitted, t.started, t.finished);
  }

  lemma {:induction false} SeenHistory(submitted: seq<JobId>, started: seq<JobId>, finished: seq<JobId>)
    requires Counted(submitted, started, finished)
    ensures History(Seen(submitted, started, finished)) == submitted
    ensures Begun(Seen(submitted, started, finished)) == started
  {
  }
}
