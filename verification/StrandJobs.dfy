/** What becomes of every job that is brought to the strand: the forms of AddJob of
    src/sched/job_runner.cc, from their call on, over whole runs. */
module StrandJobs {
  import opened Sequences
  import opened Totals
  import opened Strand
  import opened StrandSafety
  import opened StrandTheorems
  import opened StrandLiveness

  // AddJob, and the TryRunImmediately form, which enqueues what it may not run at once.
  predicate Brings(l: Label, j: JobId)
  {
    (l.BeginAdd? && l.job == j) || (l.BeginTry? && l.job == j && l.fallback)
  }

  // The ForceRunImmediately form, which gives up.
  predicate Offers(l: Label, j: JobId)
  {
    l.BeginTry? && l.job == j && !l.fallback
  }

  // The strand has the job, or its call is on the way to the pending queue.
  predicate Coming(s: State, j: JobId)
  {
    j in s.submitted || (Add(j) in s.calls && LeadsToEnqueue(s.calls[Add(j)]))
  }

  predicate LeadsToEnqueue(pc: Pc)
  {
    pc.Enqueue? || (pc.TryLock? && pc.fallback) || (pc.TryTest? && pc.fallback)
  }

  lemma {:induction false} StepKeepsComing(s: State, c: Call, j: JobId)
    requires Enabled(s, Advance(c)) && Coming(s, j)
    ensures Coming(Step(s, c), j)
  {
    if c != Add(j) { OthersStayInStep(s, c, Add(j)); }
    match s.calls[c]
    case TryLock(_) =>
    case TryTest(_) =>
    case TryWon =>
    case RunNow =>
    case Enqueue =>
    case WantLock =>
    case Decide =>
    case TookNone =>
    case Took(_) =>
  }

  lemma {:induction false} KeepsComing(s: State, l: Label, j: JobId)
    requires Names(s) && Enabled(s, l) && Coming(s, j)
    ensures Coming(Apply(s, l), j)
  {
    match l
    case Advance(c) => StepKeepsComing(s, c, j);
    case BeginAdd(_, _) =>
    case BeginTry(_, _, _) =>
    case BeginForeign(_) =>
    case PushTo(_, _) =>
    case Take(_) =>
    case CopyToken(_) =>
    case MoveToken(_) =>
    case DropToken(_) =>
    case EndBody(_) =>
  }

  lemma {:induction false} NamesHold(s: State)
    requires Inv(s)
    ensures Names(s) && Locking(s)
  {
  }

  lemma {:induction false} BroughtStaysComing(s: State, labels: seq<Label>, j: JobId)
    requires Inv(s) && CanRun(s, labels)
    requires Coming(s, j) || exists l :: l in labels && Brings(l, j)
    ensures Coming(RunOf(s, labels), j)
    decreases |labels|
  {
    if labels != [] {
      KeepsInv(s, labels[0]);
      if Coming(s, j) {
        NamesHold(s);
        KeepsComing(s, labels[0], j);
      } else if !Brings(labels[0], j) {
        var l :| l in labels && Brings(l, j);
        assert labels == [labels[0]] + labels[1..];
      }
      BroughtStaysComing(Apply(s, labels[0]), labels[1..], j);
    }
  }

  /** No job is forgotten. Whatever the interleaving, a job for which AddJob was called, or its
      TryRunImmediately form, has been accepted by the strand, or its call is still on the way to the
      pending queue. When nothing can move any more it has been called and is finished. */
  lemma {:induction false} BroughtJobsRun(workers: nat, labels: seq<Label>, j: JobId)
    requires workers > 0 && CanRun(Init(workers), labels)
    requires exists l :: l in labels && Brings(l, j)
    ensures var s := RunOf(Init(workers), labels);
      && (j in s.submitted || (Add(j) in s.calls && LeadsToEnqueue(s.calls[Add(j)])))
      && (Stuck(s) ==> j in s.finished)
  {
    var s := RunOf(Init(workers), labels);
    InitHolds(workers);
    BroughtStaysComing(Init(workers), labels, j);
    assert Reachable(workers, s);
    if Stuck(s) { StuckIsDrained(workers, s); }
  }

  // ---------------------------------------------------------------- running at once or not at all

  // An offered job: its call never gets to the pending queue, and what it wins it runs itself.
  predicate Offered(s: State, j: JobId)
  {
    && j in s.known && j !in s.pending
    && (Add(j) in s.calls ==> TriesOnly(s.calls[Add(j)]))
    && (Add(j) in s.calls && Unsubmitted(s.calls[Add(j)]) ==> j !in s.submitted)
    && (j in s.submitted ==> j in s.started || (Add(j) in s.calls && Carries(s.calls[Add(j)])))
  }

  predicate TriesOnly(pc: Pc)
  {
    (pc.TryLock? && !pc.fallback) || (pc.TryTest? && !pc.fallback) || pc.TryWon? || pc.RunNow?
  }

  lemma {:induction false} StepKeepsOffered(s: State, c: Call, j: JobId)
    requires Locking(s) && Enabled(s, Advance(c)) && Offered(s, j)
    ensures Offered(Step(s, c), j)
  {
    if c != Add(j) { OthersStayInStep(s, c, Add(j)); }
    match s.calls[c]
    case TryLock(_) =>
    case TryTest(_) =>
    case TryWon =>
    case RunNow =>
    case Enqueue =>
    case WantLock =>
    case Decide =>
    case TookNone =>
    case Took(_) =>
  }

  lemma {:induction false} OthersKeepOffered(s: State, l: Label, j: JobId)
    requires Enabled(s, l) && !l.Advance? && Offered(s, j)
    ensures Offered(Apply(s, l), j)
  {
    match l
    case BeginAdd(_, _) =>
    case BeginTry(_, _, _) =>
    case BeginForeign(_) =>
    case PushTo(_, _) =>
    case Take(_) =>
    case CopyToken(_) =>
    case MoveToken(_) =>
    case DropToken(_) =>
    case EndBody(_) =>
  }

  lemma {:induction false} KeepsOffered(s: State, l: Label, j: JobId)
    requires Locking(s) && Enabled(s, l) && Offered(s, j)
    ensures Offered(Apply(s, l), j)
  {
    if l.Advance? {
      StepKeepsOffered(s, l.call, j);
    } else {
      OthersKeepOffered(s, l, j);
    }
  }

  lemma {:induction false} OfferBegins(s: State, l: Label, j: JobId)
    requires Inv(s) && Enabled(s, l) && Offers(l, j)
    ensures Offered(Apply(s, l), j)
  {
    var ob :| InvWith(s, ob);
    assert j in s.pending ==> j in s.submitted;
  }

  lemma {:induction false} StaysOffered(s: State, labels: seq<Label>, j: JobId)
    requires Inv(s) && CanRun(s, labels)
    requires Offered(s, j) || exists l :: l in labels && Offers(l, j)
    ensures Offered(RunOf(s, labels), j)
    decreases |labels|
  {
    if labels != [] {
      KeepsInv(s, labels[0]);
      if Offered(s, j) {
        NamesHold(s);
        KeepsOffered(s, labels[0], j);
      } else if Offers(labels[0], j) {
        OfferBegins(s, labels[0], j);
      } else {
        var l :| l in labels && Offers(l, j);
        assert labels == [labels[0]] + labels[1..];
      }
      StaysOffered(Apply(s, labels[0]), labels[1..], j);
    }
  }

  /** A job for which the ForceRunImmediately form was called never waits: it is not in the pending
      queue at any time, and once its call is over it was called by it, or refused for good. */
  lemma {:induction false} OfferedJobsNeverWait(workers: nat, labels: seq<Label>, j: JobId)
    requires workers > 0 && CanRun(Init(workers), labels)
    requires exists l :: l in labels && Offers(l, j)
    ensures var s := RunOf(Init(workers), labels);
      && j !in s.pending
      && (Add(j) !in s.calls ==> (j in s.submitted <==> j in s.started))
  {
    var s := RunOf(Init(workers), labels);
    InitHolds(workers);
    StaysOffered(Init(workers), labels, j);
    assert Reachable(workers, s);
    FirstInFirstOut(workers, s);
  }

  // A call of the forms that try to run at once, with nothing else happening meanwhile.
  function TryAlone(j: JobId, plain: bool, fallback: bool, steps: nat): seq<Label>
  {
    [BeginTry(j, plain, fallback)] + seq(steps, _ => Advance(Add(j)))
  }

  /** Trying on an idle strand runs the job in the calling thread. */
  lemma {:induction false} TryRunsWhenIdle(s: State, j: JobId, plain: bool, fallback: bool)
    requires j !in s.known && s.lock.None? && !s.flag && s.pending == []
    ensures CanRun(s, TryAlone(j, plain, fallback, 4))
    ensures var t := RunOf(s, TryAlone(j, plain, fallback, 4));
      && Add(j) !in t.calls && j in t.bodies && t.flag && t.lock.None?
      && t.started == s.started + [j] && t.submitted == s.submitted + [j]
  {
    var l, a := BeginTry(j, plain, fallback), Advance(Add(j));
    RunHead(s, l, seq(4, _ => a));
    var s1 := Apply(s, l);
    RunSame(s1, a, 4);
    var s2 := Apply(s1, a);
    RunSame(s2, a, 3);
    var s3 := Apply(s2, a);
    RunSame(s3, a, 2);
    RunSame(Apply(s3, a), a, 1);
  }

  /** On a strand that is locked, or has a job in the runner, or one waiting, it does not: the job is
      refused, or goes on to be enqueued. */
  lemma {:induction false} TryGivesUpWhenBusy(s: State, j: JobId, plain: bool, fallback: bool)
    requires j !in s.known && (s.lock.Some? || s.flag || s.pending != [])
    ensures var n := if s.lock.Some? then 1 else 2;
      && CanRun(s, TryAlone(j, plain, fallback, n))
      && var t := RunOf(s, TryAlone(j, plain, fallback, n));
         && (if fallback then Add(j) in t.calls && t.calls[Add(j)].Enqueue? else Add(j) !in t.calls)
         && t.started == s.started && t.submitted == s.submitted && t.pending == s.pending
         && t.lock == s.lock && t.flag == s.flag
  {
    var l, a, n := BeginTry(j, plain, fallback), Advance(Add(j)), if s.lock.Some? then 1 else 2;
    RunHead(s, l, seq(n, _ => a));
    var s1 := Apply(s, l);
    RunSame(s1, a, n);
    if s.lock.None? { RunSame(Apply(s1, a), a, 1); }
  }

  lemma {:induction false} RunHead(s: State, l: Label, rest: seq<Label>)
    requires Enabled(s, l)
    ensures CanRun(s, [l] + rest) <==> CanRun(Apply(s, l), rest)
    ensures CanRun(s, [l] + rest) ==> RunOf(s, [l] + rest) == RunOf(Apply(s, l), rest)
  {
    assert ([l] + rest)[1..] == rest;
  }

  lemma {:induction false} RunSame(s: State, l: Label, n: nat)
    requires n > 0 && Enabled(s, l)
    ensures CanRun(s, seq(n, _ => l)) <==> CanRun(Apply(s, l), seq(n - 1, _ => l))
    ensures CanRun(s, seq(n, _ => l)) ==> RunOf(s, seq(n, _ => l)) == RunOf(Apply(s, l), seq(n - 1, _ => l))
  {
    assert seq(n, _ => l)[1..] == seq(n - 1, _ => l);
  }

  // ---------------------------------------------------------------- nothing else is accepted

  lemma {:induction false} KnownWereBrought(s: State, labels: seq<Label>, j: JobId)
    requires CanRun(s, labels) && j in RunOf(s, labels).known && j !in s.known
    ensures exists l :: l in labels && (Brings(l, j) || Offers(l, j))
    decreases |labels|
  {
    var next := Apply(s, labels[0]);
    if j in next.known {
      KnownGrows(s, labels[0], j);
      assert labels[0] in labels;
    } else {
      KnownWereBrought(next, labels[1..], j);
      assert labels == [labels[0]] + labels[1..];
    }
  }

  lemma {:induction false} KnownGrows(s: State, l: Label, j: JobId)
    requires Enabled(s, l) && j in Apply(s, l).known && j !in s.known
    ensures Brings(l, j) || Offers(l, j)
  {
    match l
    case Advance(c) => StepKnows(s, c);
    case BeginAdd(_, _) =>
    case BeginTry(_, _, _) =>
    case BeginForeign(_) =>
    case PushTo(_, _) =>
    case Take(_) =>
    case CopyToken(_) =>
    case MoveToken(_) =>
    case DropToken(_) =>
    case EndBody(_) =>
  }

  /** And the strand accepts nothing that was not brought or offered. */
  lemma {:induction false} AcceptedWereBrought(workers: nat, labels: seq<Label>, j: JobId)
    requires workers > 0 && CanRun(Init(workers), labels) && j in RunOf(Init(workers), labels).submitted
    ensures exists l :: l in labels && (Brings(l, j) || Offers(l, j))
  {
    InitHolds(workers);
    RunsKeepInv(Init(workers), labels);
    KnownWereBrought(Init(workers), labels, j);
  }

  // ---------------------------------------------------------------- jobs whose function takes no token

  predicate BeginsPlain(l: Label, j: JobId)
  {
    (l.BeginAdd? || l.BeginTry?) && l.job == j && l.plain
  }

  lemma {:induction false} PlainStays(s: State, l: Label)
    requires Enabled(s, l)
    ensures forall j :: j in Apply(s, l).plain <==> j in s.plain || BeginsPlain(l, j)
  {
    match l
    case Advance(c) => if s.calls[c].RunNow? {} else { StepLeavesBodies(s, c); }
    case BeginAdd(_, _) =>
    case BeginTry(_, _, _) =>
    case BeginForeign(_) =>
    case PushTo(_, _) =>
    case Take(_) =>
    case CopyToken(_) =>
    case MoveToken(_) =>
    case DropToken(_) =>
    case EndBody(_) =>
  }

  lemma {:induction false} PlainOfRun(s: State, labels: seq<Label>)
    requires CanRun(s, labels)
    ensures forall j :: j in RunOf(s, labels).plain <==> j in s.plain || exists l :: l in labels && BeginsPlain(l, j)
    decreases |labels|
  {
    if labels != [] {
      PlainStays(s, labels[0]);
      PlainOfRun(Apply(s, labels[0]), labels[1..]);
      assert labels == [labels[0]] + labels[1..];
    }
  }

  /** Of the jobs brought as plain functions, no two execute at the same time. */
  lemma {:induction false} PlainJobsExclude(workers: nat, labels: seq<Label>, i: JobId, j: JobId)
    requires workers > 0 && CanRun(Init(workers), labels)
    requires exists l :: l in labels && BeginsPlain(l, i)
    requires exists l :: l in labels && BeginsPlain(l, j)
    ensures var s := RunOf(Init(workers), labels); i in s.bodies && j in s.bodies ==> i == j
  {
    var s := RunOf(Init(workers), labels);
    assert Reachable(workers, s);
    PlainOfRun(Init(workers), labels);
    if i in s.bodies && j in s.bodies { PlainBodiesAlone(workers, s, i, j); }
  }

  // ---------------------------------------------------------------- references to a token

  // The references the users hold of a job's token after these actions.
  function CopiesHeld(labels: seq<Label>, j: JobId): int
    decreases |labels|
  {
    if labels == [] then 0
    else CopiesHeld(labels[..|labels| - 1], j) + CopiesGained(labels[|labels| - 1], j)
  }

  function CopiesGained(l: Label, j: JobId): int
  {
    if l == CopyToken(j) || l == MoveToken(j) then 1 else if l == DropToken(j) then -1 else 0
  }

  // The job object has given its own reference away, or is gone with the end of the call.
  predicate Released(labels: seq<Label>, j: JobId)
  {
    MoveToken(j) in labels || EndBody(j) in labels
  }

  ghost predicate Referenced(s: State, labels: seq<Label>, j: JobId)
  {
    if j in s.tokens then
      j in s.started && s.tokens[j].copies == CopiesHeld(labels, j) && (s.tokens[j].held <==> !Released(labels, j))
    else
      CopiesHeld(labels, j) == 0 && (j in s.started <==> Released(labels, j))
  }

  lemma {:induction false} MoreLabels(labels: seq<Label>, l: Label, j: JobId)
    ensures CopiesHeld(labels + [l], j) == CopiesHeld(labels, j) + CopiesGained(l, j)
    ensures Released(labels + [l], j) <==> Released(labels, j) || l == MoveToken(j) || l == EndBody(j)
  {
    assert (labels + [l])[..|labels|] == labels;
  }

  lemma {:induction false} StepKeepsReferences(s: State, labels: seq<Label>, l: Label, j: JobId)
    requires Bodies(s) && Enabled(s, l) && Referenced(s, labels, j)
    requires Started(s, l).Some? ==> Started(s, l).value !in s.started && Started(s, l).value !in s.tokens
    ensures Referenced(Apply(s, l), labels + [l], j)
  {
    MoreLabels(labels, l, j);
    if l.CopyToken? || l.MoveToken? || l.DropToken? || l.EndBody? {
      TokenStepCounts(s, l, j);
    } else {
      OtherStepCounts(s, l);
    }
  }

  // What a step does to the token of job j.
  lemma {:induction false} TokenStepCounts(s: State, l: Label, j: JobId)
    requires Bodies(s) && Enabled(s, l) && (l.CopyToken? || l.MoveToken? || l.DropToken? || l.EndBody?)
    ensures var s' := Apply(s, l);
      var held := j in s.tokens && s.tokens[j].held && l != MoveToken(j) && l != EndBody(j);
      var copies := (if j in s.tokens then s.tokens[j].copies else 0) + CopiesGained(l, j);
      && s'.started == s.started
      && (if j in s'.tokens then s'.tokens[j] == Token(held, copies) else !held && copies == 0)
      && (j in s'.tokens ==> j in s.tokens)
      && (l == MoveToken(j) || l == EndBody(j) ==> j in s.started || j in s.tokens)
  {
    match l
    case CopyToken(_) =>
    case MoveToken(_) =>
    case DropToken(_) =>
    case EndBody(_) =>
  }

  lemma {:induction false} OtherStepCounts(s: State, l: Label)
    requires Enabled(s, l) && !l.CopyToken? && !l.MoveToken? && !l.DropToken? && !l.EndBody?
    ensures var s' := Apply(s, l);
      && s'.tokens == (if Started(s, l).Some? then s.tokens[Started(s, l).value := Token(true, 0)] else s.tokens)
      && s'.started == s.started + if Started(s, l).Some? then [Started(s, l).value] else []
  {
    Empty(s.started);
    match l
    case Advance(c) => AdvanceTokens(s, c);
    case BeginAdd(_, _) =>
    case BeginTry(_, _, _) =>
    case BeginForeign(_) =>
    case PushTo(_, _) =>
    case Take(_) =>
  }

  lemma {:induction false} AdvanceTokens(s: State, c: Call)
    requires Enabled(s, Advance(c))
    ensures var s' := Step(s, c);
      && s'.tokens == (if s.calls[c].RunNow? then s.tokens[c.job := Token(true, 0)] else s.tokens)
      && s'.started == s.started + if s.calls[c].RunNow? then [c.job] else []
  {
    if s.calls[c].RunNow? {
    } else {
      StepLeavesBodies(s, c);
      Empty(s.started);
    }
  }

  /** A token is alive exactly while somebody has a reference to it: the job object, until it gives it
      away or its call ends, or a user, who has as many as were copied and moved and not yet dropped. So
      a job is called only when nobody holds a reference to the token of an earlier one. */
  lemma {:induction false} TokensAreReferences(workers: nat, labels: seq<Label>, j: JobId)
    requires workers > 0 && CanRun(Init(workers), labels)
    ensures Referenced(RunOf(Init(workers), labels), labels, j)
    decreases |labels|
  {
    if labels != [] {
      var init, last := labels[..|labels| - 1], labels[|labels| - 1];
      RunSplits(Init(workers), labels, |labels| - 1);
      TokensAreReferences(workers, init, j);
      ReferencesFollow(workers, init, last, j);
      assert labels == init + [last];
    }
  }

  lemma {:induction false} ReferencesFollow(workers: nat, labels: seq<Label>, l: Label, j: JobId)
    requires workers > 0 && CanRun(Init(workers), labels) && Enabled(RunOf(Init(workers), labels), l)
    requires Referenced(RunOf(Init(workers), labels), labels, j)
    ensures CanRun(Init(workers), labels + [l]) && Referenced(RunOf(Init(workers), labels + [l]), labels + [l], j)
  {
    var s := RunOf(Init(workers), labels);
    assert Reachable(workers, s);
    NoneStartsTwice(workers, s, l);
    StepKeepsReferences(s, labels, l, j);
    RunExtends(Init(workers), labels, l);
  }

  lemma {:induction false} NoneStartsTwice(workers: nat, s: State, l: Label)
    requires workers > 0 && Reachable(workers, s) && Enabled(s, l)
    ensures Bodies(s)
    ensures Started(s, l).Some? ==> Started(s, l).value !in s.started && Started(s, l).value !in s.tokens
  {
    ReachableInv(workers, s);
    if Started(s, l).Some? { StartsAlone(workers, s, l); }
  }

  lemma {:induction false} RunSplits(s: State, labels: seq<Label>, n: nat)
    requires CanRun(s, labels) && n < |labels|
    ensures CanRun(s, labels[..n]) && Enabled(RunOf(s, labels[..n]), labels[n])
    decreases |labels|
  {
    if n > 0 {
      RunSplits(Apply(s, labels[0]), labels[1..], n - 1);
      assert labels[..n][1..] == labels[1..][..n - 1];
    }
  }

  // ---------------------------------------------------------------- the workers' queues

  // What the actions put into a worker's queue less what they took out.
  function QueueBalance(labels: seq<Label>, w: nat): int
  {
    if labels == [] then 0 else QueueBalance(labels[..|labels| - 1], w) + QueueChange(labels[|labels| - 1], w)
  }

  function QueueChange(l: Label, w: nat): int
  {
    if (l.BeginForeign? || l.PushTo?) && l.worker == w then 1 else if l == Take(w) then -1 else 0
  }

  lemma {:induction false} StepChangesQueue(s: State, l: Label, w: nat)
    requires Enabled(s, l) && w < |s.queues|
    ensures |Apply(s, l).queues| == |s.queues| && |Apply(s, l).queues[w]| == |s.queues[w]| + QueueChange(l, w)
  {
    match l
    case Advance(c) => if s.calls[c].RunNow? {} else { StepRest(s, c); }
    case BeginAdd(_, _) =>
    case BeginTry(_, _, _) =>
    case BeginForeign(_) =>
    case PushTo(_, _) =>
    case Take(_) =>
    case CopyToken(_) =>
    case MoveToken(_) =>
    case DropToken(_) =>
    case EndBody(_) =>
  }

  /** What the runner is given, by the strand or by others, stays in a worker's queue until it is taken. */
  lemma {:induction false} QueuesHoldWhatIsGiven(workers: nat, labels: seq<Label>, w: nat)
    requires CanRun(Init(workers), labels) && w < workers
    ensures var s := RunOf(Init(workers), labels);
      |s.queues| == workers && |s.queues[w]| == QueueBalance(labels, w)
    decreases |labels|
  {
    if labels != [] {
      var init, last := labels[..|labels| - 1], labels[|labels| - 1];
      RunSplits(Init(workers), labels, |labels| - 1);
      QueuesHoldWhatIsGiven(workers, init, w);
      RunExtends(Init(workers), init, last);
      StepChangesQueue(RunOf(Init(workers), init), last, w);
      assert labels == init + [last];
    }
  }

  // ---------------------------------------------------------------- the way of a job

  // AddJob while nothing else happens, up to the push to the worker's queue.
  function AddAlone(j: JobId, plain: bool, worker: nat): seq<Label>
  {
    [BeginAdd(j, plain)] + (seq(4, _ => Advance(Add(j))) + [PushTo(Add(j), worker)])
  }

  /** On an idle strand AddJob hands the job to the runner. */
  lemma {:induction false} AddHandsToRunner(s: State, j: JobId, plain: bool, w: nat)
    requires j !in s.known && s.lock.None? && !s.flag && s.pending == [] && w < |s.queues|
    ensures CanRun(s, AddAlone(j, plain, w))
    ensures var t := RunOf(s, AddAlone(j, plain, w));
      && t.queues == s.queues[w := s.queues[w] + [Job(j)]] && t.submitted == s.submitted + [j]
      && t.flag && t.lock.None? && t.pending == [] && Add(j) !in t.calls
  {
    var l, a, p := BeginAdd(j, plain), Advance(Add(j)), PushTo(Add(j), w);
    RunHead(s, l, seq(4, _ => a) + [p]);
    var s1 := Apply(s, l);
    RunMore(s1, a, 4, [p]);
    DecidesAndPushes(Apply(s1, a), j, w);
  }

  // The rest of the call once the job is in the pending queue.
  lemma {:induction false} DecidesAndPushes(s: State, j: JobId, w: nat)
    requires Add(j) in s.calls && s.calls[Add(j)].WantLock? && s.lock.None? && !s.flag && s.pending == [j]
    requires w < |s.queues|
    ensures CanRun(s, seq(3, _ => Advance(Add(j))) + [PushTo(Add(j), w)])
    ensures RunOf(s, seq(3, _ => Advance(Add(j))) + [PushTo(Add(j), w)])
            == s.(queues := s.queues[w := s.queues[w] + [Job(j)]], pending := [], flag := true,
                  calls := s.calls - {Add(j)})
  {
    var a, p := Advance(Add(j)), PushTo(Add(j), w);
    RunMore(s, a, 3, [p]);
    var s1 := Apply(s, a);
    RunMore(s1, a, 2, [p]);
    var s2 := Apply(s1, a);
    RunMore(s2, a, 1, [p]);
    RunLast(Apply(s2, a), p);
    assert s.calls[Add(j) := Decide][Add(j) := Took(j)][Add(j) := Push(j)] - {Add(j)} == s.calls - {Add(j)};
  }

  lemma {:induction false} RunMore(s: State, l: Label, n: nat, rest: seq<Label>)
    requires n > 0 && Enabled(s, l)
    ensures CanRun(s, seq(n, _ => l) + rest) <==> CanRun(Apply(s, l), seq(n - 1, _ => l) + rest)
    ensures CanRun(s, seq(n, _ => l) + rest) ==>
              RunOf(s, seq(n, _ => l) + rest) == RunOf(Apply(s, l), seq(n - 1, _ => l) + rest)
  {
    assert (seq(n, _ => l) + rest)[1..] == seq(n - 1, _ => l) + rest;
  }

  lemma {:induction false} RunLast(s: State, l: Label)
    requires Enabled(s, l)
    ensures CanRun(s, seq(0, _ => l) + [l]) && RunOf(s, seq(0, _ => l) + [l]) == Apply(s, l)
  {
    assert seq(0, _ => l) + [l] == [l] && [l][1..] == [];
  }

  /** And a worker that takes it calls it, and finishes it with its function's end if nobody keeps its
      token. */
  lemma {:induction false} TakenJobRuns(s: State, j: JobId, w: nat)
    requires w < |s.queues| && s.queues[w] != [] && s.queues[w][0] == Job(j)
    ensures CanRun(s, [Take(w)]) && j in RunOf(s, [Take(w)]).bodies
    ensures CanRun(s, [Take(w), EndBody(j)])
    ensures var t := RunOf(s, [Take(w), EndBody(j)]);
      t.started == s.started + [j] && t.finished == s.finished + [j] && j !in t.bodies && j !in t.tokens
  {
    RunHead(s, Take(w), []);
    RunHead(s, Take(w), [EndBody(j)]);
    RunHead(Apply(s, Take(w)), EndBody(j), []);
    assert [Take(w)] + [EndBody(j)] == [Take(w), EndBody(j)] && [EndBody(j)] + [] == [EndBody(j)];
    assert [Take(w)] + [] == [Take(w)];
  }
}
