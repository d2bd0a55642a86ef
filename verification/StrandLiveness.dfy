/** The strand protocol cannot stall: once nobody submits, every run is finite and drains it. */
module StrandLiveness {
  import opened Totals
  import opened Strand
  import opened StrandSafety
  import opened StrandTheorems

  // What the users of the strand decide: to submit, to copy a token, to load the runner.
  predicate Environment(l: Label)
  {
    l.BeginAdd? || l.BeginTry? || l.BeginForeign? || l.CopyToken?
  }

  function Rank(pc: Pc): nat
  {
    match pc
    case TryLock(_) => 15
    case TryTest(_) => 14
    case Enqueue => 13
    case TryWon => 10
    case Took(_) => 10
    case RunNow => 9
    case Push(_) => 9
    case WantLock => 3
    case Decide => 2
    case TookNone => 1
  }

  function TokenWeight(t: Token): nat
  {
    4 + t.copies + if t.held then 2 else 0
  }

  function Queued(queues: seq<seq<Item>>): nat
  {
    if queues == [] then 0 else |queues[0]| + Queued(queues[1..])
  }

  /** An upper bound on the number of actions left. */
  ghost function Work(s: State): nat
  {
    Total(s.calls, Rank) + 9 * |s.pending| + 8 * Queued(s.queues) + Total(s.tokens, TokenWeight) + |s.bodies|
  }

  lemma {:induction false} QueuedUpdate(queues: seq<seq<Item>>, w: nat, q: seq<Item>)
    requires w < |queues|
    ensures Queued(queues[w := q]) + |queues[w]| == Queued(queues) + |q|
  {
    if w == 0 {
      assert queues[w := q][1..] == queues[1..];
    } else {
      QueuedUpdate(queues[1..], w - 1, q);
      assert queues[w := q][1..] == queues[1..][w - 1 := q];
    }
  }

  function RankAt(calls: map<Call, Pc>, c: Call): nat
  {
    if c in calls then Rank(calls[c]) else 0
  }

  lemma {:induction false} StepMovesOneCall(s: State, c: Call)
    requires Enabled(s, Advance(c))
    ensures c in Step(s, c).calls ==> Step(s, c).calls == s.calls[c := Step(s, c).calls[c]]
    ensures c !in Step(s, c).calls ==> Step(s, c).calls == s.calls - {c}
  {
    match s.calls[c]
    case TryLock(_) =>
    case TryTest(_) =>
    case TryWon =>
    case RunNow =>
    case Enqueue =>
    case WantLock =>
    case Decide =>
    case TookNone =>
    case Took(_) =>
  }

  lemma {:induction false} StepRanks(s: State, c: Call)
    requires Enabled(s, Advance(c))
    ensures Total(Step(s, c).calls, Rank) + Rank(s.calls[c]) == Total(s.calls, Rank) + RankAt(Step(s, c).calls, c)
  {
    StepMovesOneCall(s, c);
    if c in Step(s, c).calls {
      TotalUpdate(s.calls, c, Step(s, c).calls[c], Rank);
    } else {
      TotalSplit(s.calls, c, Rank);
    }
  }

  lemma {:induction false} StepRest(s: State, c: Call)
    requires Enabled(s, Advance(c)) && !s.calls[c].RunNow?
    ensures var s' := Step(s, c);
      && s'.queues == s.queues && s'.tokens == s.tokens && s'.bodies == s.bodies
      && RankAt(s'.calls, c) + 9 * |s'.pending| < Rank(s.calls[c]) + 9 * |s.pending|
  {
    match s.calls[c]
    case TryLock(_) =>
    case TryTest(_) =>
    case TryWon =>
    case Enqueue =>
    case WantLock =>
    case Decide =>
    case TookNone =>
    case Took(_) =>
  }

  // What a job that is called adds to the work is less than what calling it took off.
  lemma {:induction false} StartRest(s: State, j: JobId)
    requires j !in s.tokens
    ensures var s' := StartBody(s, j);
      Total(s'.tokens, TokenWeight) + |s'.bodies|
      <= Total(s.tokens, TokenWeight) + |s.bodies| + TokenWeight(Token(true, 0)) + 1
  {
    TotalInsert(s.tokens, j, Token(true, 0), TokenWeight);
    assert |s.bodies + {j}| <= |s.bodies| + 1;
  }

  lemma {:induction false} StepTakesWork(s: State, c: Call)
    requires Enabled(s, Advance(c)) && (s.calls[c].RunNow? ==> c.job !in s.tokens)
    ensures Work(Step(s, c)) < Work(s)
  {
    if s.calls[c].RunNow? {
      StartRest(Return(s, c), c.job);
      TotalSplit(s.calls, c, Rank);
    } else {
      StepRanks(s, c);
      StepRest(s, c);
    }
  }

  lemma {:induction false} TokenTakesWork(s: State, j: JobId, t: Token)
    requires j in s.tokens && Drop(j) !in s.calls
    requires TokenWeight(t) < TokenWeight(s.tokens[j])
    ensures Work(SetToken(s, j, t)) < Work(s)
  {
    TotalUpdate(s.tokens, j, t, TokenWeight);
    TotalSplit(s.tokens, j, TokenWeight);
    TotalInsert(s.calls, Drop(j), WantLock, Rank);
  }

  lemma {:induction false} TakeTakesWork(s: State, w: nat)
    requires Enabled(s, Take(w)) && (s.queues[w][0].Job? ==> s.queues[w][0].job !in s.tokens)
    ensures Work(Apply(s, Take(w))) < Work(s)
  {
    QueuedUpdate(s.queues, w, s.queues[w][1..]);
    if s.queues[w][0].Job? {
      StartRest(s.(queues := s.queues[w := s.queues[w][1..]]), s.queues[w][0].job);
    }
  }

  lemma {:induction false} PushTakesWork(s: State, c: Call, w: nat)
    requires Enabled(s, PushTo(c, w))
    ensures Work(Apply(s, PushTo(c, w))) < Work(s)
  {
    QueuedUpdate(s.queues, w, s.queues[w] + [Job(s.calls[c].next)]);
    TotalSplit(s.calls, c, Rank);
  }

  lemma {:induction false} EndTakesWork(s: State, j: JobId)
    requires Enabled(s, EndBody(j)) && (j in s.tokens ==> Drop(j) !in s.calls)
    requires j in s.tokens ==> s.tokens[j].held || s.tokens[j].copies > 0
    ensures Work(Apply(s, EndBody(j))) < Work(s)
  {
    var rest := s.(bodies := s.bodies - {j});
    assert |rest.bodies| == |s.bodies| - 1;
    if j in s.tokens {
      var t := s.tokens[j].(held := false);
      if t == s.tokens[j] {
        assert s.tokens[j := t] == s.tokens;
      } else {
        TokenTakesWork(rest, j, t);
      }
    }
  }

  lemma {:induction false} ActionTakesWork(s: State, l: Label, ob: Option<Baton>)
    requires OneBaton(s, ob) && Enabled(s, l) && !Environment(l)
    requires forall j :: j in s.tokens ==> s.tokens[j].held || s.tokens[j].copies > 0
    requires Started(s, l).Some? ==> Started(s, l).value !in s.tokens
    ensures Work(Apply(s, l)) < Work(s)
  {
    match l
    case Advance(c) => StepTakesWork(s, c);
    case PushTo(c, w) => PushTakesWork(s, c, w);
    case Take(w) => TakeTakesWork(s, w);
    case MoveToken(j) =>
      NoDropYet(s, ob, j);
      TokenTakesWork(s, j, Token(false, s.tokens[j].copies + 1));
    case DropToken(j) =>
      NoDropYet(s, ob, j);
      TokenTakesWork(s, j, s.tokens[j].(copies := s.tokens[j].copies - 1));
    case EndBody(j) =>
      if j in s.tokens { NoDropYet(s, ob, j); }
      EndTakesWork(s, j);
  }

  /** Every action that is not the users' choice uses up some of the remaining work. */
  lemma {:induction false} ActionsTakeWork(workers: nat, s: State, l: Label)
    requires workers > 0 && Reachable(workers, s) && Enabled(s, l) && !Environment(l)
    ensures Work(Apply(s, l)) < Work(s)
  {
    ReachableInv(workers, s);
    var ob :| InvWith(s, ob);
    if Started(s, l).Some? { StartsAlone(workers, s, l); }
    ActionTakesWork(s, l, ob);
  }

  /** Without new submissions no run is longer than the work at its start. */
  lemma {:induction false} RunsAreShort(workers: nat, s: State, labels: seq<Label>)
    requires workers > 0 && Reachable(workers, s) && CanRun(s, labels)
    requires forall l :: l in labels ==> !Environment(l)
    ensures |labels| + Work(RunOf(s, labels)) <= Work(s)
    decreases |labels|
  {
    if labels != [] {
      ActionsTakeWork(workers, s, labels[0]);
      ReachesOn(workers, s, labels[0]);
      RunsAreShort(workers, Apply(s, labels[0]), labels[1..]);
    }
  }

  ghost predicate Stuck(s: State)
  {
    forall l :: Enabled(s, l) ==> Environment(l)
  }

  // Some call can move whenever there is one: the lock's owner, or any call if the lock is free.
  lemma {:induction false} CallMoves(s: State, c: Call) returns (l: Label)
    requires Inv(s) && c in s.calls
    ensures Enabled(s, l) && !Environment(l)
  {
    if s.lock.Some? {
      l := Advance(s.lock.value);
    } else if s.calls[c].Push? {
      l := PushTo(c, 0);
    } else {
      l := Advance(c);
    }
  }

  lemma {:induction false} StuckIsIdle(s: State)
    requires Inv(s) && Stuck(s)
    ensures s.calls == map[] && s.tokens == map[] && s.bodies == {}
    ensures forall w :: 0 <= w < |s.queues| ==> s.queues[w] == []
  {
    forall w | 0 <= w < |s.queues| ensures s.queues[w] == [] {
      assert Enabled(s, Take(w)) <==> s.queues[w] != [];
    }
    forall j | j in s.bodies ensures false {
      assert Enabled(s, EndBody(j));
    }
    forall j | j in s.tokens ensures false {
      assert Enabled(s, DropToken(j));
    }
    forall c | c in s.calls ensures false {
      var l := CallMoves(s, c);
    }
  }

  /** A run can only end with every accepted job finished, the pending queue empty and
      has_ready_job_ false: no job is left behind and no wake-up is lost. */
  lemma {:induction false} StuckIsDrained(workers: nat, s: State)
    requires workers > 0 && Reachable(workers, s) && Stuck(s)
    ensures s.pending == [] && !s.flag && s.calls == map[]
    ensures s.finished == s.started == s.submitted
  {
    ReachableInv(workers, s);
    StuckIsIdle(s);
    var ob :| InvWith(s, ob);
    forall b ensures !IsBaton(s, b) {
    }
    assert s.pending != [] ==> exists c :: Deciding(s, c);
  }

  /** Such an end is always reached: from any state some run without new submissions drains it. */
  lemma {:induction false} CanDrain(workers: nat, s: State) returns (labels: seq<Label>)
    requires workers > 0 && Reachable(workers, s)
    ensures CanRun(s, labels) && (forall l :: l in labels ==> !Environment(l))
    ensures Stuck(RunOf(s, labels))
    decreases Work(s)
  {
    if Stuck(s) {
      labels := [];
    } else {
      var l :| Enabled(s, l) && !Environment(l);
      ActionsTakeWork(workers, s, l);
      ReachesOn(workers, s, l);
      var rest := CanDrain(workers, Apply(s, l));
      labels := [l] + rest;
      assert labels[1..] == rest;
    }
  }
}
