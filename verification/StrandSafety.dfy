/** Every action of the strand protocol keeps the invariant. */
module StrandSafety {
  import opened Totals
  import opened Strand

  lemma {:induction false} InitHolds(workers: nat)
    requires workers > 0
    ensures InvWith(Init(workers), None)
  {
  }

  // A job whose token is alive has no token destructor at work.
  lemma {:induction false} NoDropYet(s: State, ob: Option<Baton>, j: JobId)
    requires OneBaton(s, ob) && j in s.tokens
    ensures Drop(j) !in s.calls
  {
    assert IsBaton(s, Alive(j)) && !IsBaton(s, AtCall(Drop(j)));
  }

  // Where the baton is after the action, given where it was.
  function Moved(s: State, l: Label, ob: Option<Baton>): Option<Baton>
    requires Enabled(s, l)
  {
    match l
    case PushTo(c, w) => Some(InQueue(w, |s.queues[w]|))
    case Take(w) =>
      if s.queues[w][0].Job? then Some(Alive(s.queues[w][0].job))
      else if ob.Some? && ob.value.InQueue? && ob.value.worker == w && ob.value.index > 0
      then Some(InQueue(w, ob.value.index - 1))
      else ob
    case Advance(c) =>
      (match s.calls[c]
       case TryTest(_) => if s.flag || s.pending != [] then ob else Some(AtCall(c))
       case RunNow => Some(Alive(c.job))
       case Decide => if (c.Add? && s.flag) || s.pending == [] then ob else Some(AtCall(c))
       case TookNone => None
       case _ => ob)
    case DropToken(j) => if j in Apply(s, l).tokens then ob else Some(AtCall(Drop(j)))
    case EndBody(j) => if j !in s.tokens || j in Apply(s, l).tokens then ob else Some(AtCall(Drop(j)))
    case _ => ob
  }

  // A step of call `c` touches no baton but its own and the token of the job it starts.
  lemma {:induction false} StepFrame(s: State, c: Call, b: Baton)
    requires Enabled(s, Advance(c)) && b != AtCall(c)
    requires s.calls[c].RunNow? ==> b != Alive(c.job)
    ensures IsBaton(Step(s, c), b) <==> IsBaton(s, b)
  {
    match s.calls[c]
    case TryLock(_) =>
    case TryTest(_) =>
    case TryWon =>
    case RunNow =>
    case Enqueue =>
    case WantLock =>
    case Decide =>
    case TookNone =>
    case Took(_) =>
  }

  lemma {:induction false} StepBusy(s: State, c: Call, ob: Option<Baton>)
    requires Locking(s) && Enabled(s, Advance(c))
    requires OneBaton(s, ob)
    ensures Moved(s, Advance(c), ob).Some? <==> Busy(Step(s, c))
  {
    assert IsBaton(s, AtCall(c)) <==> ob == Some(AtCall(c));
    assert OwnsLock(s.calls[c]) ==> s.lock == Some(c);
    match s.calls[c]
    case TryLock(_) =>
    case TryTest(_) =>
    case TryWon =>
    case RunNow =>
    case Enqueue =>
    case WantLock =>
    case Decide =>
    case TookNone =>
    case Took(_) =>
  }

  lemma {:induction false} BatonMovesInStep(s: State, c: Call, ob: Option<Baton>)
    requires OneBaton(s, ob) && Locking(s) && Enabled(s, Advance(c))
    ensures OneBaton(Step(s, c), Moved(s, Advance(c), ob))
  {
    var s', ob' := Step(s, c), Moved(s, Advance(c), ob);
    StepBusy(s, c, ob);
    assert IsBaton(s, AtCall(c)) <==> ob == Some(AtCall(c));
    forall b ensures IsBaton(s', b) <==> ob' == Some(b) {
      assert IsBaton(s, b) <==> ob == Some(b);
      if b != AtCall(c) && (s.calls[c].RunNow? ==> b != Alive(c.job)) { StepFrame(s, c, b); }
    }
  }

  lemma {:induction false} BatonMovesInTake(s: State, w: nat, ob: Option<Baton>)
    requires OneBaton(s, ob) && Enabled(s, Take(w))
    ensures OneBaton(Apply(s, Take(w)), Moved(s, Take(w), ob))
  {
    var s', ob' := Apply(s, Take(w)), Moved(s, Take(w), ob);
    assert s.queues[w][0].Job? <==> IsBaton(s, InQueue(w, 0));
    forall b ensures IsBaton(s', b) <==> ob' == Some(b) {
      assert IsBaton(s, b) <==> ob == Some(b);
      if b.InQueue? && b.worker == w {
        assert IsBaton(s, InQueue(w, b.index + 1)) <==> ob == Some(InQueue(w, b.index + 1));
      }
    }
  }

  lemma {:induction false} BatonMovesInPush(s: State, c: Call, w: nat, ob: Option<Baton>)
    requires OneBaton(s, ob) && Locking(s) && Enabled(s, PushTo(c, w))
    ensures OneBaton(Apply(s, PushTo(c, w)), Some(InQueue(w, |s.queues[w]|)))
  {
    var s' := Apply(s, PushTo(c, w));
    assert IsBaton(s, AtCall(c));
    forall b ensures IsBaton(s', b) <==> b == InQueue(w, |s.queues[w]|) {
      assert IsBaton(s, b) <==> ob == Some(b);
    }
  }

  lemma {:induction false} BatonMovesInToken(s: State, j: JobId, t: Token, ob: Option<Baton>)
    requires OneBaton(s, ob) && Locking(s) && j in s.tokens
    ensures var s' := SetToken(s, j, t);
      OneBaton(s', if j in s'.tokens then ob else Some(AtCall(Drop(j))))
  {
    var s' := SetToken(s, j, t);
    assert IsBaton(s, Alive(j)) && !IsBaton(s, AtCall(Drop(j)));
    forall b ensures IsBaton(s', b) <==> (if j in s'.tokens then ob else Some(AtCall(Drop(j)))) == Some(b) {
      assert IsBaton(s, b) <==> ob == Some(b);
    }
  }

  lemma {:induction false} BatonMovesInBegin(s: State, j: JobId, plain: bool, pc: Pc, ob: Option<Baton>)
    requires OneBaton(s, ob) && Add(j) !in s.calls && (pc.Enqueue? || pc.TryLock?)
    requires s.lock.Some? ==> s.lock.value in s.calls
    ensures OneBaton(Begin(s, j, plain, pc), ob)
  {
    forall b ensures IsBaton(Begin(s, j, plain, pc), b) <==> ob == Some(b) {
      assert IsBaton(s, b) <==> ob == Some(b);
    }
  }

  lemma {:induction false} BatonStaysInForeign(s: State, w: nat, ob: Option<Baton>)
    requires OneBaton(s, ob) && Enabled(s, BeginForeign(w))
    ensures OneBaton(Apply(s, BeginForeign(w)), ob)
  {
    forall b ensures IsBaton(Apply(s, BeginForeign(w)), b) <==> ob == Some(b) {
      assert IsBaton(s, b) <==> ob == Some(b);
    }
  }

  lemma {:induction false} BatonMovesInEnd(s: State, j: JobId, ob: Option<Baton>)
    requires OneBaton(s, ob) && Locking(s) && Enabled(s, EndBody(j))
    ensures OneBaton(Apply(s, EndBody(j)), Moved(s, EndBody(j), ob))
  {
    var rest := s.(bodies := s.bodies - {j});
    assert OneBaton(rest, ob) by {
      forall b ensures IsBaton(rest, b) <==> IsBaton(s, b) {}
    }
    if j in s.tokens { BatonMovesInToken(rest, j, s.tokens[j].(held := false), ob); }
  }

  lemma {:induction false} BatonMoves(s: State, l: Label, ob: Option<Baton>)
    requires InvWith(s, ob) && Enabled(s, l)
    ensures OneBaton(Apply(s, l), Moved(s, l, ob))
  {
    match l
    case BeginAdd(j, plain) => BatonMovesInBegin(s, j, plain, Enqueue, ob);
    case BeginTry(j, plain, fallback) => BatonMovesInBegin(s, j, plain, TryLock(fallback), ob);
    case BeginForeign(w) => BatonStaysInForeign(s, w, ob);
    case Advance(c) => BatonMovesInStep(s, c, ob);
    case PushTo(c, w) => BatonMovesInPush(s, c, w, ob);
    case Take(w) => BatonMovesInTake(s, w, ob);
    case CopyToken(j) => BatonMovesInToken(s, j, s.tokens[j].(copies := s.tokens[j].copies + 1), ob);
    case MoveToken(j) => BatonMovesInToken(s, j, Token(false, s.tokens[j].copies + 1), ob);
    case DropToken(j) => BatonMovesInToken(s, j, s.tokens[j].(copies := s.tokens[j].copies - 1), ob);
    case EndBody(j) => BatonMovesInEnd(s, j, ob);
  }

  lemma {:induction false} OthersStayInStep(s: State, c: Call, d: Call)
    requires Enabled(s, Advance(c)) && d != c
    ensures d in Step(s, c).calls <==> d in s.calls
    ensures d in s.calls ==> Step(s, c).calls[d] == s.calls[d]
  {
    match s.calls[c]
    case TryLock(_) =>
    case TryTest(_) =>
    case TryWon =>
    case RunNow =>
    case Enqueue =>
    case WantLock =>
    case Decide =>
    case TookNone =>
    case Took(_) =>
  }

  // The lock is only changed by the call that takes or owns it.
  lemma {:induction false} LockMovesInStep(s: State, c: Call)
    requires Enabled(s, Advance(c)) && (OwnsLock(s.calls[c]) <==> s.lock == Some(c))
    ensures var s' := Step(s, c);
      && (s'.lock == Some(c) || s'.lock == None || s'.lock == s.lock)
      && (s.lock.Some? && s.lock != Some(c) ==> s'.lock == s.lock)
      && (s'.lock == Some(c) <==> c in s'.calls && OwnsLock(s'.calls[c]))
  {
    match s.calls[c]
    case TryLock(_) =>
    case TryTest(_) =>
    case TryWon =>
    case RunNow =>
    case Enqueue =>
    case WantLock =>
    case Decide =>
    case TookNone =>
    case Took(_) =>
  }

  lemma {:induction false} OwnCallInStep(s: State, c: Call)
    requires Locking(s) && Enabled(s, Advance(c)) && c in Step(s, c).calls
    ensures var pc := Step(s, c).calls[c];
      && (c.Drop? ==> pc.WantLock? || pc.Decide? || pc.TookNone? || pc.Took? || pc.Push?)
      && (pc.TookNone? && c.Add? ==> !Step(s, c).flag)
  {
    match s.calls[c]
    case TryLock(_) =>
    case TryTest(_) =>
    case TryWon =>
    case RunNow =>
    case Enqueue =>
    case WantLock =>
    case Decide =>
    case TookNone =>
    case Took(_) =>
  }

  // The flag is only written by the owner of the lock.
  lemma {:induction false} FlagStaysInStep(s: State, c: Call)
    requires Enabled(s, Advance(c)) && Step(s, c).flag != s.flag
    ensures OwnsLock(s.calls[c])
  {
    match s.calls[c]
    case TryLock(_) =>
    case TryTest(_) =>
    case TryWon =>
    case RunNow =>
    case Enqueue =>
    case WantLock =>
    case Decide =>
    case TookNone =>
    case Took(_) =>
  }

  lemma {:induction false} KeepsLockingInStep(s: State, c: Call)
    requires Locking(s) && Enabled(s, Advance(c))
    ensures Locking(Step(s, c))
  {
    forall d | d != c
      ensures d in Step(s, c).calls <==> d in s.calls
      ensures d in s.calls ==> Step(s, c).calls[d] == s.calls[d]
    {
      OthersStayInStep(s, c, d);
    }
    LockMovesInStep(s, c);
    if c in Step(s, c).calls { OwnCallInStep(s, c); }
    if Step(s, c).flag != s.flag { FlagStaysInStep(s, c); }
  }

  lemma {:induction false} KeepsLockingInBegin(s: State, j: JobId, plain: bool, pc: Pc)
    requires Locking(s) && Add(j) !in s.calls && (pc.Enqueue? || pc.TryLock?)
    ensures Locking(Begin(s, j, plain, pc))
  {
  }

  lemma {:induction false} KeepsLockingInToken(s: State, j: JobId, t: Token)
    requires Locking(s) && Drop(j) !in s.calls
    ensures Locking(SetToken(s, j, t))
  {
  }

  lemma {:induction false} KeepsLockingInQueues(s: State, l: Label)
    requires Locking(s) && Enabled(s, l) && (l.BeginForeign? || l.PushTo? || l.Take?)
    ensures Locking(Apply(s, l))
  {
  }

  lemma {:induction false} KeepsLockingInEnd(s: State, j: JobId)
    requires Locking(s) && Enabled(s, EndBody(j)) && (j in s.tokens ==> Drop(j) !in s.calls)
    ensures Locking(Apply(s, EndBody(j)))
  {
    var rest := s.(bodies := s.bodies - {j});
    if j in s.tokens { KeepsLockingInToken(rest, j, s.tokens[j].(held := false)); }
  }

  lemma {:induction false} KeepsLocking(s: State, l: Label, ob: Option<Baton>)
    requires InvWith(s, ob) && Enabled(s, l)
    ensures Locking(Apply(s, l))
  {
    match l
    case BeginAdd(j, plain) => KeepsLockingInBegin(s, j, plain, Enqueue);
    case BeginTry(j, plain, fallback) => KeepsLockingInBegin(s, j, plain, TryLock(fallback));
    case BeginForeign(w) => KeepsLockingInQueues(s, l);
    case Advance(c) => KeepsLockingInStep(s, c);
    case PushTo(c, w) => KeepsLockingInQueues(s, l);
    case Take(w) => KeepsLockingInQueues(s, l);
    case CopyToken(j) =>
      NoDropYet(s, ob, j);
      KeepsLockingInToken(s, j, s.tokens[j].(copies := s.tokens[j].copies + 1));
    case MoveToken(j) =>
      NoDropYet(s, ob, j);
      KeepsLockingInToken(s, j, Token(false, s.tokens[j].copies + 1));
    case DropToken(j) =>
      NoDropYet(s, ob, j);
      KeepsLockingInToken(s, j, s.tokens[j].(copies := s.tokens[j].copies - 1));
    case EndBody(j) =>
      if j in s.tokens { NoDropYet(s, ob, j); }
      KeepsLockingInEnd(s, j);
  }

  lemma {:induction false} KnownJobs(s: State, ob: Option<Baton>)
    requires InvWith(s, ob)
    ensures forall j :: j in s.started ==> j in s.known
    ensures forall j :: j in s.tokens ==> j in s.started
  {
    forall j | j in s.tokens ensures j in s.started {
      assert IsBaton(s, Alive(j));
    }
    forall j | j in s.started ensures j in s.submitted {
      if j !in s.finished { assert j in Active(s, ob); }
    }
  }

  lemma {:induction false} StepKnows(s: State, c: Call)
    requires Enabled(s, Advance(c))
    ensures Step(s, c).known == s.known
  {
    match s.calls[c]
    case TryLock(_) =>
    case TryTest(_) =>
    case TryWon =>
    case RunNow =>
    case Enqueue =>
    case WantLock =>
    case Decide =>
    case TookNone =>
    case Took(_) =>
  }

  lemma {:induction false} KeepsBodiesInStart(s: State, j: JobId)
    requires Bodies(s)
    ensures Bodies(StartBody(s, j))
  {
  }

  lemma {:induction false} KeepsBodiesInToken(s: State, j: JobId, t: Token)
    requires Bodies(s) && j in s.tokens && (t.held ==> s.tokens[j].held)
    requires j !in s.plain
    ensures Bodies(SetToken(s, j, t))
  {
  }

  lemma {:induction false} KeepsBodiesInEnd(s: State, j: JobId)
    requires Bodies(s) && j in s.bodies
    ensures Bodies(Apply(s, EndBody(j)))
  {
  }

  lemma {:induction false} KeepsBodiesInBegin(s: State, j: JobId, plain: bool, pc: Pc)
    requires Bodies(s) && j !in s.known && j !in s.started && j !in s.tokens
    ensures Bodies(Begin(s, j, plain, pc))
  {
  }

  lemma {:induction false} KeepsBodiesInStep(s: State, c: Call)
    requires Bodies(s) && Enabled(s, Advance(c))
    ensures Bodies(Step(s, c))
  {
    if s.calls[c].RunNow? {
      KeepsBodiesInStart(Return(s, c), c.job);
    } else {
      StepLeavesBodies(s, c);
    }
  }

  lemma {:induction false} StepLeavesBodies(s: State, c: Call)
    requires Enabled(s, Advance(c)) && !s.calls[c].RunNow?
    ensures var s' := Step(s, c);
      && s'.tokens == s.tokens && s'.bodies == s.bodies && s'.plain == s.plain
      && s'.known == s.known && s'.started == s.started
  {
  }

  lemma {:induction false} KeepsBodiesInTake(s: State, w: nat)
    requires Bodies(s) && Enabled(s, Take(w))
    ensures Bodies(Apply(s, Take(w)))
  {
    if s.queues[w][0].Job? {
      KeepsBodiesInStart(s.(queues := s.queues[w := s.queues[w][1..]]), s.queues[w][0].job);
    }
  }

  lemma {:induction false} KeepsBodies(s: State, l: Label, ob: Option<Baton>)
    requires InvWith(s, ob) && Enabled(s, l)
    ensures Bodies(Apply(s, l))
  {
    KnownJobs(s, ob);
    match l
    case BeginAdd(j, plain) => KeepsBodiesInBegin(s, j, plain, Enqueue);
    case BeginTry(j, plain, fallback) => KeepsBodiesInBegin(s, j, plain, TryLock(fallback));
    case Advance(c) => KeepsBodiesInStep(s, c);
    case Take(w) => KeepsBodiesInTake(s, w);
    case CopyToken(j) => KeepsBodiesInToken(s, j, s.tokens[j].(copies := s.tokens[j].copies + 1));
    case MoveToken(j) => KeepsBodiesInToken(s, j, Token(false, s.tokens[j].copies + 1));
    case DropToken(j) => KeepsBodiesInToken(s, j, s.tokens[j].(copies := s.tokens[j].copies - 1));
    case EndBody(j) => KeepsBodiesInEnd(s, j);
    case _ =>
  }

  lemma {:induction false} KeepsLivelyInStep(s: State, c: Call)
    requires Locking(s) && Lively(s) && Enabled(s, Advance(c))
    ensures Lively(Step(s, c))
  {
    var s' := Step(s, c);
    assert OwnsLock(s.calls[c]) ==> s.lock == Some(c);
    if s'.pending != [] {
      if d :| Deciding(s, d) && d != c {
        assert Deciding(s', d);
      } else if Deciding(s', c) {
      } else if s.lock == Some(c) {
      } else if s.pending != [] && !(exists d :: Deciding(s, d)) {
        assert Busy(s');
      }
    }
  }

  // Only a call's own step changes where it is.
  lemma {:induction false} OtherCallsStay(s: State, l: Label, ob: Option<Baton>, d: Call)
    requires InvWith(s, ob) && Enabled(s, l) && !l.Advance? && d in s.calls && (l.PushTo? ==> l.call != d)
    ensures d in Apply(s, l).calls && Apply(s, l).calls[d] == s.calls[d]
  {
    match l
    case BeginAdd(j, _) => assert Add(j) !in s.calls;
    case BeginTry(j, _, _) => assert Add(j) !in s.calls;
    case BeginForeign(_) =>
    case PushTo(_, _) =>
    case Take(_) =>
    case CopyToken(j) =>
    case MoveToken(j) =>
    case DropToken(j) => NoDropYet(s, ob, j);
    case EndBody(j) => if j in s.tokens { NoDropYet(s, ob, j); }
  }

  lemma {:induction false} KeepsLively(s: State, l: Label, ob: Option<Baton>)
    requires InvWith(s, ob) && Enabled(s, l)
    ensures Lively(Apply(s, l))
  {
    if l.Advance? {
      KeepsLivelyInStep(s, l.call);
    } else {
      if d :| Deciding(s, d) {
        OtherCallsStay(s, l, ob, d);
        assert Deciding(Apply(s, l), d);
      } else if s.lock.Some? {
        OtherCallsStay(s, l, ob, s.lock.value);
      }
    }
  }

  lemma {:induction false} KeepsNamesInStep(s: State, c: Call)
    requires Names(s) && Enabled(s, Advance(c))
    requires c.Drop? ==> !Unsubmitted(s.calls[c])
    ensures Names(Step(s, c))
  {
    var s' := Step(s, c);
    forall j | Add(j) in s'.calls ensures Add(j) in s.calls {}
    if s'.submitted != s.submitted {
      assert c == Add(c.job) && s'.submitted == s.submitted + [c.job];
    }
    match s.calls[c]
    case TryLock(_) =>
    case TryTest(_) =>
    case TryWon =>
    case RunNow =>
    case Enqueue =>
    case WantLock =>
    case Decide =>
    case TookNone =>
    case Took(_) =>
  }

  lemma {:induction false} KeepsNames(s: State, l: Label)
    requires Names(s) && Locking(s) && Enabled(s, l)
    ensures Names(Apply(s, l))
  {
    match l
    case Advance(c) => KeepsNamesInStep(s, c);
    case _ =>
  }

  // What is known about the baton when call `c` takes its next step.
  ghost predicate Placed(s: State, c: Call, ob: Option<Baton>)
  {
    && Enabled(s, Advance(c))
    && (ob.Some? ==> IsBaton(s, ob.value))
    && (Moved(s, Advance(c), ob).Some? ==> IsBaton(Step(s, c), Moved(s, Advance(c), ob).value))
    && (c.Drop? || Carries(s.calls[c]) ==> ob == Some(AtCall(c)))
    && (s.calls[c].TryTest? || s.calls[c].Decide? || s.calls[c].TookNone? ==> ob.None? || s.flag)
    && (s.calls[c].TookNone? && ob.Some? ==> ob.value == AtCall(c))
    && (Unsubmitted(s.calls[c]) ==> c.Add? && c.job !in s.submitted)
  }

  lemma {:induction false} StepAccepts(s: State, c: Call, ob: Option<Baton>)
    requires Placed(s, c, ob) && Histories(s, ob) && s.calls[c].TryTest?
    ensures Histories(Step(s, c), Moved(s, Advance(c), ob))
  {
    assert s.pending == [] ==> s.submitted + [c.job] == s.finished + Active(s, ob) + [c.job];
  }

  lemma {:induction false} StepEnqueues(s: State, c: Call, ob: Option<Baton>)
    requires Placed(s, c, ob) && Histories(s, ob) && s.calls[c].Enqueue?
    ensures Histories(Step(s, c), Moved(s, Advance(c), ob))
  {
    assert Step(s, c).submitted == s.finished + Active(s, ob) + (s.pending + [c.job]);
  }

  lemma {:induction false} StepConsumes(s: State, c: Call, ob: Option<Baton>)
    requires Placed(s, c, ob) && Histories(s, ob) && s.calls[c].Decide?
    ensures Histories(Step(s, c), Moved(s, Advance(c), ob))
  {
    if (c.Add? && s.flag) || s.pending == [] {
      StepLeavesPending(s, c, ob);
    } else {
      StepTakesPending(s, c, ob);
    }
  }

  lemma {:induction false} StepLeavesPending(s: State, c: Call, ob: Option<Baton>)
    requires Placed(s, c, ob) && Histories(s, ob) && s.calls[c].Decide?
    requires (c.Add? && s.flag) || s.pending == []
    ensures Histories(Step(s, c), Moved(s, Advance(c), ob))
  {
    assert Active(Step(s, c), ob) == Active(s, ob);
  }

  lemma {:induction false} StepTakesPending(s: State, c: Call, ob: Option<Baton>)
    requires Placed(s, c, ob) && Histories(s, ob) && s.calls[c].Decide?
    requires !(c.Add? && s.flag) && s.pending != []
    ensures Histories(Step(s, c), Moved(s, Advance(c), ob))
  {
    assert s.pending == [s.pending[0]] + s.pending[1..];
  }

  lemma {:induction false} StepIsQuiet(s: State, c: Call, ob: Option<Baton>)
    requires Placed(s, c, ob) && Histories(s, ob)
    requires !s.calls[c].TryTest? && !s.calls[c].Enqueue? && !s.calls[c].Decide?
    ensures Histories(Step(s, c), Moved(s, Advance(c), ob))
  {
    assert Active(Step(s, c), Moved(s, Advance(c), ob)) == Active(s, ob);
  }

  lemma {:induction false} KeepsHistoriesInStep(s: State, c: Call, ob: Option<Baton>)
    requires InvWith(s, ob) && Enabled(s, Advance(c))
    requires OneBaton(Step(s, c), Moved(s, Advance(c), ob))
    ensures Histories(Step(s, c), Moved(s, Advance(c), ob))
  {
    assert Placed(s, c, ob) by {
      assert IsBaton(s, AtCall(c)) <==> ob == Some(AtCall(c));
    }
    match s.calls[c]
    case TryTest(_) => StepAccepts(s, c, ob);
    case Enqueue => StepEnqueues(s, c, ob);
    case Decide => StepConsumes(s, c, ob);
    case _ => StepIsQuiet(s, c, ob);
  }

  lemma {:induction false} KeepsHistoriesInToken(s: State, j: JobId, t: Token, ob: Option<Baton>)
    requires ob == Some(Alive(j)) && j in s.tokens && Histories(s, ob)
    ensures Histories(SetToken(s, j, t), if t.held || t.copies > 0 then ob else Some(AtCall(Drop(j))))
  {
  }

  lemma {:induction false} KeepsHistoriesInTake(s: State, w: nat, ob: Option<Baton>)
    requires OneBaton(s, ob) && Histories(s, ob) && Enabled(s, Take(w))
    requires OneBaton(Apply(s, Take(w)), Moved(s, Take(w), ob))
    ensures Histories(Apply(s, Take(w)), Moved(s, Take(w), ob))
  {
    assert s.queues[w][0].Job? <==> IsBaton(s, InQueue(w, 0));
    assert Active(Apply(s, Take(w)), Moved(s, Take(w), ob)) == Active(s, ob);
  }

  // Entering a call, pushing to a worker and ending a function change no history.
  lemma {:induction false} KeepsHistoriesInRest(s: State, l: Label, ob: Option<Baton>)
    requires OneBaton(s, ob) && Histories(s, ob) && Enabled(s, l)
    requires l.BeginAdd? || l.BeginTry? || l.BeginForeign? || l.PushTo?
    requires OneBaton(Apply(s, l), Moved(s, l, ob))
    requires l.BeginAdd? || l.BeginTry? ==> Add(l.job) !in s.calls
    ensures Histories(Apply(s, l), Moved(s, l, ob))
  {
    if l.PushTo? { assert IsBaton(s, AtCall(l.call)); }
    assert Active(Apply(s, l), Moved(s, l, ob)) == Active(s, ob);
  }

  lemma {:induction false} KeepsHistoriesInEnd(s: State, j: JobId, ob: Option<Baton>)
    requires OneBaton(s, ob) && Histories(s, ob) && Enabled(s, EndBody(j))
    requires OneBaton(Apply(s, EndBody(j)), Moved(s, EndBody(j), ob))
    ensures Histories(Apply(s, EndBody(j)), Moved(s, EndBody(j), ob))
  {
    var rest := s.(bodies := s.bodies - {j});
    assert Active(rest, ob) == Active(s, ob);
    if j in s.tokens {
      assert IsBaton(s, Alive(j));
      KeepsHistoriesInToken(rest, j, s.tokens[j].(held := false), ob);
    }
  }

  lemma {:induction false} KeepsHistories(s: State, l: Label, ob: Option<Baton>)
    requires InvWith(s, ob) && Enabled(s, l) && OneBaton(Apply(s, l), Moved(s, l, ob))
    ensures Histories(Apply(s, l), Moved(s, l, ob))
  {
    match l
    case Advance(c) => KeepsHistoriesInStep(s, c, ob);
    case Take(w) => KeepsHistoriesInTake(s, w, ob);
    case CopyToken(j) =>
      assert IsBaton(s, Alive(j));
      KeepsHistoriesInToken(s, j, s.tokens[j].(copies := s.tokens[j].copies + 1), ob);
    case MoveToken(j) =>
      assert IsBaton(s, Alive(j));
      KeepsHistoriesInToken(s, j, Token(false, s.tokens[j].copies + 1), ob);
    case DropToken(j) =>
      assert IsBaton(s, Alive(j));
      KeepsHistoriesInToken(s, j, s.tokens[j].(copies := s.tokens[j].copies - 1), ob);
    case EndBody(j) => KeepsHistoriesInEnd(s, j, ob);
    case BeginAdd(_, _) => KeepsHistoriesInRest(s, l, ob);
    case BeginTry(_, _, _) => KeepsHistoriesInRest(s, l, ob);
    case BeginForeign(_) => KeepsHistoriesInRest(s, l, ob);
    case PushTo(_, _) => KeepsHistoriesInRest(s, l, ob);
  }
}
