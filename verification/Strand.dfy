/** The strand protocol of src/sched/job_runner.cc as a step system.

    One strand and the worker queues of its runner are shared by any number of calls in progress.
    A call is an invocation of one of the strand's AddJob forms, named after the job it brings, or
    the destructor of a job's alive token. Each label below is one atomic action of the source:
    taking the lock, one operation of the pending queue, leaving the critical section, pushing to a
    worker queue, taking a job from one. The pending queue is pushed to without the lock. */
module Strand {
  import opened Totals
  import opened Serial

  type JobId = nat

  // An entry of a worker queue: a job of this strand, or anything else the runner was given.
  datatype Item = Job(job: JobId) | Foreign

  datatype Call = Add(job: JobId) | Drop(job: JobId)

  datatype Pc =
    | TryLock(fallback: bool)  // about to try_lock for running immediately
    | TryTest(fallback: bool)  // owns the lock, about to test the flag and the pending queue
    | TryWon                   // owns the lock, about to raise the flag and unlock
    | RunNow                   // unlocked, about to call the job in this thread
    | Enqueue                  // about to push the job to the pending queue
    | WantLock                 // PushToRunnerIfNeeded, about to lock
    | Decide                   // owns the lock, about to test the flag and consume one
    | TookNone                 // owns the lock, the pending queue was empty
    | Took(next: JobId)        // owns the lock, `next` was consumed
    | Push(next: JobId)        // unlocked, about to push `next` to a worker queue

  // References to a live alive token: the one inside the job object, and the user's copies.
  datatype Token = Token(held: bool, copies: nat)

  datatype State = State(
    flag: bool,                  // has_ready_job_
    lock: Option<Call>,          // hybrid_spin_mtx_
    pending: seq<JobId>,         // pending_jobs_
    queues: seq<seq<Item>>,      // job_queue_ of each worker
    calls: map<Call, Pc>,
    tokens: map<JobId, Token>,   // tokens of started jobs that still have a reference
    bodies: set<JobId>,          // jobs whose function is executing
    plain: set<JobId>,           // jobs whose function does not receive the token
    known: set<JobId>,
    submitted: seq<JobId>,       // history: jobs in the order the strand accepted them
    started: seq<JobId>,         // history: jobs in the order they were called
    finished: seq<JobId>         // history: jobs in the order their tokens died
  )

  datatype Label =
    | BeginAdd(job: JobId, plain: bool)
    | BeginTry(job: JobId, plain: bool, fallback: bool)
    | BeginForeign(worker: nat)
    | Advance(call: Call)
    | PushTo(call: Call, worker: nat)
    | Take(worker: nat)          // a worker's own queue or a stolen one
    | CopyToken(job: JobId)
    | MoveToken(job: JobId)      // the function moves the token out of its job object
    | DropToken(job: JobId)
    | EndBody(job: JobId)

  function Init(workers: nat): State
  {
    State(false, None, [], seq(workers, _ => []), map[], map[], {}, {}, {}, [], [], [])
  }

  // ---------------------------------------------------------------- the atomic actions

  predicate Enabled(s: State, l: Label)
  {
    match l
    case BeginAdd(j, _) => j !in s.known
    case BeginTry(j, _, _) => j !in s.known
    case BeginForeign(w) => w < |s.queues|
    case Advance(c) => c in s.calls && CanAdvance(s, s.calls[c])
    case PushTo(c, w) => c in s.calls && s.calls[c].Push? && w < |s.queues|
    case Take(w) => w < |s.queues| && s.queues[w] != []
    case CopyToken(j) => j in s.tokens && j !in s.plain
    case MoveToken(j) => j in s.tokens && s.tokens[j].held && j !in s.plain
    case DropToken(j) => j in s.tokens && s.tokens[j].copies > 0
    case EndBody(j) => j in s.bodies
  }

  predicate CanAdvance(s: State, pc: Pc)
  {
    match pc
    case WantLock => s.lock.None?   // lock() waits, try_lock() does not
    case Push(_) => false           // needs a worker, see PushTo
    case _ => true
  }

  function Apply(s: State, l: Label): State
    requires Enabled(s, l)
  {
    match l
    case BeginAdd(j, plain) => Begin(s, j, plain, Enqueue)
    case BeginTry(j, plain, fallback) => Begin(s, j, plain, TryLock(fallback))
    case BeginForeign(w) => s.(queues := s.queues[w := s.queues[w] + [Foreign]])
    case Advance(c) => Step(s, c)
    case PushTo(c, w) =>
      s.(queues := s.queues[w := s.queues[w] + [Job(s.calls[c].next)]], calls := s.calls - {c})
    case Take(w) =>
      var rest := s.(queues := s.queues[w := s.queues[w][1..]]);
      if s.queues[w][0].Job? then StartBody(rest, s.queues[w][0].job) else rest
    case CopyToken(j) => SetToken(s, j, s.tokens[j].(copies := s.tokens[j].copies + 1))
    case MoveToken(j) => SetToken(s, j, Token(false, s.tokens[j].copies + 1))
    case DropToken(j) => SetToken(s, j, s.tokens[j].(copies := s.tokens[j].copies - 1))
    case EndBody(j) =>
      var rest := s.(bodies := s.bodies - {j});
      if j in s.tokens then SetToken(rest, j, s.tokens[j].(held := false)) else rest
  }

  function Begin(s: State, j: JobId, plain: bool, pc: Pc): State
  {
    s.(known := s.known + {j}, plain := if plain then s.plain + {j} else s.plain,
       calls := s.calls[Add(j) := pc])
  }

  function Goto(s: State, c: Call, pc: Pc): State
  {
    s.(calls := s.calls[c := pc])
  }

  function Return(s: State, c: Call): State
  {
    s.(calls := s.calls - {c})
  }

  // The next action of a call that is not about to push.
  function Step(s: State, c: Call): State
    requires c in s.calls && CanAdvance(s, s.calls[c])
  {
    match s.calls[c]
    case TryLock(fallback) =>
      if s.lock.Some? then TryFailed(s, c, fallback)
      else Goto(s.(lock := Some(c)), c, TryTest(fallback))
    case TryTest(fallback) =>
      if s.flag || s.pending != [] then TryFailed(s.(lock := None), c, fallback)
      else Goto(s.(submitted := s.submitted + [c.job]), c, TryWon)
    case TryWon => Goto(s.(flag := true, lock := None), c, RunNow)
    case RunNow => StartBody(Return(s, c), c.job)
    case Enqueue =>
      Goto(s.(pending := s.pending + [c.job], submitted := s.submitted + [c.job]), c, WantLock)
    case WantLock => Goto(s.(lock := Some(c)), c, Decide)
    case Decide =>
      if c.Add? && s.flag then Return(s.(lock := None), c)
      else if s.pending == [] then Goto(s, c, TookNone)
      else Goto(s.(pending := s.pending[1..]), c, Took(s.pending[0]))
    case TookNone => Return(s.(flag := false, lock := None), c)
    case Took(next) => Goto(s.(flag := true, lock := None), c, Push(next))
  }

  // Running immediately was refused: TryRunImmediately goes on to enqueue the job, while
  // ForceRunImmediately gives up and returns false.
  function TryFailed(s: State, c: Call, fallback: bool): State
  {
    if fallback then Goto(s, c, Enqueue) else Return(s, c)
  }

  function StartBody(s: State, j: JobId): State
  {
    s.(tokens := s.tokens[j := Token(true, 0)], bodies := s.bodies + {j}, started := s.started + [j])
  }

  // A token without references is destroyed, and its destructor begins to look for the next job.
  function SetToken(s: State, j: JobId, t: Token): State
  {
    if t.held || t.copies > 0 then s.(tokens := s.tokens[j := t])
    else s.(tokens := s.tokens - {j}, finished := s.finished + [j], calls := s.calls[Drop(j) := WantLock])
  }

  // ---------------------------------------------------------------- the invariant

  // Where the right to hand out the strand's next job can be.
  datatype Baton = AtCall(call: Call) | InQueue(worker: nat, index: nat) | Alive(job: JobId)

  predicate IsBaton(s: State, b: Baton)
  {
    match b
    case AtCall(c) => c in s.calls && (c.Drop? || Carries(s.calls[c]))
    case InQueue(w, i) => w < |s.queues| && i < |s.queues[w]| && s.queues[w][i].Job?
    case Alive(j) => j in s.tokens
  }

  predicate Carries(pc: Pc)
  {
    pc.TryWon? || pc.RunNow? || pc.Took? || pc.Push?
  }

  // The job that has left the pending queue but is not finished, as a sequence of at most one.
  function Active(s: State, ob: Option<Baton>): seq<JobId>
    requires ob.Some? ==> IsBaton(s, ob.value)
  {
    if ob.None? then []
    else match ob.value
      case AtCall(c) =>
        (match s.calls[c]
         case Took(next) => [next]
         case Push(next) => [next]
         case TryWon => [c.job]
         case RunNow => [c.job]
         case _ => [])
      case InQueue(w, i) => [s.queues[w][i].job]
      case Alive(j) => [j]
  }

  // The flag, corrected for a critical section that has decided but not yet written it.
  predicate Busy(s: State)
  {
    s.flag ||
    (s.lock.Some? && s.lock.value in s.calls && (s.calls[s.lock.value].TryWon? || s.calls[s.lock.value].Took?))
  }

  ghost predicate OneBaton(s: State, ob: Option<Baton>)
  {
    && (forall b :: IsBaton(s, b) <==> ob == Some(b))
    && (ob.Some? <==> Busy(s))
  }

  predicate OwnsLock(pc: Pc)
  {
    pc.TryTest? || pc.TryWon? || pc.Decide? || pc.TookNone? || pc.Took?
  }

  ghost predicate Locking(s: State)
  {
    && (forall c :: c in s.calls && OwnsLock(s.calls[c]) ==> s.lock == Some(c))
    && (s.lock.Some? ==> s.lock.value in s.calls && OwnsLock(s.calls[s.lock.value]))
    && (forall c :: c in s.calls && c.Drop? ==>
          s.calls[c].WantLock? || s.calls[c].Decide? || s.calls[c].TookNone? || s.calls[c].Took? || s.calls[c].Push?)
    && (forall c :: c in s.calls && s.calls[c].TookNone? && c.Add? ==> !s.flag)
  }

  predicate Unsubmitted(pc: Pc)
  {
    pc.TryLock? || pc.TryTest? || pc.Enqueue?
  }

  ghost predicate Distinct(q: seq<JobId>)
  {
    forall i, k :: 0 <= i < k < |q| ==> q[i] != q[k]
  }

  ghost predicate Aligned(submitted: seq<JobId>, started: seq<JobId>, finished: seq<JobId>,
                          active: seq<JobId>, pending: seq<JobId>, alive: bool)
  {
    && submitted == finished + active + pending
    && started == finished + (if alive then active else [])
    && Distinct(submitted)
  }

  ghost predicate Histories(s: State, ob: Option<Baton>)
    requires ob.Some? ==> IsBaton(s, ob.value)
  {
    Aligned(s.submitted, s.started, s.finished, Active(s, ob), s.pending, ob.Some? && ob.value.Alive?)
  }

  ghost predicate Names(s: State)
  {
    && (forall j :: j in s.submitted ==> j in s.known)
    && (forall j :: Add(j) in s.calls ==> j in s.known)
    && (forall j :: Add(j) in s.calls && Unsubmitted(s.calls[Add(j)]) ==> j !in s.submitted)
  }

  ghost predicate Bodies(s: State)
  {
    && (forall j :: j in s.tokens ==> s.tokens[j].held || s.tokens[j].copies > 0)
    && (forall j :: j in s.tokens && s.tokens[j].held ==> j in s.bodies)
    && (forall j :: j in s.tokens && j in s.plain ==> s.tokens[j].held && s.tokens[j].copies == 0)
    && (forall j :: j in s.bodies && j in s.plain ==> j in s.tokens)
    && (forall j :: j in s.bodies ==> j in s.started)
    && s.plain <= s.known
  }

  // A call that was made after its job entered the pending queue and has not tested the flag yet.
  ghost predicate Deciding(s: State, c: Call)
  {
    c in s.calls && c.Add? && (s.calls[c].WantLock? || s.calls[c].Decide?)
  }

  ghost predicate Lively(s: State)
  {
    s.pending != [] ==>
      || (exists c :: Deciding(s, c))
      || (Busy(s) && !(s.lock.Some? && s.lock.value in s.calls && s.calls[s.lock.value].TookNone?))
  }

  ghost predicate InvWith(s: State, ob: Option<Baton>)
  {
    && |s.queues| > 0
    && OneBaton(s, ob)
    && Locking(s)
    && Histories(s, ob)
    && Names(s)
    && Bodies(s)
    && Lively(s)
  }

  ghost predicate Inv(s: State)
  {
    exists ob :: InvWith(s, ob)
  }
}
