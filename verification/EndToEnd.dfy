/** Publishing end to end, as one system: the dispatching threads of Delivery enter the strands' AddJob,
    and each strand runs its own protocol. A thread reaches a subscriber at the step of AddJob that
    pushes the job to the strand's pending queue; it goes on when the call returns. */
module EndToEnd {
  import opened Totals
  import opened Serial
  import opened Registry
  import opened Sequences
  import D = Delivery
  import Subs = Subscriptions
  import S = Strand
  import Theorems = StrandTheorems
  import Liveness = StrandLiveness
  import StrandSafety

  // A thread inside AddJob, with the strand and the job it brought.
  datatype Inside = Inside(strand: nat, job: S.JobId)

  datatype State = State(
    workers: nat,
    bus: D.State,
    strands: map<nat, S.State>,
    body: map<(nat, S.JobId), D.Job>,   // the jobs that deliver a message; a strand may have others
    inside: map<nat, Inside>
  )

  datatype Label =
    | Bus(step: D.Label)                // anything but reaching a subscriber with a strand
    | Call(thread: nat, job: S.JobId, plain: bool)
    | Enqueue(thread: nat)
    | Return(thread: nat)
    | OfStrand(strand: nat, action: S.Label)   // by a call in progress, a worker, or anybody else

  function Init(workers: nat): State
  {
    State(workers, D.INIT, map[], map[], map[])
  }

  function StrandAt(s: State, k: nat): S.State
  {
    if k in s.strands then s.strands[k] else S.Init(s.workers)
  }

  // The strand of the subscriber the thread comes to next.
  function Target(bus: D.State, thread: nat): Option<nat>
    requires D.Enabled(bus, D.Deliver(thread))
  {
    var d := bus.dispatching[thread];
    if (d.left[0], d.message.channel) in bus.infos then bus.infos[(d.left[0], d.message.channel)].strand else None
  }

  // The job of call Add(job) is not in the pending queue yet.
  predicate Entering(q: S.State, job: S.JobId)
  {
    S.Add(job) in q.calls && q.calls[S.Add(job)].Enqueue?
  }

  predicate Enabled(s: State, l: Label)
  {
    match l
    case Bus(step) =>
      && D.Enabled(s.bus, step) && !step.Run?
      && (step.Deliver? ==> Target(s.bus, step.thread).None?)
      && (step.Deliver? || step.EndPublish? ==> step.thread !in s.inside)
    case Call(t, j, plain) =>
      && D.Enabled(s.bus, D.Deliver(t)) && t !in s.inside && Target(s.bus, t).Some?
      && S.Enabled(StrandAt(s, Target(s.bus, t).value), S.BeginAdd(j, plain))
    case Enqueue(t) =>
      && t in s.inside && Entering(StrandAt(s, s.inside[t].strand), s.inside[t].job)
      && D.Enabled(s.bus, D.Deliver(t))
    case Return(t) => t in s.inside && S.Add(s.inside[t].job) !in StrandAt(s, s.inside[t].strand).calls
    case OfStrand(k, l) =>
      && S.Enabled(StrandAt(s, k), l)
      && !(l.Advance? && l.call.Add? && (k, l.call.job) in s.body && Entering(StrandAt(s, k), l.call.job))
  }

  function Apply(s: State, l: Label): State
    requires Enabled(s, l)
  {
    match l
    case Bus(step) => s.(bus := D.Apply(s.bus, step))
    case Call(t, j, plain) =>
      var k := Target(s.bus, t).value;
      var d := s.bus.dispatching[t];
      s.(strands := s.strands[k := S.Apply(StrandAt(s, k), S.BeginAdd(j, plain))],
         body := s.body[(k, j) := D.Job(d.left[0], d.message)],
         inside := s.inside[t := Inside(k, j)])
    case Enqueue(t) =>
      var k, j := s.inside[t].strand, s.inside[t].job;
      s.(strands := s.strands[k := S.Apply(StrandAt(s, k), S.Advance(S.Add(j)))],
         bus := D.Apply(s.bus, D.Deliver(t)))
    case Return(t) => s.(inside := s.inside - {t})
    case OfStrand(k, l) => s.(strands := s.strands[k := S.Apply(StrandAt(s, k), l)])
  }

  predicate CanRun(s: State, labels: seq<Label>)
    decreases |labels|
  {
    labels == [] || (Enabled(s, labels[0]) && CanRun(Apply(s, labels[0]), labels[1..]))
  }

  function RunOf(s: State, labels: seq<Label>): State
    requires CanRun(s, labels)
    decreases |labels|
  {
    if labels == [] then s else RunOf(Apply(s, labels[0]), labels[1..])
  }

  /** The deliveries among the jobs of a strand. */
  function Callbacks(ids: seq<S.JobId>, k: nat, body: map<(nat, S.JobId), D.Job>): seq<D.Job>
  {
    if ids == [] then []
    else
      var last := ids[|ids| - 1];
      Callbacks(ids[..|ids| - 1], k, body) + if (k, last) in body then [body[(k, last)]] else []
  }

  // ---------------------------------------------------------------- the invariant

  predicate Trying(pc: S.Pc)
  {
    pc.TryLock? || pc.TryTest? || pc.TryWon? || pc.RunNow?
  }

  // A delivery is known to its strand, and enters it through the pending queue.
  ghost predicate Enters(q: S.State, j: S.JobId)
  {
    j in q.known && (S.Add(j) in q.calls ==> !Trying(q.calls[S.Add(j)]))
  }

  // The thread has called AddJob for the subscriber it comes to next, and not reached it yet.
  ghost predicate Brings(s: State, t: nat)
    requires t in s.inside
  {
    var k, j := s.inside[t].strand, s.inside[t].job;
    && D.Enabled(s.bus, D.Deliver(t)) && Target(s.bus, t) == Some(k) && (k, j) in s.body
    && s.body[(k, j)] == D.Job(s.bus.dispatching[t].left[0], s.bus.dispatching[t].message)
  }

  ghost predicate Brought(s: State, k: nat, j: S.JobId)
  {
    exists t :: t in s.inside && s.inside[t] == Inside(k, j)
  }

  ghost predicate InStep(s: State, k: nat)
  {
    Callbacks(StrandAt(s, k).submitted, k, s.body) == History(D.StrandOf(s.bus, k))
  }

  ghost predicate Projects(s: State)
  {
    && D.Reachable(s.bus)
    && (forall k :: k in s.strands ==> Theorems.Reachable(s.workers, s.strands[k]))
    && (forall k: nat :: InStep(s, k))
  }

  ghost predicate CallsMatch(s: State)
  {
    && (forall k, j :: (k, j) in s.body ==> Enters(StrandAt(s, k), j))
    && (forall t :: t in s.inside ==> t in s.bus.dispatching && (s.inside[t].strand, s.inside[t].job) in s.body)
    && (forall t, u :: t in s.inside && u in s.inside && t != u ==> s.inside[t] != s.inside[u])
    && (forall t :: t in s.inside && Entering(StrandAt(s, s.inside[t].strand), s.inside[t].job) ==> Brings(s, t))
    && (forall k, j :: (k, j) in s.body && Entering(StrandAt(s, k), j) ==> Brought(s, k, j))
  }

  ghost predicate Inv(s: State)
  {
    s.workers > 0 && Projects(s) && CallsMatch(s)
  }

  // ---------------------------------------------------------------- the strands

  lemma {:induction false} StrandReachable(s: State, k: nat)
    requires s.workers > 0 && Projects(s)
    ensures Theorems.Reachable(s.workers, StrandAt(s, k)) && S.Inv(StrandAt(s, k))
  {
    if k !in s.strands {
      assert Theorems.CanRun(S.Init(s.workers), []) && Theorems.RunOf(S.Init(s.workers), []) == S.Init(s.workers);
    }
    Theorems.ReachableInv(s.workers, StrandAt(s, k));
  }

  // A strand accepts a job when it is pushed to the pending queue, or when it may run at once.
  lemma {:induction false} AcceptsAt(q: S.State, l: S.Label)
    requires S.Inv(q) && S.Enabled(q, l) && S.Apply(q, l).submitted != q.submitted
    ensures l.Advance? && l.call.Add? && S.Apply(q, l).submitted == q.submitted + [l.call.job]
    ensures q.calls[l.call].Enqueue? || q.calls[l.call].TryTest?
  {
    Theorems.HistoryChanges(q, l);
    Theorems.SubmitterIsAdd(q, l);
    match q.calls[l.call]
    case TryLock(_) =>
    case TryTest(_) =>
    case TryWon =>
    case RunNow =>
    case Enqueue =>
    case WantLock =>
    case Decide =>
    case TookNone =>
    case Took(_) =>
    case Push(_) =>
  }

  // A call past its attempt to run at once stays past it, and enters the queue once.
  lemma {:induction false} StepPasses(q: S.State, c: S.Call)
    requires S.Enabled(q, S.Advance(c)) && !Trying(q.calls[c]) && c in S.Step(q, c).calls
    ensures !Trying(S.Step(q, c).calls[c]) && !S.Step(q, c).calls[c].Enqueue?
  {
    match q.calls[c]
    case Enqueue =>
    case WantLock =>
    case Decide =>
    case TookNone =>
    case Took(_) =>
  }

  lemma {:induction false} AddStays(q: S.State, l: S.Label, j: S.JobId)
    requires S.Enabled(q, l) && Enters(q, j)
    ensures Enters(S.Apply(q, l), j)
    ensures Entering(S.Apply(q, l), j) ==> Entering(q, j) && l != S.Advance(S.Add(j))
  {
    match l
    case Advance(c) =>
      if c == S.Add(j) {
        if c in S.Step(q, c).calls { StepPasses(q, c); }
      } else {
        OtherStays(q, c, S.Add(j));
      }
      KnownStays(q, l);
    case BeginAdd(_, _) =>
    case BeginTry(_, _, _) =>
    case BeginForeign(_) =>
    case PushTo(_, _) =>
    case Take(_) =>
    case CopyToken(_) =>
    case MoveToken(_) =>
    case DropToken(_) =>
    case EndBody(_) =>
  }

  lemma {:induction false} OtherStays(q: S.State, c: S.Call, d: S.Call)
    requires S.Enabled(q, S.Advance(c)) && c != d
    ensures d in S.Step(q, c).calls <==> d in q.calls
    ensures d in q.calls ==> S.Step(q, c).calls[d] == q.calls[d]
  {
    StrandSafety.OthersStayInStep(q, c, d);
  }

  lemma {:induction false} KnownStays(q: S.State, l: S.Label)
    requires S.Enabled(q, l)
    ensures q.known <= S.Apply(q, l).known
  {
    if l.Advance? { StrandSafety.StepKnows(q, l.call); }
  }

  // ---------------------------------------------------------------- the deliveries among a strand's jobs

  lemma {:induction false} CallbacksMore(ids: seq<S.JobId>, j: S.JobId, k: nat, body: map<(nat, S.JobId), D.Job>)
    ensures Callbacks(ids + [j], k, body) == Callbacks(ids, k, body) + if (k, j) in body then [body[(k, j)]] else []
  {
    assert (ids + [j])[..|ids|] == ids;
  }

  lemma {:induction false} CallbacksIgnore(ids: seq<S.JobId>, k: nat, body: map<(nat, S.JobId), D.Job>,
                                          key: (nat, S.JobId), job: D.Job)
    requires key.0 == k ==> key.1 !in ids
    ensures Callbacks(ids, k, body[key := job]) == Callbacks(ids, k, body)
  {
    if ids != [] {
      CallbacksIgnore(ids[..|ids| - 1], k, body, key, job);
    }
  }

  lemma {:induction false} CallbacksJoin(a: seq<S.JobId>, b: seq<S.JobId>, k: nat, body: map<(nat, S.JobId), D.Job>)
    ensures Callbacks(a + b, k, body) == Callbacks(a, k, body) + Callbacks(b, k, body)
  {
    if b == [] {
      assert a + b == a;
    } else {
      assert (a + b)[..|a + b| - 1] == a + b[..|b| - 1];
      CallbacksJoin(a, b[..|b| - 1], k, body);
    }
  }

  // ---------------------------------------------------------------- the threads

  lemma {:induction false} BusLeavesStrands(bus: D.State, step: D.Label)
    requires D.Enabled(bus, step) && !step.Run? && (step.Deliver? ==> Target(bus, step.thread).None?)
    ensures D.Apply(bus, step).strands == bus.strands
  {
  }

  // While a thread dispatches, nobody subscribes, and other threads leave it where it is.
  lemma {:induction false} ThreadStays(bus: D.State, step: D.Label, t: nat)
    requires D.Enabled(bus, step) && t in bus.dispatching
    requires step.Deliver? || step.EndPublish? ==> step.thread != t
    ensures var bus' := D.Apply(bus, step);
      t in bus'.dispatching && bus'.dispatching[t] == bus.dispatching[t] && bus'.infos == bus.infos
  {
    if step.Deliver? {
      D.AddJobFrame(bus, bus.dispatching[step.thread].left[0], bus.dispatching[step.thread].message);
      DeliverLeaves(bus, step.thread, t);
    }
  }

  lemma {:induction false} DeliverLeaves(bus: D.State, thread: nat, t: nat)
    requires D.Enabled(bus, D.Deliver(thread)) && t in bus.dispatching
    ensures var bus' := D.Apply(bus, D.Deliver(thread));
      && t in bus'.dispatching && bus'.infos == bus.infos
      && (t != thread ==> bus'.dispatching[t] == bus.dispatching[t])
  {
    D.DeliverFrame(bus, thread);
  }

  lemma {:induction false} BringsStays(s: State, s': State, t: nat)
    requires t in s.inside && t in s'.inside && s'.inside[t] == s.inside[t] && Brings(s, t) && s'.body == s.body
    requires t in s'.bus.dispatching && s'.bus.dispatching[t] == s.bus.dispatching[t] && s'.bus.infos == s.bus.infos
    ensures Brings(s', t)
  {
  }

  // ---------------------------------------------------------------- every step projects

  lemma {:induction false} ProjectsOn(s: State, s': State, k: nat, q: S.State)
    requires Projects(s) && s'.workers == s.workers && s'.strands == s.strands[k := q]
    requires D.Reachable(s'.bus) && Theorems.Reachable(s.workers, q) && forall m: nat :: InStep(s', m)
    ensures Projects(s')
  {
  }

  lemma {:induction false} BusProjects(s: State, step: D.Label)
    requires Projects(s) && Enabled(s, Bus(step))
    ensures Projects(s.(bus := D.Apply(s.bus, step)))
  {
    BusLeavesStrands(s.bus, step);
    D.ReachesOn(s.bus, step);
    var bus := D.Apply(s.bus, step);
    forall k: nat ensures InStep(s.(bus := bus), k) {
      assert InStep(s, k) && D.StrandOf(bus, k) == D.StrandOf(s.bus, k);
    }
  }

  lemma {:induction false} KnownJobs(q: S.State)
    requires S.Inv(q)
    ensures forall j :: j in q.submitted ==> j in q.known
  {
  }

  lemma {:induction false} BeginAccepts(q: S.State, j: S.JobId, plain: bool)
    requires S.Enabled(q, S.BeginAdd(j, plain))
    ensures var q' := S.Apply(q, S.BeginAdd(j, plain)); q'.submitted == q.submitted && Enters(q', j) && Entering(q', j)
  {
  }

  lemma {:induction false} CallInStep(s: State, s': State, k: nat, j: S.JobId, job: D.Job, m: nat)
    requires InStep(s, m) && s'.bus == s.bus && s'.body == s.body[(k, j) := job]
    requires StrandAt(s', m).submitted == StrandAt(s, m).submitted && (m == k ==> j !in StrandAt(s, m).submitted)
    ensures InStep(s', m)
  {
    CallbacksIgnore(StrandAt(s, m).submitted, m, s.body, (k, j), job);
  }

  lemma {:induction false} CallProjects(s: State, t: nat, j: S.JobId, plain: bool)
    requires s.workers > 0 && Projects(s) && Enabled(s, Call(t, j, plain))
    ensures Projects(Apply(s, Call(t, j, plain)))
  {
    var s', k := Apply(s, Call(t, j, plain)), Target(s.bus, t).value;
    var q := StrandAt(s, k);
    StrandReachable(s, k);
    KnownJobs(q);
    BeginAccepts(q, j, plain);
    Theorems.ReachesOn(s.workers, q, S.BeginAdd(j, plain));
    var q' := S.Apply(q, S.BeginAdd(j, plain));
    forall m: nat ensures InStep(s', m) {
      assert InStep(s, m) && StrandAt(s', m) == if m == k then q' else StrandAt(s, m);
      CallInStep(s, s', k, j, s'.body[(k, j)], m);
    }
    ProjectsOn(s, s', k, q');
  }

  lemma {:induction false} EnqueueAccepts(q: S.State, j: S.JobId)
    requires Entering(q, j)
    ensures S.Enabled(q, S.Advance(S.Add(j))) && S.Apply(q, S.Advance(S.Add(j))).submitted == q.submitted + [j]
    ensures !Entering(S.Apply(q, S.Advance(S.Add(j))), j)
  {
  }

  lemma {:induction false} DeliveryJoinsHistory(bus: D.State, t: nat, k: nat)
    requires D.Inv(bus) && D.Enabled(bus, D.Deliver(t))
    ensures var d := bus.dispatching[t];
      History(D.StrandOf(D.Apply(bus, D.Deliver(t)), k))
      == History(D.StrandOf(bus, k)) + if Target(bus, t) == Some(k) then [D.Job(d.left[0], d.message)] else []
  {
    D.DeliverKeepsRegistered(bus, t);
    D.DeliverAddsJob(bus, t, Info(0, Some(k)));
  }

  lemma {:induction false} EnqueueInStep(s: State, s': State, t: nat, m: nat)
    requires t in s.inside && InStep(s, m) && D.Inv(s.bus) && Brings(s, t)
    requires s'.bus == D.Apply(s.bus, D.Deliver(t)) && s'.body == s.body
    requires StrandAt(s', m).submitted
             == StrandAt(s, m).submitted + if m == s.inside[t].strand then [s.inside[t].job] else []
    ensures InStep(s', m)
  {
    DeliveryJoinsHistory(s.bus, t, m);
    if m == s.inside[t].strand {
      CallbacksMore(StrandAt(s, m).submitted, s.inside[t].job, m, s.body);
    } else {
      Empty(StrandAt(s, m).submitted);
      Empty(History(D.StrandOf(s.bus, m)));
    }
  }

  lemma {:induction false} EnqueueReaches(s: State, k: nat, j: S.JobId)
    requires s.workers > 0 && Projects(s) && Entering(StrandAt(s, k), j)
    ensures var q, l := StrandAt(s, k), S.Advance(S.Add(j));
      S.Enabled(q, l) && S.Apply(q, l).submitted == q.submitted + [j] && Theorems.Reachable(s.workers, S.Apply(q, l))
  {
    StrandReachable(s, k);
    EnqueueAccepts(StrandAt(s, k), j);
    Theorems.ReachesOn(s.workers, StrandAt(s, k), S.Advance(S.Add(j)));
  }

  lemma {:induction false} EnqueueProjects(s: State, t: nat)
    requires s.workers > 0 && Projects(s) && Enabled(s, Enqueue(t)) && Brings(s, t)
    ensures Projects(Apply(s, Enqueue(t)))
  {
    var s', k, j := Apply(s, Enqueue(t)), s.inside[t].strand, s.inside[t].job;
    var q := StrandAt(s, k);
    EnqueueReaches(s, k, j);
    D.ReachableInv(s.bus);
    D.ReachesOn(s.bus, D.Deliver(t));
    var q' := S.Apply(q, S.Advance(S.Add(j)));
    forall m: nat ensures InStep(s', m) {
      assert InStep(s, m) && StrandAt(s', m) == if m == k then q' else StrandAt(s, m);
      Empty(StrandAt(s, m).submitted);
      EnqueueInStep(s, s', t, m);
    }
    ProjectsOn(s, s', k, q');
  }

  lemma {:induction false} StrandInStep(s: State, s': State, k: nat, l: S.Label)
    requires S.Inv(StrandAt(s, k)) && CallsMatch(s) && InStep(s, k) && Enabled(s, OfStrand(k, l))
    requires s'.bus == s.bus && s'.body == s.body && StrandAt(s', k) == S.Apply(StrandAt(s, k), l)
    ensures InStep(s', k)
  {
    var q := StrandAt(s, k);
    if S.Apply(q, l).submitted != q.submitted {
      AcceptsAt(q, l);
      assert (k, l.call.job) in s.body ==> Enters(q, l.call.job);
      CallbacksMore(q.submitted, l.call.job, k, s.body);
      Empty(Callbacks(q.submitted, k, s.body));
    }
  }

  lemma {:induction false} OfStrandProjects(s: State, k: nat, l: S.Label)
    requires Inv(s) && Enabled(s, OfStrand(k, l))
    ensures Projects(Apply(s, OfStrand(k, l)))
  {
    var s', q := Apply(s, OfStrand(k, l)), StrandAt(s, k);
    StrandReachable(s, k);
    Theorems.ReachesOn(s.workers, q, l);
    assert InStep(s, k);
    StrandInStep(s, s', k, l);
    StrandProjects(s, k, S.Apply(q, l));
  }

  lemma {:induction false} StrandProjects(s: State, k: nat, q: S.State)
    requires Projects(s) && Theorems.Reachable(s.workers, q) && InStep(s.(strands := s.strands[k := q]), k)
    ensures Projects(s.(strands := s.strands[k := q]))
  {
    var s' := s.(strands := s.strands[k := q]);
    forall m: nat ensures InStep(s', m) {
      assert InStep(s, m);
    }
  }

  // ---------------------------------------------------------------- every step keeps calls and threads matched

  // A step after which no more calls are entering, and no thread that brings a job has moved.
  lemma {:induction false} MatchCarries(s: State, s': State)
    requires CallsMatch(s) && s'.body == s.body
    requires forall m, i :: (m, i) in s.body ==>
               && Enters(StrandAt(s', m), i)
               && (Entering(StrandAt(s', m), i) ==> Entering(StrandAt(s, m), i))
    requires forall t :: t in s'.inside ==> t in s.inside && s'.inside[t] == s.inside[t] && t in s'.bus.dispatching
    requires forall t :: t in s.inside && Entering(StrandAt(s', s.inside[t].strand), s.inside[t].job) ==> t in s'.inside
    requires forall t ::
               t in s'.inside && Entering(StrandAt(s', s.inside[t].strand), s.inside[t].job) && Brings(s, t) ==>
               Brings(s', t)
    ensures CallsMatch(s')
  {
    forall m, i | (m, i) in s'.body && Entering(StrandAt(s', m), i) ensures Brought(s', m, i) {
      assert Brought(s, m, i);
      var t :| t in s.inside && s.inside[t] == Inside(m, i);
      assert t in s'.inside;
    }
  }

  lemma {:induction false} BusMatches(s: State, step: D.Label)
    requires CallsMatch(s) && Enabled(s, Bus(step))
    ensures CallsMatch(s.(bus := D.Apply(s.bus, step)))
  {
    var s' := s.(bus := D.Apply(s.bus, step));
    forall t | t in s.inside
      ensures t in s'.bus.dispatching && (Brings(s, t) ==> Brings(s', t))
    {
      ThreadStays(s.bus, step, t);
      if Brings(s, t) { BringsStays(s, s', t); }
    }
    MatchCarries(s, s');
  }

  lemma {:induction false} EnqueueMatches(s: State, t: nat)
    requires CallsMatch(s) && Enabled(s, Enqueue(t))
    ensures CallsMatch(Apply(s, Enqueue(t)))
  {
    var s', k, j := Apply(s, Enqueue(t)), s.inside[t].strand, s.inside[t].job;
    var q := StrandAt(s, k);
    forall m, i | (m, i) in s.body
      ensures Enters(StrandAt(s', m), i)
      ensures Entering(StrandAt(s', m), i) ==> Entering(StrandAt(s, m), i) && (m, i) != (k, j)
    {
      assert Enters(StrandAt(s, m), i);
      if m == k { AddStays(q, S.Advance(S.Add(j)), i); }
    }
    forall u | u in s.inside
      ensures u in s'.bus.dispatching
      ensures Entering(StrandAt(s', s.inside[u].strand), s.inside[u].job) && Brings(s, u) ==> Brings(s', u)
    {
      DeliverLeaves(s.bus, t, u);
      if Brings(s, u) && u != t { BringsStays(s, s', u); }
    }
    MatchCarries(s, s');
  }

  lemma {:induction false} ReturnMatches(s: State, t: nat)
    requires CallsMatch(s) && Enabled(s, Return(t))
    ensures CallsMatch(s.(inside := s.inside - {t}))
  {
    var s' := s.(inside := s.inside - {t});
    forall u | u in s'.inside && Brings(s, u) ensures Brings(s', u) {
      BringsStays(s, s', u);
    }
    MatchCarries(s, s');
  }

  lemma {:induction false} OfStrandMatches(s: State, k: nat, l: S.Label)
    requires CallsMatch(s) && Enabled(s, OfStrand(k, l))
    ensures CallsMatch(Apply(s, OfStrand(k, l)))
  {
    var s', q := Apply(s, OfStrand(k, l)), StrandAt(s, k);
    forall m, i | (m, i) in s.body
      ensures Enters(StrandAt(s', m), i)
      ensures Entering(StrandAt(s', m), i) ==> Entering(StrandAt(s, m), i)
    {
      assert Enters(StrandAt(s, m), i);
      if m == k { AddStays(q, l, i); }
    }
    forall u | u in s.inside && Brings(s, u) ensures Brings(s', u) {
      BringsStays(s, s', u);
    }
    MatchCarries(s, s');
  }

  // A new call, for the job (k, j) that thread t brings.
  lemma {:induction false} CallCarries(s: State, s': State, t: nat, k: nat, j: S.JobId)
    requires CallsMatch(s) && t !in s.inside && s'.inside == s.inside[t := Inside(k, j)] && s'.bus == s.bus
    requires (k, j) !in s.body && (k, j) in s'.body && s'.body == s.body[(k, j) := s'.body[(k, j)]]
    requires forall m, i :: (m, i) in s.body ==>
               && Enters(StrandAt(s', m), i)
               && (Entering(StrandAt(s', m), i) ==> Entering(StrandAt(s, m), i))
    requires Enters(StrandAt(s', k), j) && t in s.bus.dispatching && Brings(s', t)
    ensures CallsMatch(s')
  {
    assert s'.inside[t] == Inside(k, j);
    forall m, i | (m, i) in s'.body && Entering(StrandAt(s', m), i) ensures Brought(s', m, i) {
      if (m, i) != (k, j) {
        assert Brought(s, m, i);
        var u :| u in s.inside && s.inside[u] == Inside(m, i);
        assert s'.inside[u] == Inside(m, i);
      }
    }
    forall u | u in s'.inside && Entering(StrandAt(s', s'.inside[u].strand), s'.inside[u].job) ensures Brings(s', u) {
      if u != t { assert Brings(s, u); }
    }
  }

  lemma {:induction false} CallMatches(s: State, t: nat, j: S.JobId, plain: bool)
    requires CallsMatch(s) && Enabled(s, Call(t, j, plain))
    ensures CallsMatch(Apply(s, Call(t, j, plain)))
  {
    var s', k := Apply(s, Call(t, j, plain)), Target(s.bus, t).value;
    var q := StrandAt(s, k);
    assert (k, j) in s.body ==> Enters(q, j);
    BeginAccepts(q, j, plain);
    forall m, i | (m, i) in s.body
      ensures Enters(StrandAt(s', m), i) && (Entering(StrandAt(s', m), i) ==> Entering(StrandAt(s, m), i))
    {
      assert Enters(StrandAt(s, m), i);
      if m == k { AddStays(q, S.BeginAdd(j, plain), i); }
    }
    CallCarries(s, s', t, k, j);
  }

  lemma {:induction false} KeepsInv(s: State, l: Label)
    requires Inv(s) && Enabled(s, l)
    ensures Inv(Apply(s, l))
  {
    match l
    case Bus(step) =>
      BusProjects(s, step);
      BusMatches(s, step);
    case Call(t, j, plain) =>
      CallProjects(s, t, j, plain);
      CallMatches(s, t, j, plain);
    case Enqueue(t) =>
      assert Brings(s, t);
      EnqueueProjects(s, t);
      EnqueueMatches(s, t);
    case Return(t) =>
      ReturnMatches(s, t);
      ReturnProjects(s, t);
    case OfStrand(k, action) =>
      OfStrandProjects(s, k, action);
      OfStrandMatches(s, k, action);
  }

  lemma {:induction false} ReturnProjects(s: State, t: nat)
    requires Projects(s)
    ensures Projects(s.(inside := s.inside - {t}))
  {
    forall k: nat ensures InStep(s.(inside := s.inside - {t}), k) {
      assert InStep(s, k);
    }
  }

  // ---------------------------------------------------------------- runs

  lemma {:induction false} StartHolds(workers: nat)
    requires workers > 0
    ensures Inv(Init(workers))
  {
    assert D.CanRun(D.INIT, []) && D.RunOf(D.INIT, []) == D.INIT;
    forall k: nat ensures InStep(Init(workers), k) {}
  }

  lemma {:induction false} RunsKeepInv(s: State, labels: seq<Label>)
    requires Inv(s) && CanRun(s, labels)
    ensures Inv(RunOf(s, labels)) && RunOf(s, labels).workers == s.workers
    decreases |labels|
  {
    if labels != [] {
      KeepsInv(s, labels[0]);
      RunsKeepInv(Apply(s, labels[0]), labels[1..]);
    }
  }

  /** Every joint run is a run of Delivery and, for each strand, a run of the strand protocol, and the
      jobs a strand accepted are, in order, those the dispatching threads handed to it. */
  lemma {:induction false} JointRunProjects(workers: nat, labels: seq<Label>, k: nat)
    requires workers > 0 && CanRun(Init(workers), labels)
    ensures var s := RunOf(Init(workers), labels);
      && D.Reachable(s.bus) && Theorems.Reachable(workers, StrandAt(s, k))
      && Callbacks(StrandAt(s, k).submitted, k, s.body) == History(D.StrandOf(s.bus, k))
  {
    StartHolds(workers);
    RunsKeepInv(Init(workers), labels);
    StrandReachable(RunOf(Init(workers), labels), k);
    assert InStep(RunOf(Init(workers), labels), k);
  }

  lemma {:induction false} PrefixIsReceived(started: seq<S.JobId>, submitted: seq<S.JobId>, k: nat,
                                            body: map<(nat, S.JobId), D.Job>, thread: nat, n: D.Node, c: Channel)
    requires started <= submitted
    ensures D.Received(Callbacks(started, k, body), thread, n, c)
            <= D.Received(Callbacks(submitted, k, body), thread, n, c)
  {
    var rest := submitted[|started|..];
    assert submitted == started + rest;
    CallbacksJoin(started, rest, k, body);
    D.ReceivedJoins(Callbacks(started, k, body), Callbacks(rest, k, body), thread, n, c);
  }

  // What a subscriber's called callbacks got from a thread, and what the thread sent it.
  function Got(s: State, p: (D.Node, Channel), thread: nat, k: nat): seq<Message>
  {
    D.Received(Callbacks(StrandAt(s, k).started, k, s.body), thread, p.0, p.1)
  }

  function SentTo(s: State, p: (D.Node, Channel), thread: nat): seq<Message>
    requires p in s.bus.windows
  {
    D.Sent(s.bus.published, thread, p.1, s.bus.windows[p])
  }

  lemma {:induction false} SentIsHanded(bus: D.State, p: (D.Node, Channel), thread: nat, k: nat)
    requires D.Reachable(bus) && p in bus.infos && bus.infos[p].strand == Some(k)
    ensures p in bus.windows
    ensures var handed := D.Received(History(D.StrandOf(bus, k)), thread, p.0, p.1);
      var sent := D.Sent(bus.published, thread, p.1, bus.windows[p]);
      handed <= sent && (thread !in bus.dispatching ==> handed == sent)
  {
    D.ReachableInv(bus);
    assert D.InStep(bus, p, thread);
  }

  lemma {:induction false} GotIsPrefix(s: State, p: (D.Node, Channel), thread: nat, k: nat)
    requires Inv(s) && p in s.bus.infos && s.bus.infos[p].strand == Some(k)
    ensures p in s.bus.windows && Got(s, p, thread, k) <= SentTo(s, p, thread)
    ensures thread !in s.bus.dispatching && StrandAt(s, k).started == StrandAt(s, k).submitted ==>
              Got(s, p, thread, k) == SentTo(s, p, thread)
  {
    var q := StrandAt(s, k);
    SentIsHanded(s.bus, p, thread, k);
    assert InStep(s, k);
    StrandReachable(s, k);
    Theorems.FirstInFirstOut(s.workers, q);
    PrefixIsReceived(q.started, q.submitted, k, s.body, thread, p.0, p.1);
  }

  /** What the dispatching threads do in a joint run: its calls of Subscribe, Unsubscribe and Publish,
      and the subscribers they reach. */
  function BusLabels(labels: seq<Label>): seq<D.Label>
    decreases |labels|
  {
    if labels == [] then [] else BusLabel(labels[0]) + BusLabels(labels[1..])
  }

  function BusLabel(l: Label): seq<D.Label>
  {
    match l
    case Bus(step) => [step]
    case Call(_, _, _) => []
    case Enqueue(t) => [D.Deliver(t)]
    case Return(_) => []
    case OfStrand(_, _) => []
  }

  lemma {:induction false} BusRuns(s: State, labels: seq<Label>)
    requires CanRun(s, labels)
    ensures D.CanRun(s.bus, BusLabels(labels)) && D.RunOf(s.bus, BusLabels(labels)) == RunOf(s, labels).bus
    decreases |labels|
  {
    if labels != [] {
      BusRuns(Apply(s, labels[0]), labels[1..]);
      var first, rest := BusLabel(labels[0]), BusLabels(labels[1..]);
      if first == [] {
        Empty(rest);
      } else {
        assert (first + rest)[1..] == rest;
      }
    }
  }

  lemma {:induction false} StateFollowsCalls(workers: nat, labels: seq<Label>, p: (D.Node, Channel), thread: nat)
    requires CanRun(Init(workers), labels) && Subs.FirstInfo(BusLabels(labels), p).Some?
    ensures var s := RunOf(Init(workers), labels);
      && p in s.bus.infos && s.bus.infos[p] == Subs.FirstInfo(BusLabels(labels), p).value
      && p in s.bus.windows && SentTo(s, p, thread) == Subs.Due(BusLabels(labels), p, thread, false)
  {
    BusRuns(Init(workers), labels);
    Subs.FirstCallDecides(BusLabels(labels), p);
    Subs.WindowIsDue(BusLabels(labels), p, thread);
  }

  /** Ordered delivery, end to end. In every run of any number of publishing and subscribing threads,
      workers and other users of the strands, take a node whose first call of Subscribe for a channel
      gave a strand. The callbacks called for it on that strand got, for each publishing thread, a
      prefix of what the thread publishes on the channel while the node is subscribed: nothing lost,
      repeated or out of order. They got all of it once the thread is not dispatching and the strand
      cannot move. */
  lemma {:induction false} OrderedDelivery(workers: nat, labels: seq<Label>, p: (D.Node, Channel), thread: nat, k: nat)
    requires workers > 0 && CanRun(Init(workers), labels)
    requires var info := Subs.FirstInfo(BusLabels(labels), p); info.Some? && info.value.strand == Some(k)
    ensures var s, due := RunOf(Init(workers), labels), Subs.Due(BusLabels(labels), p, thread, false);
      && Got(s, p, thread, k) <= due
      && (thread !in s.bus.dispatching && Liveness.Stuck(StrandAt(s, k)) ==> Got(s, p, thread, k) == due)
  {
    StartHolds(workers);
    RunsKeepInv(Init(workers), labels);
    StateFollowsCalls(workers, labels, p, thread);
    var s := RunOf(Init(workers), labels);
    GotIsPrefix(s, p, thread, k);
    StrandReachable(s, k);
    if Liveness.Stuck(StrandAt(s, k)) {
      Liveness.StuckIsDrained(workers, StrandAt(s, k));
    }
  }

  // ---------------------------------------------------------------- no delivery is left behind

  // What the users decide: to subscribe, to publish, to use a strand for other jobs.
  predicate Outside(l: Label)
  {
    match l
    case Bus(step) => step.Subscribe? || step.Unsubscribe? || step.Publish?
    case OfStrand(_, action) => Liveness.Environment(action)
    case _ => false
  }

  ghost predicate Quiet(s: State)
  {
    forall l :: Enabled(s, l) ==> Outside(l)
  }

  lemma {:induction false} UnusedId(known: set<S.JobId>) returns (j: S.JobId)
    ensures forall i :: i in known ==> i < j
    decreases |known|
  {
    if known == {} {
      j := 0;
    } else {
      var i :| i in known;
      j := UnusedId(known - {i});
      assert forall m :: m in known ==> m == i || m in known - {i};
      if j <= i { j := i + 1; }
    }
  }

  // A strand that can move lets the whole system move.
  lemma {:induction false} StrandMoves(s: State, k: nat)
    requires Inv(s) && Quiet(s)
    ensures Liveness.Stuck(StrandAt(s, k))
  {
    var q := StrandAt(s, k);
    forall l | S.Enabled(q, l) ensures Liveness.Environment(l) {
      if l.Advance? && l.call.Add? && (k, l.call.job) in s.body && Entering(q, l.call.job) {
        assert Brought(s, k, l.call.job);
        var t :| t in s.inside && s.inside[t] == Inside(k, l.call.job);
        assert Brings(s, t);
        assert Enabled(s, Enqueue(t)) && !Outside(Enqueue(t));
      } else {
        assert Enabled(s, OfStrand(k, l));
      }
    }
  }

  // A dispatching thread has something to do, unless its call waits for the strand.
  lemma {:induction false} ThreadMoves(s: State, t: nat) returns (l: Label)
    requires Inv(s) && t in s.bus.dispatching
    requires t in s.inside ==> StrandAt(s, s.inside[t].strand).calls == map[]
    ensures Enabled(s, l) && !Outside(l)
  {
    if t in s.inside {
      l := Return(t);
    } else if s.bus.dispatching[t].left == [] {
      l := Bus(D.EndPublish(t));
    } else if Target(s.bus, t).None? {
      l := Bus(D.Deliver(t));
    } else {
      var j := UnusedId(StrandAt(s, Target(s.bus, t).value).known);
      l := Call(t, j, false);
    }
  }

  lemma {:induction false} ThreadsReturn(s: State)
    requires Inv(s) && Quiet(s)
    ensures s.bus.dispatching == map[]
  {
    if t :| t in s.bus.dispatching {
      if t in s.inside {
        var k := s.inside[t].strand;
        StrandMoves(s, k);
        StrandReachable(s, k);
        Liveness.StuckIsDrained(s.workers, StrandAt(s, k));
      }
      var l := ThreadMoves(s, t);
    }
  }

  /** A run can only come to rest with everything delivered: when no thread, worker or strand can move
      without a new subscription, message or foreign job, no thread is dispatching, every strand is
      drained, and every node whose first call of Subscribe gave a strand has got from every thread all
      that the thread published while the node was subscribed. */
  lemma {:induction false} RestMeansDelivered(workers: nat, labels: seq<Label>, p: (D.Node, Channel),
                                              thread: nat, k: nat)
    requires workers > 0 && CanRun(Init(workers), labels) && Quiet(RunOf(Init(workers), labels))
    ensures var s, info := RunOf(Init(workers), labels), Subs.FirstInfo(BusLabels(labels), p);
      && s.bus.dispatching == map[]
      && StrandAt(s, k).pending == [] && StrandAt(s, k).finished == StrandAt(s, k).started == StrandAt(s, k).submitted
      && (info.Some? && info.value.strand == Some(k) ==>
            Got(s, p, thread, k) == Subs.Due(BusLabels(labels), p, thread, false))
  {
    StartHolds(workers);
    RunsKeepInv(Init(workers), labels);
    var s := RunOf(Init(workers), labels);
    ThreadsReturn(s);
    StrandMoves(s, k);
    StrandReachable(s, k);
    Liveness.StuckIsDrained(workers, StrandAt(s, k));
    if Subs.FirstInfo(BusLabels(labels), p).Some? {
      StateFollowsCalls(workers, labels, p, thread);
      if s.bus.infos[p].strand == Some(k) { GotIsPrefix(s, p, thread, k); }
    }
  }
}
