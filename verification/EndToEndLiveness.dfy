/** The joint system cannot go on for ever by itself: without new subscriptions, messages and foreign
    jobs every run is finite, and by EndToEnd.RestMeansDelivered it ends with everything delivered. */
module EndToEndLiveness {
  import opened Totals
  import opened EndToEnd
  import D = Delivery
  import S = Strand
  import Theorems = StrandTheorems
  import Liveness = StrandLiveness

  ghost function StrandWeight(): S.State -> nat
  {
    (q: S.State) => Liveness.Work(q)
  }

  // What a dispatching thread has left to do: the subscribers to reach, and where it is in AddJob.
  function Phase(s: State, t: nat): nat
    requires t in s.bus.dispatching
  {
    var left := 20 * |s.bus.dispatching[t].left|;
    if t !in s.inside then left + 1
    else if Entering(StrandAt(s, s.inside[t].strand), s.inside[t].job) then (if left == 0 then 0 else left - 15)
    else left + 2
  }

  ghost function Phases(s: State): map<nat, nat>
  {
    map t | t in s.bus.dispatching :: Phase(s, t)
  }

  ghost function PhaseWeight(): nat -> nat
  {
    (n: nat) => n
  }

  /** An upper bound on the number of actions left. */
  ghost function Work(s: State): nat
  {
    Total(s.strands, StrandWeight()) + Total(Phases(s), PhaseWeight())
  }

  lemma {:induction false} InitHasNoWork(workers: nat)
    ensures Liveness.Work(S.Init(workers)) == 0
  {
    NothingQueued(S.Init(workers).queues);
  }

  lemma {:induction false} NothingQueued(queues: seq<seq<S.Item>>)
    requires forall w :: 0 <= w < |queues| ==> queues[w] == []
    ensures Liveness.Queued(queues) == 0
  {
    if queues != [] { NothingQueued(queues[1..]); }
  }

  lemma {:induction false} StrandChanges(s: State, k: nat, q: S.State)
    ensures Total(s.strands[k := q], StrandWeight()) + Liveness.Work(StrandAt(s, k))
            == Total(s.strands, StrandWeight()) + Liveness.Work(q)
  {
    if k in s.strands {
      TotalUpdate(s.strands, k, q, StrandWeight());
    } else {
      InitHasNoWork(s.workers);
      TotalInsert(s.strands, k, q, StrandWeight());
    }
  }

  // One thread moves on.
  lemma {:induction false} PhaseChanges(s: State, s': State, t: nat)
    requires t in s.bus.dispatching && s'.bus.dispatching.Keys == s.bus.dispatching.Keys
    requires forall u :: u in s.bus.dispatching && u != t ==> Phase(s', u) == Phase(s, u)
    ensures Total(Phases(s'), PhaseWeight()) + Phase(s, t) == Total(Phases(s), PhaseWeight()) + Phase(s', t)
  {
    assert Phases(s') == Phases(s)[t := Phase(s', t)];
    TotalUpdate(Phases(s), t, Phase(s', t), PhaseWeight());
  }

  lemma {:induction false} BeginAddsWork(q: S.State, j: S.JobId, plain: bool)
    requires S.Inv(q) && S.Enabled(q, S.BeginAdd(j, plain))
    ensures Liveness.Work(S.Apply(q, S.BeginAdd(j, plain))) == Liveness.Work(q) + 13
  {
    TotalInsert(q.calls, S.Add(j), S.Enqueue, Liveness.Rank);
  }

  // A call that is entering is only moved by its own next step.
  lemma {:induction false} EnteringStays(q: S.State, l: S.Label, j: S.JobId)
    requires S.Enabled(q, l) && l != S.Advance(S.Add(j)) && j in q.known && Entering(q, j)
    ensures Entering(S.Apply(q, l), j)
  {
    match l
    case Advance(c) => OtherStays(q, c, S.Add(j));
    case BeginAdd(_, _) =>
    case BeginTry(_, _, _) =>
    case BeginForeign(_) =>
    case PushTo(_, _) =>
    case Take(_) =>
    case CopyToken(_) =>
    case MoveToken(_) =>
    case DropToken(_) =>
    case EndBody(_) =>
  }

  lemma {:induction false} OthersEnter(s: State, q: S.State, l: S.Label, k: nat, u: nat)
    requires CallsMatch(s) && q == StrandAt(s, k) && S.Enabled(q, l) && u in s.inside
    requires s.inside[u].strand == k ==> l != S.Advance(S.Add(s.inside[u].job))
    ensures var j := s.inside[u].job;
      s.inside[u].strand == k ==> (Entering(S.Apply(q, l), j) <==> Entering(q, j))
  {
    var j := s.inside[u].job;
    if s.inside[u].strand == k {
      assert Enters(q, j);
      AddStays(q, l, j);
      if Entering(q, j) { EnteringStays(q, l, j); }
    }
  }

  // Strand k moves on to q; thread u is where it was.
  lemma {:induction false} PhaseStays(s: State, s': State, k: nat, q: S.State, u: nat)
    requires s'.workers == s.workers && s'.strands == s.strands[k := q]
    requires u in s.bus.dispatching && u in s'.bus.dispatching
    requires s'.bus.dispatching[u] == s.bus.dispatching[u]
    requires u in s.inside <==> u in s'.inside
    requires u in s.inside ==> s'.inside[u] == s.inside[u]
    requires u in s.inside && s.inside[u].strand == k ==>
               (Entering(q, s.inside[u].job) <==> Entering(StrandAt(s, k), s.inside[u].job))
    ensures Phase(s', u) == Phase(s, u)
  {
  }

  lemma {:induction false} StrandMovesOn(s: State, k: nat, q: S.State)
    requires Liveness.Work(q) < Liveness.Work(StrandAt(s, k))
    requires forall u :: u in s.inside && s.inside[u].strand == k ==>
               (Entering(q, s.inside[u].job) <==> Entering(StrandAt(s, k), s.inside[u].job))
    ensures Work(s.(strands := s.strands[k := q])) < Work(s)
  {
    var s' := s.(strands := s.strands[k := q]);
    StrandChanges(s, k, q);
    forall u | u in s.bus.dispatching ensures Phase(s', u) == Phase(s, u) {
      PhaseStays(s, s', k, q, u);
    }
    assert Phases(s') == Phases(s);
  }

  lemma {:induction false} StrandTakesWork(s: State, k: nat, l: S.Label)
    requires Inv(s) && Enabled(s, OfStrand(k, l)) && !Liveness.Environment(l)
    ensures Work(Apply(s, OfStrand(k, l))) < Work(s)
  {
    var q := StrandAt(s, k);
    StrandReachable(s, k);
    Liveness.ActionsTakeWork(s.workers, q, l);
    EnteringUnmoved(s, k, l);
    StrandMovesOn(s, k, S.Apply(q, l));
  }

  lemma {:induction false} EnteringUnmoved(s: State, k: nat, l: S.Label)
    requires CallsMatch(s) && Enabled(s, OfStrand(k, l))
    ensures var q := StrandAt(s, k);
      forall u :: u in s.inside && s.inside[u].strand == k ==>
        (Entering(S.Apply(q, l), s.inside[u].job) <==> Entering(q, s.inside[u].job))
  {
    var q := StrandAt(s, k);
    forall u | u in s.inside && s.inside[u].strand == k
      ensures Entering(S.Apply(q, l), s.inside[u].job) <==> Entering(q, s.inside[u].job)
    {
      assert Enters(q, s.inside[u].job);
      if l == S.Advance(S.Add(s.inside[u].job)) {
        StepLeavesEntering(q, s.inside[u].job);
      } else {
        OthersEnter(s, q, l, k, u);
      }
    }
  }

  lemma {:induction false} StepLeavesEntering(q: S.State, j: S.JobId)
    requires S.Enabled(q, S.Advance(S.Add(j))) && Enters(q, j) && !Entering(q, j)
    ensures !Entering(S.Apply(q, S.Advance(S.Add(j))), j)
  {
    AddStays(q, S.Advance(S.Add(j)), j);
  }

  lemma {:induction false} CallMovesOn(s: State, s': State, t: nat, k: nat, j: S.JobId, q: S.State)
    requires t in s.bus.dispatching && s.bus.dispatching[t].left != [] && t !in s.inside
    requires s'.workers == s.workers && s'.bus == s.bus && s'.strands == s.strands[k := q]
    requires s'.inside == s.inside[t := Inside(k, j)] && Entering(q, j)
    requires Liveness.Work(q) == Liveness.Work(StrandAt(s, k)) + 13
    requires forall u :: u in s.inside && s.inside[u].strand == k ==>
               (Entering(q, s.inside[u].job) <==> Entering(StrandAt(s, k), s.inside[u].job))
    ensures Work(s') < Work(s)
  {
    StrandChanges(s, k, q);
    forall u | u in s.bus.dispatching && u != t ensures Phase(s', u) == Phase(s, u) {
      PhaseStays(s, s', k, q, u);
    }
    PhaseChanges(s, s', t);
  }

  lemma {:induction false} CallTakesWork(s: State, t: nat, j: S.JobId, plain: bool)
    requires Inv(s) && Enabled(s, Call(t, j, plain))
    ensures Work(Apply(s, Call(t, j, plain))) < Work(s)
  {
    var k := Target(s.bus, t).value;
    var q, l := StrandAt(s, k), S.BeginAdd(j, plain);
    StrandReachable(s, k);
    BeginAddsWork(q, j, plain);
    BeginAccepts(q, j, plain);
    forall u | u in s.inside && s.inside[u].strand == k
      ensures Entering(S.Apply(q, l), s.inside[u].job) <==> Entering(q, s.inside[u].job)
    {
      OthersEnter(s, q, l, k, u);
    }
    CallMovesOn(s, Apply(s, Call(t, j, plain)), t, k, j, S.Apply(q, l));
  }

  lemma {:induction false} EnqueueMovesOn(s: State, s': State, t: nat, q: S.State)
    requires t in s.bus.dispatching && s.bus.dispatching[t].left != [] && t in s.inside
    requires var k, j := s.inside[t].strand, s.inside[t].job;
      && Entering(StrandAt(s, k), j) && !Entering(q, j) && s'.strands == s.strands[k := q]
      && Liveness.Work(q) < Liveness.Work(StrandAt(s, k))
    requires s'.workers == s.workers && s'.inside == s.inside && t in s'.bus.dispatching
    requires s'.bus.dispatching == s.bus.dispatching[t := s'.bus.dispatching[t]]
    requires |s'.bus.dispatching[t].left| == |s.bus.dispatching[t].left| - 1
    requires forall u :: u in s.inside && u != t && s.inside[u].strand == s.inside[t].strand ==>
               (Entering(q, s.inside[u].job) <==> Entering(StrandAt(s, s.inside[t].strand), s.inside[u].job))
    ensures Work(s') < Work(s)
  {
    StrandChanges(s, s.inside[t].strand, q);
    forall u | u in s.bus.dispatching && u != t ensures Phase(s', u) == Phase(s, u) {
      PhaseStays(s, s', s.inside[t].strand, q, u);
    }
    PhaseChanges(s, s', t);
  }

  lemma {:induction false} EnqueueTakesWork(s: State, t: nat)
    requires Inv(s) && Enabled(s, Enqueue(t))
    ensures Work(Apply(s, Enqueue(t))) < Work(s)
  {
    var k, j := s.inside[t].strand, s.inside[t].job;
    var q, l := StrandAt(s, k), S.Advance(S.Add(j));
    StrandReachable(s, k);
    EnqueueAccepts(q, j);
    Liveness.ActionsTakeWork(s.workers, q, l);
    DeliverKeepsThreads(s.bus, t);
    forall u | u in s.inside && u != t && s.inside[u].strand == k
      ensures Entering(S.Apply(q, l), s.inside[u].job) <==> Entering(q, s.inside[u].job)
    {
      assert s.inside[u] != s.inside[t];
      OthersEnter(s, q, l, k, u);
    }
    EnqueueMovesOn(s, Apply(s, Enqueue(t)), t, S.Apply(q, l));
  }

  lemma {:induction false} DeliverKeepsThreads(bus: D.State, t: nat)
    requires D.Enabled(bus, D.Deliver(t))
    ensures var bus' := D.Apply(bus, D.Deliver(t));
      && t in bus'.dispatching
      && bus'.dispatching == bus.dispatching[t := bus'.dispatching[t]]
      && |bus'.dispatching[t].left| == |bus.dispatching[t].left| - 1
  {
  }

  lemma {:induction false} ReturnTakesWork(s: State, t: nat)
    requires t in s.inside && t in s.bus.dispatching && S.Add(s.inside[t].job) !in StrandAt(s, s.inside[t].strand).calls
    ensures Work(s.(inside := s.inside - {t})) < Work(s)
  {
    var s' := s.(inside := s.inside - {t});
    forall u | u in s.bus.dispatching && u != t ensures Phase(s', u) == Phase(s, u) {}
    PhaseChanges(s, s', t);
  }

  // A subscriber without a strand is reached in one step.
  lemma {:induction false} BusMovesOn(s: State, bus: D.State, t: nat)
    requires t in s.bus.dispatching && s.bus.dispatching[t].left != [] && t !in s.inside && t in bus.dispatching
    requires bus.dispatching == s.bus.dispatching[t := bus.dispatching[t]]
    requires |bus.dispatching[t].left| == |s.bus.dispatching[t].left| - 1
    ensures Work(s.(bus := bus)) < Work(s)
  {
    var s' := s.(bus := bus);
    forall u | u in s.bus.dispatching && u != t ensures Phase(s', u) == Phase(s, u) {}
    PhaseChanges(s, s', t);
  }

  lemma {:induction false} ThreadEnds(s: State, bus: D.State, t: nat)
    requires t in s.bus.dispatching && t !in s.inside && bus.dispatching == s.bus.dispatching - {t}
    ensures Work(s.(bus := bus)) < Work(s)
  {
    assert Phases(s.(bus := bus)) == Phases(s) - {t};
    TotalSplit(Phases(s), t, PhaseWeight());
  }

  lemma {:induction false} BusTakesWork(s: State, step: D.Label)
    requires Enabled(s, Bus(step)) && (step.Deliver? || step.EndPublish?)
    ensures Work(s.(bus := D.Apply(s.bus, step))) < Work(s)
  {
    if step.Deliver? {
      DeliverKeepsThreads(s.bus, step.thread);
      BusMovesOn(s, D.Apply(s.bus, step), step.thread);
    } else {
      ThreadEnds(s, D.Apply(s.bus, step), step.thread);
    }
  }

  /** Every step that is not the users' choice uses up some of the work. */
  lemma {:induction false} StepsTakeWork(s: State, l: Label)
    requires Inv(s) && Enabled(s, l) && !Outside(l)
    ensures Work(Apply(s, l)) < Work(s)
  {
    match l
    case Bus(step) => BusTakesWork(s, step);
    case Call(t, j, plain) => CallTakesWork(s, t, j, plain);
    case Enqueue(t) => EnqueueTakesWork(s, t);
    case Return(t) => ReturnTakesWork(s, t);
    case OfStrand(k, action) => StrandTakesWork(s, k, action);
  }

  /** So a run in which nobody subscribes, publishes or brings foreign jobs is no longer than the work
      at its start. */
  lemma {:induction false} RunsAreShort(s: State, labels: seq<Label>)
    requires Inv(s) && CanRun(s, labels) && forall l :: l in labels ==> !Outside(l)
    ensures |labels| + Work(RunOf(s, labels)) <= Work(s)
    decreases |labels|
  {
    if labels != [] {
      StepsTakeWork(s, labels[0]);
      KeepsInv(s, labels[0]);
      RunsAreShort(Apply(s, labels[0]), labels[1..]);
    }
  }

  /** And from every state that can be reached some such run comes to rest. */
  lemma {:induction false} CanRest(s: State) returns (labels: seq<Label>)
    requires Inv(s)
    ensures CanRun(s, labels) && (forall l :: l in labels ==> !Outside(l)) && Quiet(RunOf(s, labels))
    decreases Work(s)
  {
    if Quiet(s) {
      labels := [];
    } else {
      var l :| Enabled(s, l) && !Outside(l);
      StepsTakeWork(s, l);
      KeepsInv(s, l);
      var rest := CanRest(Apply(s, l));
      labels := [l] + rest;
      assert labels[1..] == rest;
    }
  }
}
