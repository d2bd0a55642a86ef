/** The subscriptions of src/msg/node.cc and src/msg/message.cc over whole runs of Delivery, told from
    the calls alone: which callback and strand a subscriber has, while it is subscribed, and what it
    is to get. */
module Subscriptions {
  import opened Totals
  import opened Registry
  import opened Serial
  import opened Sequences
  import opened Delivery

  /** What the first call of Subscribe for the node and channel gave. */
  function FirstInfo(labels: seq<Label>, p: (Node, Channel)): Option<Info>
    decreases |labels|
  {
    if labels == [] then None
    else if InfoOf(labels[0], p).Some? then InfoOf(labels[0], p)
    else FirstInfo(labels[1..], p)
  }

  function InfoOf(l: Label, p: (Node, Channel)): Option<Info>
  {
    if l.Subscribe? && (l.node, l.channel) == p then Some(l.info) else None
  }

  /** Whether the node is subscribed after the calls, if it was, or was not, before. */
  function SubscribedAfter(labels: seq<Label>, p: (Node, Channel), before: bool): bool
    decreases |labels|
  {
    if labels == [] then before else SubscribedAfter(labels[1..], p, Switched(labels[0], p, before))
  }

  predicate Switched(l: Label, p: (Node, Channel), before: bool)
  {
    match l
    case Subscribe(n, c, _) => (n, c) == p || before
    case Unsubscribe(n, c) => (n, c) != p && before
    case Publish(_) => before
    case Deliver(_) => before
    case EndPublish(_) => before
    case Run(_, _) => before
  }

  /** What the thread publishes on the channel while the node is subscribed. */
  function Due(labels: seq<Label>, p: (Node, Channel), thread: nat, subscribed: bool): seq<Message>
    decreases |labels|
  {
    if labels == [] then []
    else
      DueNow(labels[0], p, thread, subscribed) + Due(labels[1..], p, thread, Switched(labels[0], p, subscribed))
  }

  function DueNow(l: Label, p: (Node, Channel), thread: nat, subscribed: bool): seq<Message>
  {
    if subscribed && l.Publish? && l.message.thread == thread && l.message.channel == p.1 then [l.message] else []
  }

  // ---------------------------------------------------------------- one step

  predicate Listed(s: State, p: (Node, Channel))
  {
    p.0 in ListOf(s.lists, p.1)
  }

  // What was sent to the subscription so far.
  function SentSoFar(s: State, p: (Node, Channel), thread: nat): seq<Message>
  {
    if p in s.windows then Sent(s.published, thread, p.1, s.windows[p]) else []
  }

  lemma {:induction false} StepSwitches(s: State, l: Label, p: (Node, Channel))
    requires Registered(s) && Enabled(s, l)
    ensures Listed(Apply(s, l), p) <==> Switched(l, p, Listed(s, p))
  {
    match l
    case Subscribe(n, c, _) =>
      assert forall m :: m in ListOf(s.lists, c) + [n] <==> m in ListOf(s.lists, c) || m == n;
    case Unsubscribe(n, c) => WithoutKeepsOthers(s.lists[c], n);
    case Publish(_) =>
    case Deliver(t) => AddJobLists(s, s.dispatching[t].left[0], s.dispatching[t].message);
    case EndPublish(_) =>
    case Run(_, _) =>
  }

  lemma {:induction false} AddJobLists(s: State, n: Node, m: Message)
    ensures AddJob(s, n, m).lists == s.lists
  {
    if (n, m.channel) in s.infos {
      if s.infos[(n, m.channel)].strand.Some? {}
    }
  }

  lemma {:induction false} StepKeepsInfo(s: State, l: Label, p: (Node, Channel))
    requires Registered(s) && Enabled(s, l)
    ensures var s' := Apply(s, l);
      if p in s.infos then p in s'.infos && s'.infos[p] == s.infos[p]
      else if InfoOf(l, p).Some? then p in s'.infos && s'.infos[p] == InfoOf(l, p).value
      else p !in s'.infos
  {
    match l
    case Subscribe(n, c, _) => assert Listed(s, (n, c)) ==> (n, c) in s.infos;
    case Unsubscribe(_, _) =>
    case Publish(_) =>
    case Deliver(t) => AddJobFrame(s, s.dispatching[t].left[0], s.dispatching[t].message);
    case EndPublish(_) =>
    case Run(_, _) =>
  }

  lemma {:induction false} StepSends(s: State, l: Label, p: (Node, Channel), thread: nat)
    requires Registered(s) && Enabled(s, l)
    ensures SentSoFar(Apply(s, l), p, thread) == SentSoFar(s, p, thread) + DueNow(l, p, thread, Listed(s, p))
  {
    Empty(SentSoFar(s, p, thread));
    match l
    case Subscribe(n, c, _) => SubscribeSends(s, l, p, thread);
    case Unsubscribe(n, c) =>
      if p == (n, c) { SentEnds(s.published, thread, c, s.windows[p], |s.published|); }
    case Publish(m) =>
      if p in s.windows { SentMore(s.published, m, thread, p.1, s.windows[p]); }
    case Deliver(t) => AddJobFrame(s, s.dispatching[t].left[0], s.dispatching[t].message);
    case EndPublish(_) =>
    case Run(_, _) =>
  }

  lemma {:induction false} SubscribeSends(s: State, l: Label, p: (Node, Channel), thread: nat)
    requires Registered(s) && Enabled(s, l) && l.Subscribe?
    ensures SentSoFar(Apply(s, l), p, thread) == SentSoFar(s, p, thread)
  {
    if p == (l.node, l.channel) && !Listed(s, p) {
      NothingSentYet(s.published, thread, p.1, Window(|s.published|, None));
    }
  }

  // ---------------------------------------------------------------- whole runs

  lemma {:induction false} InfoOfRun(s: State, labels: seq<Label>, p: (Node, Channel))
    requires Registered(s) && CanRun(s, labels)
    ensures var t := RunOf(s, labels);
      if p in s.infos then p in t.infos && t.infos[p] == s.infos[p]
      else if FirstInfo(labels, p).Some? then p in t.infos && t.infos[p] == FirstInfo(labels, p).value
      else p !in t.infos
    decreases |labels|
  {
    if labels != [] {
      StepKeepsInfo(s, labels[0], p);
      KeepsRegistered(s, labels[0]);
      InfoOfRun(Apply(s, labels[0]), labels[1..], p);
    }
  }

  lemma {:induction false} ListsOfRun(s: State, labels: seq<Label>, p: (Node, Channel))
    requires Registered(s) && CanRun(s, labels)
    ensures Listed(RunOf(s, labels), p) <==> SubscribedAfter(labels, p, Listed(s, p))
    decreases |labels|
  {
    if labels != [] {
      StepSwitches(s, labels[0], p);
      KeepsRegistered(s, labels[0]);
      ListsOfRun(Apply(s, labels[0]), labels[1..], p);
    }
  }

  lemma {:induction false} SentOfRun(s: State, labels: seq<Label>, p: (Node, Channel), thread: nat)
    requires Registered(s) && CanRun(s, labels)
    ensures SentSoFar(RunOf(s, labels), p, thread)
            == SentSoFar(s, p, thread) + Due(labels, p, thread, Listed(s, p))
    decreases |labels|
  {
    if labels == [] {
      Empty(SentSoFar(s, p, thread));
    } else {
      var next := Apply(s, labels[0]);
      StepSends(s, labels[0], p, thread);
      StepSwitches(s, labels[0], p);
      KeepsRegistered(s, labels[0]);
      SentOfRun(next, labels[1..], p, thread);
      Regroup(SentSoFar(s, p, thread), DueNow(labels[0], p, thread, Listed(s, p)),
              Due(labels[1..], p, thread, Listed(next, p)));
    }
  }

  lemma {:induction false} StartIsRegistered()
    ensures Registered(INIT)
  {
  }

  /** After any run a node has the callback and the strand that its first call of Subscribe for the
      channel gave, and is in the channel's list exactly from such a call on until it unsubscribes. */
  lemma {:induction false} FirstCallDecides(labels: seq<Label>, p: (Node, Channel))
    requires CanRun(INIT, labels)
    ensures var s := RunOf(INIT, labels);
      && (p in s.infos <==> FirstInfo(labels, p).Some?)
      && (p in s.infos ==> s.infos[p] == FirstInfo(labels, p).value)
      && (p.0 in ListOf(s.lists, p.1) <==> SubscribedAfter(labels, p, false))
      && (p.0 in ListOf(s.lists, p.1) <==> p in s.windows && s.windows[p].until.None?)
  {
    StartIsRegistered();
    InfoOfRun(INIT, labels, p);
    ListsOfRun(INIT, labels, p);
    StartHolds();
    RunsKeepInv(INIT, labels);
  }

  /** And its window covers exactly what was published while it was subscribed. */
  lemma {:induction false} WindowIsDue(labels: seq<Label>, p: (Node, Channel), thread: nat)
    requires CanRun(INIT, labels) && FirstInfo(labels, p).Some?
    ensures var s := RunOf(INIT, labels);
      p in s.windows && Sent(s.published, thread, p.1, s.windows[p]) == Due(labels, p, thread, false)
  {
    StartIsRegistered();
    InfoOfRun(INIT, labels, p);
    SentOfRun(INIT, labels, p, thread);
    StartHolds();
    RunsKeepInv(INIT, labels);
  }

  /** Dispatching, from the calls alone: the jobs of a subscriber, on the strand its first call of
      Subscribe gave or on none, carry exactly what each thread publishes on the channel while it is
      subscribed, once each and in order, save for a message just being dispatched. */
  lemma {:induction false} SubscriberGetsDue(labels: seq<Label>, p: (Node, Channel), thread: nat)
    requires CanRun(INIT, labels) && FirstInfo(labels, p).Some?
    ensures var s := RunOf(INIT, labels);
      Due(labels, p, thread, false)
      == Received(Jobs(s, FirstInfo(labels, p).value), thread, p.0, p.1) + Underway(s, thread, p.0, p.1)
  {
    FirstCallDecides(labels, p);
    WindowIsDue(labels, p, thread);
    DispatchKeepsOrder(labels, p, thread);
  }

  // ---------------------------------------------------------------- the strands

  function Starts(labels: seq<Label>, k: nat): nat
    decreases |labels|
  {
    if labels == [] then 0 else (if labels[0] == Run(k, Start) then 1 else 0) + Starts(labels[1..], k)
  }

  function Finishes(labels: seq<Label>, k: nat): nat
    decreases |labels|
  {
    if labels == [] then 0 else (if labels[0] == Run(k, Finish) then 1 else 0) + Finishes(labels[1..], k)
  }

  lemma {:induction false} StepRunsStrand(s: State, l: Label, k: nat)
    requires Enabled(s, l)
    ensures var x, y := StrandOf(s, k), StrandOf(Apply(s, l), k);
      && |Begun(y)| == |Begun(x)| + (if l == Run(k, Start) then 1 else 0)
      && |y.done| == |x.done| + (if l == Run(k, Finish) then 1 else 0)
      && History(x) <= History(y)
  {
    match l
    case Subscribe(_, _, _) =>
    case Unsubscribe(_, _) =>
    case Publish(_) =>
    case Deliver(t) => AddJobRunsStrand(s, s.dispatching[t].left[0], s.dispatching[t].message, k);
    case EndPublish(_) =>
    case Run(m, e) => HistoryOnlyGrows(StrandOf(s, m), e);
  }

  lemma {:induction false} AddJobRunsStrand(s: State, n: Node, m: Message, k: nat)
    ensures var x, y := StrandOf(s, k), StrandOf(AddJob(s, n, m), k);
      Begun(y) == Begun(x) && y.done == x.done && History(x) <= History(y)
  {
    SubmitWaits(StrandOf(s, k), Job(n, m));
    if (n, m.channel) in s.infos && s.infos[(n, m.channel)].strand.Some? {
      AddJobSubmits(s, n, m, k);
    }
  }

  lemma {:induction false} SubmitWaits(x: Executor<Job>, j: Job)
    ensures Begun(After(x, Submit(j))) == Begun(x) && After(x, Submit(j)).done == x.done
    ensures History(x) <= History(After(x, Submit(j)))
  {
    HistoryOnlyGrows(x, Submit(j));
  }

  lemma {:induction false} AddJobSubmits(s: State, n: Node, m: Message, k: nat)
    requires (n, m.channel) in s.infos && s.infos[(n, m.channel)].strand.Some?
    ensures StrandOf(AddJob(s, n, m), k)
            == if s.infos[(n, m.channel)].strand.value == k then After(StrandOf(s, k), Submit(Job(n, m)))
               else StrandOf(s, k)
  {
  }

  /** A strand has called as many of its jobs as it was started, from the first one on. */
  lemma {:induction false} StrandsRunInTurn(s: State, labels: seq<Label>, k: nat)
    requires CanRun(s, labels)
    ensures var x, y := StrandOf(s, k), StrandOf(RunOf(s, labels), k);
      && |Begun(y)| == |Begun(x)| + Starts(labels, k) && |y.done| == |x.done| + Finishes(labels, k)
      && Begun(y) <= History(y) && History(x) <= History(y)
    decreases |labels|
  {
    if labels != [] {
      StepRunsStrand(s, labels[0], k);
      StrandsRunInTurn(Apply(s, labels[0]), labels[1..], k);
    }
  }
}
