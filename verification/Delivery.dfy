/** Publishing: any number of threads dispatch messages over the subscription lists
    (src/msg/message.cc:70-81, src/msg/node.cc:30-38) into strands, each of which is taken at the
    specification that StrandTheorems.RunRefinesSerial proves of it. EndToEnd puts the strands'
    protocol in its place. */
module Delivery {
  import opened Totals
  import opened Serial
  import opened Registry
  import opened Sequences

  type Node = nat

  // What a subscriber's job delivers.
  datatype Job = Job(node: Node, message: Message)

  // A thread inside Dispatch: its message and the subscribers it has not reached yet. It holds the
  // subscription lock for reading.
  datatype Dispatching = Dispatching(message: Message, left: seq<Node>)

  // `published` lists the messages in the order their dispatch began; a subscription covers those
  // from `since` on, up to `until` once it has ended.
  datatype Window = Window(since: nat, until: Option<nat>)

  datatype State = State(
    lists: map<Channel, seq<Node>>,
    infos: map<(Node, Channel), Info>,
    dispatching: map<nat, Dispatching>,
    strands: map<nat, Executor<Job>>,
    loose: seq<Job>,
    missed: bool,
    published: seq<Message>,
    windows: map<(Node, Channel), Window>
  )

  datatype Label =
    | Subscribe(node: Node, channel: Channel, info: Info)
    | Unsubscribe(node: Node, channel: Channel)
    | Publish(message: Message)
    | Deliver(thread: nat)
    | EndPublish(thread: nat)
    | Run(strand: nat, event: Event<Job>)

  const INIT := State(map[], map[], map[], map[], [], false, [], map[])

  function StrandOf(s: State, k: nat): Executor<Job>
  {
    if k in s.strands then s.strands[k] else Executor([], None, [])
  }

  predicate Enabled(s: State, l: Label)
  {
    match l
    // The write lock; a destructor unsubscribes, and a destroyed node subscribes no more.
    case Subscribe(n, c, _) => s.dispatching == map[] && ((n, c) in s.windows ==> s.windows[(n, c)].until.None?)
    case Unsubscribe(n, c) => s.dispatching == map[] && n in ListOf(s.lists, c)
    // The read lock, which any number of threads can hold.
    case Publish(m) => m.thread !in s.dispatching
    case Deliver(t) => t in s.dispatching && s.dispatching[t].left != []
    case EndPublish(t) => t in s.dispatching && s.dispatching[t].left == []
    case Run(k, e) => !e.Submit? && Allowed(StrandOf(s, k), e)
  }

  // AddMessageToRunner: the job goes to the subscription's strand, or straight to the runner.
  function AddJob(s: State, n: Node, m: Message): State
  {
    if (n, m.channel) !in s.infos then s.(missed := true)
    else
      var strand := s.infos[(n, m.channel)].strand;
      if strand.None? then s.(loose := s.loose + [Job(n, m)])
      else s.(strands := s.strands[strand.value := After(StrandOf(s, strand.value), Submit(Job(n, m)))])
  }

  function Apply(s: State, l: Label): State
    requires Enabled(s, l)
  {
    match l
    case Subscribe(n, c, info) =>
      if n in ListOf(s.lists, c) then s
      else
        s.(lists := s.lists[c := ListOf(s.lists, c) + [n]],
           infos := if (n, c) in s.infos then s.infos else s.infos[(n, c) := info],
           windows := s.windows[(n, c) := Window(|s.published|, None)])
    case Unsubscribe(n, c) =>
      s.(lists := s.lists[c := Without(s.lists[c], n)],
         windows := if (n, c) in s.windows
                    then s.windows[(n, c) := s.windows[(n, c)].(until := Some(|s.published|))] else s.windows)
    case Publish(m) =>
      s.(published := s.published + [m],
         dispatching := s.dispatching[m.thread := Dispatching(m, ListOf(s.lists, m.channel))])
    case Deliver(t) =>
      var d := s.dispatching[t];
      AddJob(s, d.left[0], d.message).(dispatching := s.dispatching[t := d.(left := d.left[1..])])
    case EndPublish(t) => s.(dispatching := s.dispatching - {t})
    case Run(k, e) => s.(strands := s.strands[k := After(StrandOf(s, k), e)])
  }

  predicate CanRun(s: State, labels: seq<Label>)
    decreases |labels|
  {
    labels == [] || (Enabled(s, labels[0]) && CanRun(Apply(s, labels[0]), labels[1..]))
  }

  function RunOf(s: State, labels: seq<Label>): State
    requires CanRun(s, labels)
    decreases |labels|
  {
    if labels == [] then s else RunOf(Apply(s, labels[0]), labels[1..])
  }

  ghost predicate Reachable(s: State)
  {
    exists labels :: CanRun(INIT, labels) && RunOf(INIT, labels) == s
  }

  lemma {:induction false} RunExtends(s: State, labels: seq<Label>, l: Label)
    requires CanRun(s, labels) && Enabled(RunOf(s, labels), l)
    ensures CanRun(s, labels + [l]) && RunOf(s, labels + [l]) == Apply(RunOf(s, labels), l)
    decreases |labels|
  {
    if labels == [] {
      assert [l][1..] == [];
    } else {
      RunExtends(Apply(s, labels[0]), labels[1..], l);
      assert (labels + [l])[1..] == labels[1..] + [l];
    }
  }

  lemma {:induction false} ReachesOn(s: State, l: Label)
    requires Reachable(s) && Enabled(s, l)
    ensures Reachable(Apply(s, l))
  {
    var labels :| CanRun(INIT, labels) && RunOf(INIT, labels) == s;
    RunExtends(INIT, labels, l);
    assert CanRun(INIT, labels + [l]);
  }

  // ---------------------------------------------------------------- sent and received

  /** What a thread published on a channel while a subscription lasted. */
  function Sent(published: seq<Message>, thread: nat, c: Channel, w: Window): seq<Message>
  {
    if published == [] then []
    else
      var n := |published| - 1;
      Sent(published[..n], thread, c, w)
        + if published[n].thread == thread && published[n].channel == c
             && w.since <= n && (w.until.Some? ==> n < w.until.value)
          then [published[n]] else []
  }

  /** What a subscriber got from a thread on a channel, in the order of the jobs. */
  function Received(jobs: seq<Job>, thread: nat, n: Node, c: Channel): seq<Message>
  {
    if jobs == [] then []
    else
      var j := jobs[|jobs| - 1];
      Received(jobs[..|jobs| - 1], thread, n, c)
        + if j.node == n && j.message.thread == thread && j.message.channel == c then [j.message] else []
  }

  // The jobs of a subscription's strand in the order they were added, or those without a strand.
  function Jobs(s: State, info: Info): seq<Job>
  {
    if info.strand.None? then s.loose else History(StrandOf(s, info.strand.value))
  }

  // What the thread is just dispatching and has not brought to the node yet.
  function Underway(s: State, thread: nat, n: Node, c: Channel): seq<Message>
  {
    if thread in s.dispatching && s.dispatching[thread].message.channel == c && n in s.dispatching[thread].left
    then [s.dispatching[thread].message] else []
  }

  // ---------------------------------------------------------------- the invariant

  ghost predicate Registered(s: State)
  {
    && !s.missed
    && (forall c :: c in s.lists ==> Distinct(s.lists[c]))
    && (forall n, c :: n in ListOf(s.lists, c) <==> (n, c) in s.windows && s.windows[(n, c)].until.None?)
    && (forall p :: p in s.infos <==> p in s.windows)
    && (forall p :: p in s.windows ==> s.windows[p].since <= |s.published|)
    && (forall p :: p in s.windows && s.windows[p].until.Some? ==> s.windows[p].until.value <= |s.published|)
    && (forall t :: t in s.dispatching ==>
          var d := s.dispatching[t];
          && d.message.thread == t && Distinct(d.left)
          && forall n :: n in d.left ==> n in ListOf(s.lists, d.message.channel))
  }

  // Everything sent is received in the same order, or underway.
  ghost predicate InStep(s: State, p: (Node, Channel), thread: nat)
    requires p in s.windows && p in s.infos
  {
    Sent(s.published, thread, p.1, s.windows[p])
    == Received(Jobs(s, s.infos[p]), thread, p.0, p.1) + Underway(s, thread, p.0, p.1)
  }

  // Every job is where its subscription put it.
  ghost predicate AllHome(infos: map<(Node, Channel), Info>, jobs: seq<Job>, strand: Option<nat>)
  {
    forall i :: 0 <= i < |jobs| ==>
      var p := (jobs[i].node, jobs[i].message.channel);
      p in infos && infos[p].strand == strand
  }

  ghost predicate Homed(s: State)
  {
    && AllHome(s.infos, s.loose, None)
    && forall k :: k in s.strands ==> AllHome(s.infos, History(s.strands[k]), Some(k))
  }

  ghost predicate Inv(s: State)
  {
    && Registered(s) && Homed(s)
    && forall p, thread :: p in s.windows ==> InStep(s, p, thread)
  }

  lemma {:induction false} ReceivedMore(jobs: seq<Job>, j: Job, thread: nat, n: Node, c: Channel)
    ensures Received(jobs + [j], thread, n, c) == Received(jobs, thread, n, c)
              + if j.node == n && j.message.thread == thread && j.message.channel == c then [j.message] else []
  {
    assert (jobs + [j])[..|jobs|] == jobs;
  }

  lemma {:induction false} SentMore(published: seq<Message>, m: Message, thread: nat, c: Channel, w: Window)
    requires w.since <= |published| && (w.until.Some? ==> w.until.value <= |published|)
    ensures Sent(published + [m], thread, c, w) == Sent(published, thread, c, w)
              + if m.thread == thread && m.channel == c && w.until.None? then [m] else []
  {
    assert (published + [m])[..|published|] == published;
  }

  lemma {:induction false} NothingSentYet(published: seq<Message>, thread: nat, c: Channel, w: Window)
    requires w.since >= |published|
    ensures Sent(published, thread, c, w) == []
  {
    if published != [] {
      NothingSentYet(published[..|published| - 1], thread, c, w);
    }
  }

  lemma {:induction false} NothingReceivedYet(jobs: seq<Job>, thread: nat, n: Node, c: Channel)
    requires forall i :: 0 <= i < |jobs| ==> (jobs[i].node, jobs[i].message.channel) != (n, c)
    ensures Received(jobs, thread, n, c) == []
  {
    if jobs != [] {
      NothingReceivedYet(jobs[..|jobs| - 1], thread, n, c);
    }
  }

  lemma {:induction false} SentEnds(published: seq<Message>, thread: nat, c: Channel, w: Window, end: nat)
    requires w.until.None? && |published| <= end
    ensures Sent(published, thread, c, w.(until := Some(end))) == Sent(published, thread, c, w)
  {
    if published != [] {
      SentEnds(published[..|published| - 1], thread, c, w, end);
    }
  }

  // ---------------------------------------------------------------- every step keeps it

  lemma {:induction false} DistinctRest(left: seq<Node>)
    requires Distinct(left) && left != []
    ensures left[0] !in left[1..] && Distinct(left[1..])
    ensures forall n :: n in left <==> n == left[0] || n in left[1..]
  {
    assert left == [left[0]] + left[1..];
  }

  lemma {:induction false} SubscribeKeepsRegistered(s: State, n: Node, c: Channel, info: Info)
    requires Registered(s) && Enabled(s, Subscribe(n, c, info))
    ensures Registered(Apply(s, Subscribe(n, c, info)))
  {
    assert forall m :: m in ListOf(s.lists, c) + [n] <==> m in ListOf(s.lists, c) || m == n;
  }

  lemma {:induction false} UnsubscribeKeepsRegistered(s: State, n: Node, c: Channel)
    requires Registered(s) && Enabled(s, Unsubscribe(n, c))
    ensures Registered(Apply(s, Unsubscribe(n, c)))
  {
    WithoutKeepsOthers(s.lists[c], n);
  }

  lemma {:induction false} DispatchKeepsRegistered(s: State, l: Label)
    requires Registered(s) && Enabled(s, l) && (l.Publish? || l.EndPublish? || l.Run?)
    ensures Registered(Apply(s, l))
  {
  }

  // The subscriber's callback is found, so no job is lost.
  lemma {:induction false} DeliverKeepsRegistered(s: State, t: nat)
    requires Registered(s) && Enabled(s, Deliver(t))
    ensures (s.dispatching[t].left[0], s.dispatching[t].message.channel) in s.infos
    ensures Registered(Apply(s, Deliver(t)))
  {
    var d := s.dispatching[t];
    DistinctRest(d.left);
    assert d.left[0] in ListOf(s.lists, d.message.channel);
  }

  lemma {:induction false} KeepsRegistered(s: State, l: Label)
    requires Registered(s) && Enabled(s, l)
    ensures Registered(Apply(s, l))
  {
    match l
    case Subscribe(n, c, info) => SubscribeKeepsRegistered(s, n, c, info);
    case Unsubscribe(n, c) => UnsubscribeKeepsRegistered(s, n, c);
    case Deliver(t) => DeliverKeepsRegistered(s, t);
    case _ => DispatchKeepsRegistered(s, l);
  }

  lemma {:induction false} HomeMore(infos: map<(Node, Channel), Info>, jobs: seq<Job>, j: Job, strand: Option<nat>)
    requires AllHome(infos, jobs, strand) && (j.node, j.message.channel) in infos
    requires infos[(j.node, j.message.channel)].strand == strand
    ensures AllHome(infos, jobs + [j], strand)
  {
  }

  lemma {:induction false} DeliverKeepsHomed(s: State, t: nat)
    requires Registered(s) && Homed(s) && Enabled(s, Deliver(t))
    ensures Homed(Apply(s, Deliver(t)))
  {
    DeliverKeepsRegistered(s, t);
    var d := s.dispatching[t];
    var j := Job(d.left[0], d.message);
    var strand := s.infos[(j.node, d.message.channel)].strand;
    if strand.None? {
      HomeMore(s.infos, s.loose, j, strand);
    } else {
      HistoryOnlyGrows(StrandOf(s, strand.value), Submit(j));
      HomeMore(s.infos, History(StrandOf(s, strand.value)), j, strand);
    }
  }

  lemma {:induction false} KeepsHomed(s: State, l: Label)
    requires Registered(s) && Homed(s) && Enabled(s, l)
    ensures Homed(Apply(s, l))
  {
    match l
    case Deliver(t) => DeliverKeepsHomed(s, t);
    case Run(k, e) =>
      HistoryOnlyGrows(StrandOf(s, k), e);
      assert History(StrandOf(s, k)) + [] == History(StrandOf(s, k));
    case _ =>
  }

  lemma {:induction false} PublishBegins(s: State, m: Message, p: (Node, Channel), thread: nat)
    requires Registered(s) && Enabled(s, Publish(m)) && p in s.windows
    ensures var more := m.thread == thread && m.channel == p.1 && s.windows[p].until.None?;
      Underway(Apply(s, Publish(m)), thread, p.0, p.1) == Underway(s, thread, p.0, p.1) + if more then [m] else []
  {
    assert p.0 in ListOf(s.lists, p.1) <==> s.windows[p].until.None?;
  }

  lemma {:induction false} PublishFrame(s: State, m: Message, info: Info)
    requires Enabled(s, Publish(m))
    ensures var s' := Apply(s, Publish(m));
      && s'.published == s.published + [m] && s'.windows == s.windows && s'.infos == s.infos
      && Jobs(s', info) == Jobs(s, info)
  {
  }

  lemma {:induction false} PublishKeepsStep(s: State, m: Message, p: (Node, Channel), thread: nat)
    requires Registered(s) && Enabled(s, Publish(m)) && p in s.windows && InStep(s, p, thread)
    ensures InStep(Apply(s, Publish(m)), p, thread)
  {
    SentMore(s.published, m, thread, p.1, s.windows[p]);
    PublishBegins(s, m, p, thread);
    PublishFrame(s, m, s.infos[p]);
    var more := m.thread == thread && m.channel == p.1 && s.windows[p].until.None?;
    Regroup(Received(Jobs(s, s.infos[p]), thread, p.0, p.1), Underway(s, thread, p.0, p.1), if more then [m] else []);
  }

  lemma {:induction false} JobsGrow(s: State, n: Node, m: Message, info: Info)
    requires (n, m.channel) in s.infos
    ensures Jobs(AddJob(s, n, m), info)
            == Jobs(s, info) + if s.infos[(n, m.channel)].strand == info.strand then [Job(n, m)] else []
  {
    var strand := s.infos[(n, m.channel)].strand;
    assert Jobs(s, info) + [] == Jobs(s, info);
    if strand.Some? {
      HistoryOnlyGrows(StrandOf(s, strand.value), Submit(Job(n, m)));
    }
  }

  lemma {:induction false} DeliverAddsJob(s: State, t: nat, info: Info)
    requires Enabled(s, Deliver(t)) && (s.dispatching[t].left[0], s.dispatching[t].message.channel) in s.infos
    ensures var n, m := s.dispatching[t].left[0], s.dispatching[t].message;
      Jobs(Apply(s, Deliver(t)), info)
      == Jobs(s, info) + if s.infos[(n, m.channel)].strand == info.strand then [Job(n, m)] else []
  {
    JobsGrow(s, s.dispatching[t].left[0], s.dispatching[t].message, info);
  }

  lemma {:induction false} ReceivedAfter(jobs: seq<Job>, j: Job, added: bool, thread: nat, n: Node, c: Channel)
    ensures Received(jobs + if added then [j] else [], thread, n, c)
            == Received(jobs, thread, n, c)
               + if added && j.node == n && j.message.thread == thread && j.message.channel == c
                 then [j.message] else []
  {
    if added {
      ReceivedMore(jobs, j, thread, n, c);
    } else {
      Empty(jobs);
      Empty(Received(jobs, thread, n, c));
    }
  }

  // What reaching a subscriber changes, as far as one subscription can tell.
  lemma {:induction false} DeliverAdds(s: State, t: nat, p: (Node, Channel), thread: nat)
    requires Registered(s) && Enabled(s, Deliver(t)) && p in s.infos
    ensures var s', d := Apply(s, Deliver(t)), s.dispatching[t];
      var mine := thread == t && p == (d.left[0], d.message.channel);
      Received(Jobs(s', s.infos[p]), thread, p.0, p.1)
         == Received(Jobs(s, s.infos[p]), thread, p.0, p.1) + if mine then [d.message] else []
  {
    DeliverKeepsRegistered(s, t);
    var d, jobs := s.dispatching[t], Jobs(s, s.infos[p]);
    DeliverAddsJob(s, t, s.infos[p]);
    ReceivedAfter(jobs, Job(d.left[0], d.message),
                  s.infos[(d.left[0], d.message.channel)].strand == s.infos[p].strand, thread, p.0, p.1);
  }

  lemma {:induction false} DeliverFrame(s: State, t: nat)
    requires Enabled(s, Deliver(t))
    ensures var s' := Apply(s, Deliver(t));
      s'.published == s.published && s'.windows == s.windows && s'.infos == s.infos
  {
    AddJobFrame(s, s.dispatching[t].left[0], s.dispatching[t].message);
  }

  lemma {:induction false} AddJobFrame(s: State, n: Node, m: Message)
    ensures var s' := AddJob(s, n, m);
      s'.published == s.published && s'.windows == s.windows && s'.infos == s.infos
  {
    if (n, m.channel) in s.infos {
      if s.infos[(n, m.channel)].strand.Some? {}
    }
  }

  lemma {:induction false} DeliverReaches(s: State, t: nat, p: (Node, Channel), thread: nat)
    requires Registered(s) && Enabled(s, Deliver(t))
    ensures var s', d := Apply(s, Deliver(t)), s.dispatching[t];
      var mine := thread == t && p == (d.left[0], d.message.channel);
      Underway(s, thread, p.0, p.1) == (if mine then [d.message] else []) + Underway(s', thread, p.0, p.1)
  {
    DistinctRest(s.dispatching[t].left);
  }

  lemma {:induction false} DeliverKeepsStep(s: State, t: nat, p: (Node, Channel), thread: nat)
    requires Registered(s) && Enabled(s, Deliver(t)) && p in s.windows && InStep(s, p, thread)
    ensures p in Apply(s, Deliver(t)).windows && p in Apply(s, Deliver(t)).infos
    ensures InStep(Apply(s, Deliver(t)), p, thread)
  {
    var s', d := Apply(s, Deliver(t)), s.dispatching[t];
    DeliverFrame(s, t);
    DeliverAdds(s, t, p, thread);
    DeliverReaches(s, t, p, thread);
    Regroup(Received(Jobs(s, s.infos[p]), thread, p.0, p.1),
            if thread == t && p == (d.left[0], d.message.channel) then [d.message] else [],
            Underway(s', thread, p.0, p.1));
  }

  lemma {:induction false} SubscribeKeepsStep(s: State, l: Label, p: (Node, Channel), thread: nat)
    requires Registered(s) && Homed(s) && Enabled(s, l) && l.Subscribe? && p in Apply(s, l).windows
    requires p in s.windows ==> InStep(s, p, thread)
    ensures p in Apply(s, l).infos && InStep(Apply(s, l), p, thread)
  {
    if p !in s.windows {
      var s' := Apply(s, l);
      NothingSentYet(s.published, thread, p.1, s'.windows[p]);
      var jobs := Jobs(s, s'.infos[p]);
      assert AllHome(s.infos, jobs, s'.infos[p].strand);
      NothingReceivedYet(jobs, thread, p.0, p.1);
    }
  }

  lemma {:induction false} UnsubscribeFrame(s: State, n: Node, c: Channel, info: Info)
    requires Enabled(s, Unsubscribe(n, c))
    ensures var s' := Apply(s, Unsubscribe(n, c));
      && s'.published == s.published && s'.infos == s.infos && s'.dispatching == s.dispatching
      && Jobs(s', info) == Jobs(s, info)
  {
  }

  lemma {:induction false} UnsubscribeKeepsStep(s: State, n: Node, c: Channel, p: (Node, Channel), thread: nat)
    requires Registered(s) && Enabled(s, Unsubscribe(n, c)) && p in s.windows && InStep(s, p, thread)
    ensures InStep(Apply(s, Unsubscribe(n, c)), p, thread)
  {
    UnsubscribeFrame(s, n, c, s.infos[p]);
    if p == (n, c) {
      SentEnds(s.published, thread, c, s.windows[p], |s.published|);
    }
  }

  lemma {:induction false} RunKeepsJobs(s: State, k: nat, e: Event<Job>, info: Info)
    requires Enabled(s, Run(k, e))
    ensures Jobs(Apply(s, Run(k, e)), info) == Jobs(s, info)
  {
    HistoryOnlyGrows(StrandOf(s, k), e);
    Empty(History(StrandOf(s, k)));
  }

  lemma {:induction false} RunKeepsStep(s: State, k: nat, e: Event<Job>, p: (Node, Channel), thread: nat)
    requires Enabled(s, Run(k, e)) && p in s.windows && p in s.infos && InStep(s, p, thread)
    ensures InStep(Apply(s, Run(k, e)), p, thread)
  {
    RunKeepsJobs(s, k, e, s.infos[p]);
  }

  lemma {:induction false} EndKeepsStep(s: State, t: nat, p: (Node, Channel), thread: nat)
    requires Enabled(s, EndPublish(t)) && p in s.windows && p in s.infos && InStep(s, p, thread)
    ensures InStep(Apply(s, EndPublish(t)), p, thread)
  {
    var s' := Apply(s, EndPublish(t));
    assert Underway(s', thread, p.0, p.1) == Underway(s, thread, p.0, p.1);
    assert Jobs(s', s.infos[p]) == Jobs(s, s.infos[p]);
  }

  lemma {:induction false} KeepsStep(s: State, l: Label, p: (Node, Channel), thread: nat)
    requires Registered(s) && Homed(s) && Enabled(s, l) && p in Apply(s, l).windows
    requires p in s.windows ==> InStep(s, p, thread)
    ensures p in Apply(s, l).infos && InStep(Apply(s, l), p, thread)
  {
    match l
    case Subscribe(_, _, _) => SubscribeKeepsStep(s, l, p, thread);
    case Unsubscribe(n, c) => UnsubscribeKeepsStep(s, n, c, p, thread);
    case Publish(m) => PublishKeepsStep(s, m, p, thread);
    case Deliver(t) => DeliverKeepsStep(s, t, p, thread);
    case Run(k, e) => RunKeepsStep(s, k, e, p, thread);
    case EndPublish(t) => EndKeepsStep(s, t, p, thread);
  }

  lemma {:induction false} KeepsInv(s: State, l: Label)
    requires Inv(s) && Enabled(s, l)
    ensures Inv(Apply(s, l))
  {
    KeepsRegistered(s, l);
    KeepsHomed(s, l);
    forall p, thread | p in Apply(s, l).windows ensures InStep(Apply(s, l), p, thread) {
      KeepsStep(s, l, p, thread);
    }
  }

  lemma {:induction false} RunsKeepInv(s: State, labels: seq<Label>)
    requires Inv(s) && CanRun(s, labels)
    ensures Inv(RunOf(s, labels))
    decreases |labels|
  {
    if labels != [] {
      KeepsInv(s, labels[0]);
      RunsKeepInv(Apply(s, labels[0]), labels[1..]);
    }
  }

  // ---------------------------------------------------------------- what subscribers see

  lemma {:induction false} ReceivedJoins(a: seq<Job>, b: seq<Job>, thread: nat, n: Node, c: Channel)
    ensures Received(a + b, thread, n, c) == Received(a, thread, n, c) + Received(b, thread, n, c)
  {
    if b == [] {
      assert a + b == a;
    } else {
      assert (a + b)[..|a + b| - 1] == a + b[..|b| - 1];
      ReceivedJoins(a, b[..|b| - 1], thread, n, c);
    }
  }

  lemma {:induction false} StartHolds()
    ensures Inv(INIT)
  {
  }

  lemma {:induction false} ReachableInv(s: State)
    requires Reachable(s)
    ensures Inv(s)
  {
    StartHolds();
    var labels :| CanRun(INIT, labels) && RunOf(INIT, labels) == s;
    RunsKeepInv(INIT, labels);
  }

  /** The registry is consistent at every moment of a dispatch: a subscriber that is reached has its
      callback. */
  lemma {:induction false} NoCallbackIsMissed(labels: seq<Label>)
    requires CanRun(INIT, labels)
    ensures var s := RunOf(INIT, labels);
      && !s.missed
      && forall t :: t in s.dispatching ==>
           var d := s.dispatching[t];
           forall n :: n in d.left ==> (n, d.message.channel) in s.infos
  {
    StartHolds();
    RunsKeepInv(INIT, labels);
  }

  /** While it is subscribed, a node's jobs carry exactly what each thread publishes on the channel,
      once each and in the order of publishing, save for a message the thread is just dispatching. */
  lemma {:induction false} DispatchKeepsOrder(labels: seq<Label>, p: (Node, Channel), thread: nat)
    requires CanRun(INIT, labels) && p in RunOf(INIT, labels).infos
    ensures var s := RunOf(INIT, labels);
      && p in s.windows
      && Sent(s.published, thread, p.1, s.windows[p])
         == Received(Jobs(s, s.infos[p]), thread, p.0, p.1) + Underway(s, thread, p.0, p.1)
  {
    StartHolds();
    RunsKeepInv(INIT, labels);
    assert InStep(RunOf(INIT, labels), p, thread);
  }

  /** Nothing of a subscription goes to a strand that is not its own. */
  lemma {:induction false} NoOtherStrandGetsIt(labels: seq<Label>, p: (Node, Channel), info: Info, thread: nat)
    requires CanRun(INIT, labels) && p in RunOf(INIT, labels).infos
    requires info.strand != RunOf(INIT, labels).infos[p].strand
    ensures Received(Jobs(RunOf(INIT, labels), info), thread, p.0, p.1) == []
  {
    StartHolds();
    RunsKeepInv(INIT, labels);
    var s := RunOf(INIT, labels);
    assert AllHome(s.infos, Jobs(s, info), info.strand);
    NothingReceivedYet(Jobs(s, info), thread, p.0, p.1);
  }

  lemma {:induction false} CallbackStays(s: State, l: Label, p: (Node, Channel))
    requires Enabled(s, l) && p in s.infos
    ensures p in Apply(s, l).infos && Apply(s, l).infos[p] == s.infos[p]
  {
  }

  /** The first callback and strand of a subscription stay. */
  lemma {:induction false} FirstCallbackWins(s: State, labels: seq<Label>, p: (Node, Channel))
    requires CanRun(s, labels) && p in s.infos
    ensures p in RunOf(s, labels).infos && RunOf(s, labels).infos[p] == s.infos[p]
    decreases |labels|
  {
    if labels != [] {
      CallbackStays(s, labels[0], p);
      FirstCallbackWins(Apply(s, labels[0]), labels[1..], p);
    }
  }
}
