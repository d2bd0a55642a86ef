/** The subscription registry of src/msg/message.cc and the subscriber's side of it in
    src/msg/node.cc. Every method runs under the subscription lock, as its callers hold it. */
module Registry {
  import opened Totals

  // A message type and a sub id.
  datatype Channel = Channel(kind: string, subId: nat)

  // A callback, by number, and the strand its jobs go to, if any.
  datatype Info = Info(callback: nat, strand: Option<nat>)

  datatype Message = Message(channel: Channel, thread: nat, body: nat)

  ghost predicate Distinct<T>(s: seq<T>)
  {
    forall i, k :: 0 <= i < k < |s| ==> s[i] != s[k]
  }

  function ListOf<T>(subs: map<Channel, seq<T>>, channel: Channel): seq<T>
  {
    if channel in subs then subs[channel] else []
  }

  // std::erase
  function Without<T(==)>(s: seq<T>, x: T): seq<T>
  {
    if s == [] then [] else Without(s[..|s| - 1], x) + if s[|s| - 1] == x then [] else [s[|s| - 1]]
  }

  lemma {:induction false} WithoutKeepsOthers<T>(s: seq<T>, x: T)
    requires Distinct(s)
    ensures x !in Without(s, x) && Distinct(Without(s, x))
    ensures forall y :: y in Without(s, x) <==> y in s && y != x
    ensures x !in s ==> Without(s, x) == s
  {
    if s != [] {
      var init, last := s[..|s| - 1], s[|s| - 1];
      WithoutKeepsOthers(init, x);
      assert s == init + [last];
      assert last !in init;
      assert Distinct(Without(init, x) + if last == x then [] else [last]);
    }
  }

  /** The others keep their order. */
  lemma {:induction false} WithoutKeepsOrder<T>(before: seq<T>, x: T, after: seq<T>)
    requires x !in before && x !in after
    ensures Without(before + [x] + after, x) == before + after
  {
    if after == [] {
      assert before + [x] + after == before + [x] && (before + [x])[..|before|] == before && before + after == before;
      WithoutNone(before, x);
    } else {
      var init, last := after[..|after| - 1], after[|after| - 1];
      WithoutKeepsOrder(before, x, init);
      assert (before + [x] + after)[..|before + after|] == before + [x] + init;
      assert after == init + [last];
    }
  }

  lemma {:induction false} WithoutNone<T>(s: seq<T>, x: T)
    requires x !in s
    ensures Without(s, x) == s
  {
    if s != [] {
      WithoutNone(s[..|s| - 1], x);
      assert s == s[..|s| - 1] + [s[|s| - 1]];
    }
  }

  class CRNode {
    const canSubscribe: bool
    // Whether the runner the node is bound to still exists.
    var runnerAlive: bool
    var subscribed: seq<Channel>
    var callbacks: map<Channel, Info>
    // The jobs handed to the runner.
    var jobs: seq<(Info, Message)>

    constructor (canSubscribe: bool)
      ensures this.canSubscribe == canSubscribe && runnerAlive == canSubscribe
      ensures subscribed == [] && callbacks == map[] && jobs == []
    {
      this.canSubscribe, runnerAlive := canSubscribe, canSubscribe;
      subscribed, callbacks, jobs := [], map[], [];
    }

    function GetSubscriptionInfo(message: Message): (info: Option<Info>)
      reads this
      ensures info.Some? <==> message.channel in callbacks
      ensures info.Some? ==> info.value == callbacks[message.channel]
    {
      if message.channel in callbacks then Some(callbacks[message.channel]) else None
    }

    method AddMessageToRunner(message: Message) returns (success: bool)
      modifies this`jobs
      ensures success == (message.channel in callbacks && runnerAlive)
      ensures jobs == old(jobs) + if success then [(callbacks[message.channel], message)] else []
    {
      var info := GetSubscriptionInfo(message);
      success := info.Some? && runnerAlive;
      if success {
        jobs := jobs + [(info.value, message)];
      }
    }

    /** Enters the node in the channel's list and keeps the callback. The first subscription wins:
        a later one of the same channel changes nothing. */
    method SubscribeImpl(registry: SubscriptionMap, channel: Channel, info: Info)
      requires canSubscribe && registry.Valid() && this in registry.live
      modifies this`subscribed, this`callbacks, registry`subs
      ensures registry.Valid()
      ensures old(channel in callbacks) ==>
                callbacks == old(callbacks) && subscribed == old(subscribed) && registry.subs == old(registry.subs)
      ensures !old(channel in callbacks) ==>
                && callbacks == old(callbacks)[channel := info] && subscribed == old(subscribed) + [channel]
                && registry.subs == old(registry.subs)[channel := ListOf(old(registry.subs), channel) + [this]]
      ensures forall message: Message :: message.channel == channel ==>
                GetSubscriptionInfo(message)
                == Some(if old(channel in callbacks) then old(callbacks)[channel] else info)
    {
      var entered := registry.Subscribe(channel, this);
      if !entered {
        return;
      }
      assert forall node :: node in registry.live && node != this ==> node.subscribed == old(node.subscribed);
      subscribed := subscribed + [channel];
      if channel !in callbacks {
        callbacks := callbacks[channel := info];
      }
      registry.OneEntered(channel, this, old(registry.subs));
    }

    // The loop of the destructor.
    method UnsubscribeAll(registry: SubscriptionMap)
      requires Distinct(subscribed)
      modifies registry`subs
      ensures registry.subs.Keys == old(registry.subs).Keys
      ensures forall c :: c in registry.subs ==>
                registry.subs[c] == if c in subscribed then Without(old(registry.subs)[c], this)
                                    else old(registry.subs)[c]
    {
      ghost var before := registry.subs;
      for n := 0 to |subscribed|
        invariant registry.subs.Keys == before.Keys
        invariant forall c :: c in before ==>
                    registry.subs[c] == if c in subscribed[..n] then Without(before[c], this) else before[c]
      {
        assert subscribed[n] !in subscribed[..n];
        assert subscribed[..n + 1] == subscribed[..n] + [subscribed[n]];
        registry.Unsubscribe(subscribed[n], this);
      }
      assert subscribed[..|subscribed|] == subscribed;
    }

    /** The destructor: afterwards the node is in no list, and the other subscribers keep theirs. */
    method Destroy(registry: SubscriptionMap)
      requires registry.Valid() && this in registry.live
      modifies registry
      ensures registry.Valid() && registry.live == old(registry.live) - {this}
      ensures registry.subs.Keys == old(registry.subs.Keys)
      ensures forall channel :: channel in registry.subs ==>
                registry.subs[channel] == Without(old(registry.subs)[channel], this) && this !in registry.subs[channel]
    {
      ghost var before := registry.subs;
      UnsubscribeAll(registry);
      registry.OneLeft(this, before);
      registry.live := registry.live - {this};
    }
  }

  class SubscriptionMap {
    var subs: map<Channel, seq<CRNode>>
    // The nodes that are not destroyed.
    ghost var live: set<CRNode>

    constructor ()
      ensures Valid() && subs == map[] && live == {}
    {
      subs, live := map[], {};
    }

    // A live node is in a channel's list exactly when the channel is in its own two records.
    ghost predicate Valid()
      reads this, live
    {
      && (forall channel :: channel in subs ==>
            Distinct(subs[channel]) && forall node :: node in subs[channel] ==> node in live)
      && (forall node :: node in live ==> Distinct(node.subscribed))
      && (forall node, channel :: node in live ==>
            && (channel in node.callbacks <==> node in ListOf(subs, channel))
            && (channel in node.subscribed <==> node in ListOf(subs, channel)))
    }

    // A node that was just constructed.
    ghost method Admit(node: CRNode)
      requires Valid() && node !in live && node.subscribed == [] && node.callbacks == map[]
      modifies this`live
      ensures Valid() && live == old(live) + {node}
    {
      live := live + {node};
    }

    lemma {:induction false} OneEntered(channel: Channel, node: CRNode, before: map<Channel, seq<CRNode>>)
      requires node in live && node !in ListOf(before, channel)
      requires subs == before[channel := ListOf(before, channel) + [node]]
      requires forall c :: c in before ==> Distinct(before[c]) && forall other :: other in before[c] ==> other in live
      requires forall other :: other in live ==> Distinct(other.subscribed)
      requires forall other, c :: other in live && (other != node || c != channel) ==>
                 && (c in other.callbacks <==> other in ListOf(before, c))
                 && (c in other.subscribed <==> other in ListOf(before, c))
      requires channel in node.callbacks && channel in node.subscribed
      ensures Valid()
    {
      forall other, c | other in live
        ensures other in ListOf(subs, c) <==> other in ListOf(before, c) || (other == node && c == channel)
      {
        if c == channel {
          assert ListOf(subs, c) == ListOf(before, c) + [node];
        }
      }
    }

    lemma {:induction false} OneLeft(node: CRNode, before: map<Channel, seq<CRNode>>)
      requires node in live && subs.Keys == before.Keys
      requires forall c :: c in before ==> Distinct(before[c])
      requires forall c :: c in before ==>
                 subs[c] == if c in node.subscribed then Without(before[c], node) else before[c]
      requires forall c :: c in node.subscribed <==> node in ListOf(before, c)
      ensures forall c :: c in subs ==> subs[c] == Without(before[c], node) && Distinct(subs[c])
      ensures forall c, other :: other in ListOf(subs, c) <==> other in ListOf(before, c) && other != node
    {
      forall c | c in subs
        ensures subs[c] == Without(before[c], node) && Distinct(subs[c])
        ensures forall other :: other in subs[c] <==> other in before[c] && other != node
      {
        WithoutKeepsOthers(before[c], node);
        assert c in node.subscribed <==> node in ListOf(before, c);
      }
    }

    /** Dispatch never misses a callback: a live node finds one for exactly the messages of the channels
        in whose lists it is. */
    lemma {:induction false} ListedFindsCallback(node: CRNode, message: Message)
      requires Valid() && node in live
      ensures node.GetSubscriptionInfo(message).Some? <==> node in ListOf(subs, message.channel)
      ensures node in ListOf(subs, message.channel) ==>
                node.GetSubscriptionInfo(message) == Some(node.callbacks[message.channel])
    {
    }

    method Subscribe(channel: Channel, node: CRNode) returns (entered: bool)
      modifies this`subs
      ensures entered == (node !in ListOf(old(subs), channel))
      ensures entered ==> subs == old(subs)[channel := ListOf(old(subs), channel) + [node]]
      ensures !entered ==> subs == old(subs)
    {
      var list := ListOf(subs, channel);
      subs := subs[channel := list];
      if node in list {
        return false;
      }
      subs := subs[channel := list + [node]];
      return true;
    }

    method Unsubscribe(channel: Channel, node: CRNode)
      modifies this`subs
      ensures channel !in old(subs) ==> subs == old(subs)
      ensures channel in old(subs) ==> subs == old(subs)[channel := Without(old(subs)[channel], node)]
    {
      if channel !in subs {
        return;
      }
      subs := subs[channel := Without(subs[channel], node)];
    }

    /** Reaches every subscriber of the channel once and nobody else; no callback is missing. */
    method Dispatch(message: Message)
      requires Valid()
      modifies live`jobs
      ensures Valid()
      ensures forall node :: node in live ==>
                if node in ListOf(subs, message.channel) && node.runnerAlive
                then node.GetSubscriptionInfo(message).Some?
                     && node.jobs == old(node.jobs) + [(node.callbacks[message.channel], message)]
                else node.jobs == old(node.jobs)
    {
      if message.channel !in subs {
        return;
      }
      var list := subs[message.channel];
      assert Distinct(list);
      for n := 0 to |list|
        invariant forall node :: node in live ==>
                    if node in list[..n] && node.runnerAlive
                    then message.channel in node.callbacks
                         && node.jobs == old(node.jobs) + [(node.callbacks[message.channel], message)]
                    else node.jobs == old(node.jobs)
      {
        var node := list[n];
        assert node !in list[..n];
        assert node in ListOf(subs, message.channel);
        var success := node.AddMessageToRunner(message);
        assert list[..n + 1] == list[..n] + [node];
      }
      assert list[..|list|] == list;
    }
  }
}
