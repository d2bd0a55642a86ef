/** The worker queues of src/sched/job_runner.cc, whose jobs come off by their own worker or by
    another one that found nothing to do. What leaves a queue here is step Take of the strand
    protocol. */
module Workers {
  import opened Totals
  import opened Strand

  // How many probes after `start` the search comes to worker `w` of `n`.
  function Probes(start: nat, w: nat, n: nat): nat
    requires start < n && w < n
  {
    if w >= start then w - start else w + n - start
  }

  /** The i-th probe is of the worker i places on, so each worker is probed once. */
  lemma {:induction false} ProbesInTurn(start: nat, i: nat, w: nat, n: nat)
    requires start < n && i < n && w < n
    ensures Probes(start, w, n) < n
    ensures Probes(start, w, n) == i <==> w == if start + i < n then start + i else start + i - n
  {
  }

  predicate TakenFrom(before: seq<seq<Item>>, w: nat, item: Item, after: seq<seq<Item>>)
    requires w < |before|
  {
    before[w] != [] && item == before[w][0] && after == before[w := before[w][1..]]
  }

  class JobRunner {
    var queues: seq<seq<Item>>
    var readyForStealing: bool

    constructor (workers: nat)
      ensures queues == Init(workers).queues && readyForStealing
    {
      queues, readyForStealing := seq(workers, _ => []), true;
    }

    method TryGetOneJob(w: nat) returns (job: Option<Item>)
      requires w < |queues|
      modifies this`queues
      ensures job.None? <==> old(queues)[w] == []
      ensures job.None? ==> queues == old(queues)
      ensures job.Some? ==> TakenFrom(old(queues), w, job.value, queues)
    {
      if queues[w] == [] {
        return None;
      }
      job := Some(queues[w][0]);
      queues := queues[w := queues[w][1..]];
    }

    /** The queues change under the search: `views[i]` is how its i-th probe finds them, whatever
        the other threads did meanwhile. From whatever index it starts, the number of workers
        included, the search comes to each worker once. It gives up only if each queue was empty
        when it came there, and otherwise takes the oldest job of a worker. */
    method Steal(start: nat, views: seq<seq<seq<Item>>>) returns (job: Option<Item>)
      requires start <= |queues| && |views| == |queues|
      requires forall i :: 0 <= i < |views| ==> |views[i]| == |queues|
      modifies this`queues
      ensures var n := |views|; var first := if start == n then 0 else start;
        if job.None? then !readyForStealing || forall w: nat :: w < n ==> views[Probes(first, w, n)][w] == []
        else readyForStealing && exists w: nat :: w < n && TakenFrom(views[Probes(first, w, n)], w, job.value, queues)
      ensures (forall i :: 0 <= i < |views| ==> views[i] == old(queues)) ==>
                && (job.None? ==> queues == old(queues))
                && (job.None? <==> !readyForStealing || forall w :: 0 <= w < |views| ==> old(queues)[w] == [])
    {
      job := None;
      if !readyForStealing {
        return;
      }
      var n := |queues|;
      var idx: nat := start;
      ghost var first: nat := if start == n then 0 else start;
      var i := 0;
      while i < n
        invariant i <= n == |queues| && job.None? && 0 <= idx <= n && readyForStealing
        invariant i == 0 ==> queues == old(queues)
        invariant i > 0 ==> queues == views[i - 1]
        invariant i < n ==> Probes(first, if idx == n then 0 else idx, n) == i
        invariant forall w: nat :: w < n && Probes(first, w, n) < i ==> views[Probes(first, w, n)][w] == []
      {
        if idx >= n {
          idx := idx - n;
        }
        queues := views[i];
        job := TryGetOneJob(idx);
        if job.Some? {
          assert TakenFrom(views[Probes(first, idx, n)], idx, job.value, queues) && views[i][idx] != [];
          return;
        }
        idx, i := idx + 1, i + 1;
      }
      if forall k :: 0 <= k < n ==> views[k] == old(queues) {
        forall w: nat | w < n ensures old(queues)[w] == [] {
          assert Probes(first, w, n) < n && views[Probes(first, w, n)][w] == [];
        }
      }
    }
  }

  /** Taking a job off worker w's queue, by itself or by a thief, is step Take(w) of the strand
      protocol: the same queues, and a job of the strand is called. */
  lemma {:induction false} TakenIsTake(s: State, w: nat, item: Item, after: seq<seq<Item>>)
    requires w < |s.queues|
    ensures TakenFrom(s.queues, w, item, after)
            <==> Enabled(s, Take(w)) && item == s.queues[w][0] && after == Apply(s, Take(w)).queues
    ensures TakenFrom(s.queues, w, item, after) ==>
              Apply(s, Take(w)).started == s.started + if item.Job? then [item.job] else []
  {
    assert s.started + [] == s.started;
  }
}
