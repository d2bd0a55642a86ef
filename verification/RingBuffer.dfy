/** JobLockQueue of src/sched/job_lock_queue.cc: a ring buffer that grows in place, against a plain
    sequence. The mutex makes each method one atomic operation, so the methods are sequential. */
module RingBuffer {

  // ---------------------------------------------------------------- std::bit_ceil

  predicate PowerOfTwo(n: nat)
  {
    if n <= 1 then n == 1 else n % 2 == 0 && PowerOfTwo(n / 2)
  }

  function BitCeilFrom(power: nat, n: nat): nat
    requires power > 0
    decreases if n > power then n - power else 0
  {
    if power >= n then power else BitCeilFrom(2 * power, n)
  }

  /** The least power of two that is not below `n`. */
  function BitCeil(n: nat): nat
  {
    BitCeilFrom(1, n)
  }

  lemma {:induction false} DoublingReaches(power: nat, other: nat)
    requires PowerOfTwo(power) && PowerOfTwo(other) && power < other
    ensures 2 * power <= other
  {
    if power > 1 {
      DoublingReaches(power / 2, other / 2);
    }
  }

  lemma {:induction false} BitCeilFromIsLeast(power: nat, n: nat, other: nat)
    requires PowerOfTwo(power) && PowerOfTwo(other) && power <= other && n <= other
    ensures PowerOfTwo(BitCeilFrom(power, n)) && n <= BitCeilFrom(power, n) <= other
    decreases other - power
  {
    if power < n {
      DoublingReaches(power, other);
      BitCeilFromIsLeast(2 * power, n, other);
    }
  }

  lemma {:induction false} BitCeilFromIsPower(power: nat, n: nat)
    requires PowerOfTwo(power)
    ensures PowerOfTwo(BitCeilFrom(power, n)) && n <= BitCeilFrom(power, n)
    decreases if n > power then n - power else 0
  {
    if power < n {
      BitCeilFromIsPower(2 * power, n);
    }
  }

  /** BitCeil is the least power of two from `n` on. */
  lemma {:induction false} BitCeilIsLeast(n: nat, other: nat)
    ensures PowerOfTwo(BitCeil(n)) && n <= BitCeil(n)
    ensures PowerOfTwo(other) && n <= other ==> BitCeil(n) <= other
  {
    BitCeilFromIsPower(1, n);
    if PowerOfTwo(other) && n <= other {
      BitCeilFromIsLeast(1, n, other);
    }
  }

  // Growing from `capacity` to hold `target` jobs moves the tail [readHead, capacity) so that it
  // ends at the new capacity. std::move needs the destination to start outside the source.
  predicate MoveIsDisjoint(capacity: nat, readHead: nat, target: nat)
  {
    BitCeil(target) - capacity >= capacity - readHead
  }

  lemma {:induction false} HalfCeil(n: nat)
    requires n > 0
    ensures PowerOfTwo(BitCeil(n)) && n <= BitCeil(n) < 2 * n
  {
    BitCeilIsLeast(n, 0);
    var p := BitCeil(n);
    if p >= 2 * n {
      BitCeilIsLeast(n, p / 2);
    }
  }

  /** Growth never overlaps its own source exactly when the capacity is a power of two. Any other
      capacity already fails when a full buffer that starts at index 0 takes one more job. */
  lemma {:induction false} GrowthIsDisjoint(capacity: nat)
    requires capacity > 0
    ensures (forall readHead: nat, target: nat :: readHead < capacity < target ==>
               MoveIsDisjoint(capacity, readHead, target))
            <==> PowerOfTwo(capacity)
    ensures MoveIsDisjoint(capacity, 0, capacity + 1) <==> PowerOfTwo(capacity)
  {
    if PowerOfTwo(capacity) {
      forall target: nat | capacity < target ensures BitCeil(target) >= 2 * capacity {
        BitCeilIsLeast(target, 0);
        DoublingReaches(capacity, BitCeil(target));
      }
    } else {
      HalfCeil(capacity);
      BitCeilIsLeast(capacity + 1, BitCeil(capacity));
      assert !MoveIsDisjoint(capacity, 0, capacity + 1);
    }
  }

  // ---------------------------------------------------------------- the queue

  function Wrap(index: nat, capacity: nat): (slot: nat)
    ensures index < 2 * capacity ==> slot < capacity
  {
    if index >= capacity then index - capacity else index
  }

  /** The `size` jobs of a ring that start at `head`, oldest first. */
  function Ring<Job>(slots: seq<Job>, head: nat, size: nat): (r: seq<Job>)
    requires size <= |slots| && (head < |slots| || size == 0)
    ensures |r| == size
    ensures forall k :: 0 <= k < size ==> r[k] == slots[Wrap(head + k, |slots|)]
  {
    seq(size, k requires 0 <= k < size => slots[Wrap(head + k, |slots|)])
  }

  // Extending the slots leaves a ring that does not wrap where it is.
  lemma {:induction false} ExtendKeepsRing<Job>(slots: seq<Job>, longer: seq<Job>, head: nat, size: nat)
    requires slots <= longer && head + size <= |slots|
    requires head < |slots| || size == 0
    ensures Ring(longer, head, size) == Ring(slots, head, size)
  {
  }

  // Extending the slots and moving the tail to the new end keeps a ring that does.
  lemma {:induction false} MoveKeepsRing<Job>(slots: seq<Job>, longer: seq<Job>, head: nat, size: nat)
    requires slots <= longer && size <= |slots| && head < |slots| <= head + size
    requires 2 * |slots| - head <= |longer|
    requires longer[head + |longer| - |slots|..] == slots[head..]
    ensures Ring(longer, head + |longer| - |slots|, size) == Ring(slots, head, size)
  {
    var head' := head + |longer| - |slots|;
    forall k | 0 <= k < size
      ensures Ring(longer, head', size)[k] == Ring(slots, head, size)[k]
    {
      if head + k < |slots| {
        assert longer[head'..][k] == slots[head..][k];
      }
    }
  }

  lemma {:induction false} PrefixTail<Job>(slots: seq<Job>, longer: seq<Job>, head: nat)
    requires slots <= longer && head <= |slots|
    ensures longer[head..|slots|] == slots[head..]
  {
  }

  lemma {:induction false} MovedTail<Job>(slots: seq<Job>, longer: seq<Job>, dest: nat, n: nat)
    requires n <= |slots| <= dest && dest + n == |longer|
    requires longer[dest..dest + n] == slots[|slots| - n..]
    ensures longer[dest..] == slots[|slots| - n..]
  {
  }

  class JobLockQueue<Job(0)> {
    var jobs: array<Job>
    var readHead: nat
    var writeHead: nat
    var size: nat

    predicate Valid()
      reads this
    {
      && (jobs.Length == 0 || PowerOfTwo(jobs.Length))
      && size <= jobs.Length
      && (readHead < jobs.Length || (jobs.Length == 0 && readHead == 0))
      && writeHead == Wrap(readHead + size, jobs.Length)
    }

    /** The queued jobs, oldest first. */
    ghost function Contents(): seq<Job>
      requires Valid()
      reads this, jobs
    {
      Ring(jobs[..], readHead, size)
    }

    constructor (initCapacity: nat)
      requires initCapacity == 0 || PowerOfTwo(initCapacity)
      ensures Valid() && Contents() == [] && fresh(jobs) && jobs.Length == initCapacity
    {
      jobs := new Job[initCapacity];
      readHead, writeHead, size := 0, 0, 0;
    }

    // jobs_.resize: a longer array that starts with the old one.
    method Resize(capacity: nat)
      requires jobs.Length <= capacity
      modifies this`jobs
      ensures fresh(jobs) && jobs.Length == capacity && old(jobs[..]) <= jobs[..]
    {
      var grown := new Job[capacity];
      for i := 0 to jobs.Length
        invariant unchanged(this) && unchanged(jobs)
        invariant forall k :: 0 <= k < i ==> grown[k] == jobs[k]
      {
        grown[i] := jobs[i];
      }
      jobs := grown;
    }

    // std::move of jobs_[first, last) to `dest`, which must lie outside the source.
    method MoveForward(first: nat, last: nat, dest: nat)
      requires first <= last <= dest && dest + (last - first) <= jobs.Length
      modifies jobs
      ensures jobs[..dest] == old(jobs[..dest])
      ensures jobs[dest..dest + (last - first)] == old(jobs[first..last])
    {
      for i := first to last
        invariant jobs[..dest] == old(jobs[..dest])
        invariant jobs[dest..dest + (i - first)] == old(jobs[first..i])
      {
        jobs[dest + (i - first)] := jobs[i];
        assert jobs[i] == old(jobs[..dest])[i];
      }
    }

    // The move of the part before the end of the old array, `slots`, to the end of the new one.
    method MoveTail(original: nat, ghost slots: seq<Job>)
      requires |slots| == original && slots <= jobs[..] && size <= original
      requires readHead < original <= readHead + size && 2 * original - readHead <= jobs.Length
      modifies this`readHead, jobs
      ensures readHead == old(readHead) + jobs.Length - original
      ensures Ring(jobs[..], readHead, size) == Ring(slots, old(readHead), size)
    {
      var dest := readHead + jobs.Length - original;
      PrefixTail(slots, jobs[..], readHead);
      MoveForward(readHead, original, dest);
      MovedTail(slots, jobs[..], dest, original - readHead);
      MoveKeepsRing(slots, jobs[..], readHead, size);
      readHead := dest;
    }

    method ExpandUnsafe(target: nat)
      requires Valid()
      modifies this, jobs
      ensures Valid() && Contents() == old(Contents()) && size == old(size)
      ensures jobs.Length == if target <= old(jobs.Length) then old(jobs.Length) else BitCeil(target)
      ensures target <= jobs.Length
      ensures jobs == old(jobs) || fresh(jobs)
    {
      var original := jobs.Length;
      if target <= original {
        return;
      }
      BitCeilIsLeast(target, 0);
      ghost var slots := jobs[..];
      Resize(BitCeil(target));
      if readHead < writeHead || size == 0 {
        ExtendKeepsRing(slots, jobs[..], readHead, size);
        return;
      }
      GrowthIsDisjoint(original);
      assert MoveIsDisjoint(original, readHead, target);
      MoveTail(original, slots);
    }

    // Writes one job behind the `count` jobs already in the ring.
    method Store(job: Job, ghost count: nat)
      requires count < jobs.Length && readHead < jobs.Length && writeHead == Wrap(readHead + count, jobs.Length)
      modifies this`writeHead, jobs
      ensures writeHead == Wrap(readHead + count + 1, jobs.Length)
      ensures Ring(jobs[..], readHead, count + 1) == old(Ring(jobs[..], readHead, count)) + [job]
    {
      var after := writeHead + 1;
      if after >= jobs.Length {
        after := after - jobs.Length;
      }
      PushKeepsRing(jobs[..], readHead, count, job);
      jobs[writeHead] := job;
      writeHead := after;
    }

    method Push(job: Job)
      requires Valid()
      modifies this, jobs
      ensures Valid() && Contents() == old(Contents()) + [job]
      ensures jobs == old(jobs) || fresh(jobs)
    {
      ExpandUnsafe(size + 1);
      Store(job, size);
      size := size + 1;
    }

    // Writes the whole batch behind the jobs in the ring, leaving `size` as it is.
    method StoreAll(batch: seq<Job>)
      requires Valid() && size + |batch| <= jobs.Length
      modifies this`writeHead, jobs
      ensures writeHead == Wrap(readHead + size + |batch|, jobs.Length)
      ensures Ring(jobs[..], readHead, size + |batch|) == old(Contents()) + batch
    {
      for i := 0 to |batch|
        invariant writeHead == Wrap(readHead + size + i, jobs.Length)
        invariant Ring(jobs[..], readHead, size + i) == old(Contents()) + batch[..i]
      {
        Store(batch[i], size + i);
        assert batch[..i + 1] == batch[..i] + [batch[i]];
      }
      assert batch[..|batch|] == batch;
    }

    method PushBatch(batch: seq<Job>)
      requires Valid()
      modifies this, jobs
      ensures Valid() && Contents() == old(Contents()) + batch
      ensures jobs == old(jobs) || fresh(jobs)
    {
      ExpandUnsafe(size + |batch|);
      StoreAll(batch);
      size := size + |batch|;
    }

    // The functor is called with the jobs in `taken`, in this order.
    method ConsumeOne() returns (ok: bool, taken: seq<Job>)
      requires Valid()
      modifies this
      ensures Valid() && jobs == old(jobs)
      ensures ok == (old(Contents()) != [])
      ensures |taken| == if ok then 1 else 0
      ensures old(Contents()) == taken + Contents()
    {
      if size == 0 {
        return false, [];
      }
      var after := readHead + 1;
      if after >= jobs.Length {
        after := after - jobs.Length;
      }
      taken := [jobs[readHead]];
      readHead := after;
      size := size - 1;
      ok := true;
    }

    method ConsumeAll() returns (ok: bool, taken: seq<Job>)
      requires Valid()
      modifies this
      ensures Valid() && jobs == old(jobs)
      ensures ok == (old(Contents()) != [])
      ensures taken == old(Contents()) && Contents() == []
    {
      if size == 0 {
        return false, [];
      }
      var idx := readHead;
      taken := [];
      for i := 0 to size
        invariant unchanged(this) && unchanged(jobs)
        invariant idx == Wrap(readHead + i, jobs.Length)
        invariant taken == Contents()[..i]
      {
        taken := taken + [jobs[idx]];
        idx := idx + 1;
        if idx >= jobs.Length {
          idx := idx - jobs.Length;
        }
      }
      readHead, writeHead, size := 0, 0, 0;
      ok := true;
    }

    method Empty() returns (empty: bool)
      requires Valid()
      ensures empty == (Contents() == [])
    {
      empty := size == 0;
    }

    // ------------------------------------------------ the default forms of src/sched/job_queue.cc

    method DefaultPushBatch(batch: seq<Job>)
      requires Valid()
      modifies this, jobs
      ensures Valid() && Contents() == old(Contents()) + batch
      ensures jobs == old(jobs) || fresh(jobs)
    {
      for i := 0 to |batch|
        invariant Valid() && Contents() == old(Contents()) + batch[..i]
        invariant jobs == old(jobs) || fresh(jobs)
      {
        Push(batch[i]);
      }
      assert batch[..|batch|] == batch;
    }

    method DefaultConsumeAll() returns (consumed: bool, taken: seq<Job>)
      requires Valid()
      modifies this
      ensures Valid() && jobs == old(jobs)
      ensures consumed == (old(Contents()) != [])
      ensures taken == old(Contents()) && Contents() == []
    {
      consumed, taken := false, [];
      while true
        invariant Valid() && jobs == old(jobs)
        invariant old(Contents()) == taken + Contents()
        invariant consumed == (taken != [])
        decreases size
      {
        var ok, one := ConsumeOne();
        if !ok { break; }
        consumed := true;
        taken := taken + one;
      }
    }
  }

  lemma {:induction false} PushKeepsRing<Job>(slots: seq<Job>, head: nat, size: nat, job: Job)
    requires size < |slots| && head < |slots|
    ensures Ring(slots[Wrap(head + size, |slots|) := job], head, size + 1) == Ring(slots, head, size) + [job]
  {
  }

  // ---------------------------------------------------------------- runs of the queue

  datatype Op<Job> = Push(job: Job) | PushBatch(batch: seq<Job>) | ConsumeOne | ConsumeAll

  // What one operation does to a plain FIFO sequence: its new contents, and the jobs handed out.
  function Fifo<Job>(queue: seq<Job>, op: Op<Job>): (seq<Job>, seq<Job>)
  {
    match op
    case Push(job) => (queue + [job], [])
    case PushBatch(batch) => (queue + batch, [])
    case ConsumeOne => if queue == [] then ([], []) else (queue[1..], [queue[0]])
    case ConsumeAll => ([], queue)
  }

  // The jobs left after the operations, and all jobs handed out, in order.
  function FifoRun<Job>(queue: seq<Job>, ops: seq<Op<Job>>): (seq<Job>, seq<Job>)
    decreases |ops|
  {
    if ops == [] then (queue, [])
    else
      var (rest, taken) := Fifo(queue, ops[0]);
      var (end, more) := FifoRun(rest, ops[1..]);
      (end, taken + more)
  }

  function Pushed<Job>(ops: seq<Op<Job>>): seq<Job>
    decreases |ops|
  {
    if ops == [] then []
    else (match ops[0]
          case Push(job) => [job]
          case PushBatch(batch) => batch
          case _ => []) + Pushed(ops[1..])
  }

  /** Over any run, what was handed out followed by what is left is what was there and what was
      pushed, in this order: nothing is lost, repeated or overtaken. */
  lemma {:induction false} RunConserves<Job>(queue: seq<Job>, ops: seq<Op<Job>>)
    ensures FifoRun(queue, ops).1 + FifoRun(queue, ops).0 == queue + Pushed(ops)
    decreases |ops|
  {
    if ops != [] {
      var (rest, taken) := Fifo(queue, ops[0]);
      RunConserves(rest, ops[1..]);
      var (end, more) := FifoRun(rest, ops[1..]);
      assert (taken + more) + end == taken + (more + end);
      assert taken + (rest + Pushed(ops[1..])) == (taken + rest) + Pushed(ops[1..]);
    }
  }

  lemma {:induction false} FifoRunSnoc<Job>(queue: seq<Job>, ops: seq<Op<Job>>, op: Op<Job>)
    ensures var (end, taken) := FifoRun(queue, ops);
      FifoRun(queue, ops + [op]) == (Fifo(end, op).0, taken + Fifo(end, op).1)
    decreases |ops|
  {
    if ops == [] {
      assert ops + [op] == [op] && [op][1..] == [];
      assert Fifo(queue, op).1 + [] == [] + Fifo(queue, op).1;
    } else {
      var (rest, first) := Fifo(queue, ops[0]);
      FifoRunSnoc(rest, ops[1..], op);
      assert (ops + [op])[1..] == ops[1..] + [op];
      var (end, more) := FifoRun(rest, ops[1..]);
      assert first + (more + Fifo(end, op).1) == (first + more) + Fifo(end, op).1;
    }
  }

  /** Any run of the real queue is the run of the plain sequence, through every growth and wrap. */
  method Replay<Job(0)>(initCapacity: nat, ops: seq<Op<Job>>) returns (taken: seq<Job>, left: seq<Job>)
    requires initCapacity == 0 || PowerOfTwo(initCapacity)
    ensures (left, taken) == FifoRun([], ops)
  {
    var queue := new JobLockQueue<Job>(initCapacity);
    taken := [];
    for i := 0 to |ops|
      invariant queue.Valid() && fresh(queue) && fresh(queue.jobs)
      invariant FifoRun([], ops[..i]) == (queue.Contents(), taken)
    {
      FifoRunSnoc([], ops[..i], ops[i]);
      assert ops[..i + 1] == ops[..i] + [ops[i]];
      ghost var before, out := queue.Contents(), taken;
      match ops[i] {
        case Push(job) => queue.Push(job);
        case PushBatch(batch) => queue.PushBatch(batch);
        case ConsumeOne =>
          var ok, one := queue.ConsumeOne();
          taken := taken + one;
          assert ok ==> one == [before[0]];
          assert queue.Contents() == before[|one|..];
        case ConsumeAll =>
          var _, all := queue.ConsumeAll();
          taken := taken + all;
      }
      assert queue.Contents() == Fifo(before, ops[i]).0;
      assert taken == out + Fifo(before, ops[i]).1;
    }
    assert ops[..|ops|] == ops;
    var _, rest := queue.ConsumeAll();
    left := rest;
  }
}
