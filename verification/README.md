# A verified model of the cris-core runtime

This project models the concurrent and stateful core of cris-core, a publish/subscribe runtime with
a job scheduler, a recorder and replayer, and a profiling timer, and proves what that core is meant
to guarantee. `dafny verify dfyconfig.toml` checks it.

## What is modelled

* **The strand** (`Strand`, `StrandSafety`, `StrandTheorems`, `StrandLiveness`, `StrandJobs`, `Serial`, `Workers`).
  A strand runs its jobs one at a time and in order on many worker threads. `Strand` is a step system
  with one label per atomic action of the source: try_lock, the test of the flag and the pending
  queue, each unlock, the push outside the lock, the push to any worker's queue, taking and stealing,
  and creating, copying, moving and dropping the reference-counted alive token. Any number of calls
  interleave freely. The invariant follows a baton, the right to hand out the next job, and the main
  results are mutual exclusion, refinement of a serial executor, and a measure that makes the strand
  drain. They formalise the prose proof in the source's comment. `StrandJobs` follows every job from the
  call that brings it, and counts the references to its token.
* **Publish and subscribe** (`Registry`, `Delivery`, `Subscriptions`, `EndToEnd`, `EndToEndLiveness`). The registry and the nodes are classes
  whose methods keep the lists and the nodes' own records in agreement. `Delivery` interleaves
  dispatching threads over strands taken at their specification, and `Subscriptions` says what a run
  means for a subscriber in terms of its calls alone. `EndToEnd` runs the strand protocol
  itself in their place: a thread enters AddJob, reaches the subscriber at the push to the pending
  queue and returns, while workers and other users of the strands act in between.
* **The ring buffer** (`RingBuffer`). An array that grows while wrapped, against a plain sequence.
* **The timer** (`Histogram`, `Percentile`, `TimerCollector`, `TimerFlow`). Collectors keep a ghost log
  of the accepted durations; everything about percentiles is stated about those logs. `TimerFlow`
  interleaves reporting, collecting, merging, flushing and thread exit.
* **Records** (`RecordKey`, `KeyMaker`, `RecordDb`, `RecordDirs`, `RecordFile`, `RecordRuns`,
  `RecordSet`, `RecordSizes`, `Rolling`). Keys, their generator and byte order, database iterators, and
  the life and the sizes of record directories. LevelDB is an ordered sequence of rows, the disk a map
  from paths to databases. `RecordRuns` is about whole runs of any number of record files on one disk,
  and `RecordSet` drives the record file objects through them.
* **Replay** (`Replay`, `Playback`). The merge of the recorded channels, and what of the rows that a run
  of record files put a whole replay publishes.
* **Snapshots** (`Snapshot`) and **the timeline printer** (`Timeline`, with
  `TimelineNesting` for what its printout means in terms of the intervals).

Inputs the code cannot control are parameters: clocks, directory names, whether a try_lock succeeds,
whether copying a snapshot succeeds, when a shutdown flag is seen. `Totals` and `Sequences` hold
general facts. Every lemma turns automatic induction off; inductive proofs make their own calls.

## Where the code does not keep the promise everywhere

* Growth of the ring buffer may overlap its own source when the capacity is not a power of two;
  `GrowthIsDisjoint` states this as an exact condition.
* Keys made with clocks at or before the epoch can print alike: never exactly if all such clocks that
  can be read share a counter (`PrintedKeysNeverCollide`).
* With a clock before 1970 the next rolling time can lie further away than an interval and a minute,
  because the remainder truncates toward zero (`NextRollingTime`).
* Closing an empty database while a committed directory of its name holds rows removes those rows.
  `CloseKeepsRows` has the exact condition, `RollOntoCommitted` says how it arises, and `CloseCanLose`
  shows a disk that loses a record. With fresh names it does not arise (`EveryRecordIsKept`).
* A snapshot period of zero starves all other intervals (`ZeroPeriodStarves`). The configured
  `max_num_of_copies_` of an interval is not consulted, the recorder keeps 48 copies;
  `ConfiguredCopies` says when that makes no difference.
* A size limit of 2^64 bytes or more wraps around (`LimitInBytes`).
* A roll that comes within a second of the last one generates the name of the open directory and is
  refused; the rows put then can take the directory over its size limit. `EveryDirectoryIsBounded` bounds
  the others, and the whole directory when there are none.
* Only the first directory of a channel is replayed. A replay publishes everything that was recorded
  exactly when each directory is the only one of a channel (`RecordedIsReplayed`).
* The header of a timeline report takes the end of the event started last for the end of the session;
  `SpanIsExtent` says when it is.

## Model

| member | source | states |
|---|---|---|
| StrandTheorems.FlagIsBaton | src/sched/job_runner.cc:168-217 | in every reachable state there is at most one baton (a job about to be pushed, queued at a worker, about to run, or with a live token, or a token destructor at work), and while the lock is free has_ready_job_ is true exactly when there is one |
| StrandTheorems.StartsAlone | src/sched/job_runner.cc:106-217 | a job is called only when no alive token of an earlier job has any reference left and every earlier job is finished; it was never called before and is the next one in submission order |
| StrandTheorems.PlainBodiesAlone | src/sched/job_runner.cc:113-115 | two functions that do not take their token never execute at the same time |
| StrandTheorems.FirstInFirstOut | src/sched/job_runner.cc:136-138 | in every reachable state the finished jobs are a prefix of the started ones and those of the submitted ones, at most one job is in between, and no job was submitted twice |
| StrandTheorems.KeepsInv | src/sched/job_runner.cc:168-195 | every atomic action of every thread keeps the protocol's inductive invariant |
| StrandTheorems.StepRefinesSerial | src/sched/job_runner.cc:168-217 | every atomic action is one event of the serial executor or invisible to it |
| StrandTheorems.RunRefinesSerial | src/sched/job_runner.cc:113-217 | for every run of any number of threads there is a run of the serial executor with the same submissions, starts and finishes |
| StrandTheorems.RunsInSubmissionOrder | src/sched/job_runner.cc:113-217 | so in every run the jobs are called, and finish, in exactly the order in which the AddJob calls put them into the strand |
| Serial.RunsInOrder | src/sched/job_runner.cc:136-138 | over any run of the serial executor the history is what was there followed by what was submitted, and the jobs begun are a prefix of it that never shrinks: the safety the comment promises |
| StrandLiveness.ActionsTakeWork | src/sched/job_runner.cc:139-167 | every action that is not a new submission or a token copy lowers a natural number |
| StrandLiveness.RunsAreShort | src/sched/job_runner.cc:139-167 | so no run without new submissions is longer than the work at its start |
| StrandLiveness.StuckIsDrained | src/sched/job_runner.cc:139-141 | when no action is possible any more, the pending queue is empty, the flag is down, and every submitted job is finished |
| StrandLiveness.CanDrain | src/sched/job_runner.cc:139-141 | from every reachable state some run reaches such a drained state |
| StrandJobs.BroughtJobsRun | src/sched/job_runner.cc:292-312 | over every run, a job brought by AddJob, or by its TryRunImmediately form, has been accepted by the strand or its call is still on the way to the pending queue; when nothing can move any more it has been called and is finished |
| StrandJobs.OfferedJobsNeverWait | src/sched/job_runner.cc:201-217 | a job brought by the ForceRunImmediately form is never in the pending queue, and once its call is over it was called, or refused and never accepted |
| StrandJobs.TryRunsWhenIdle | src/sched/job_runner.cc:206-216 | left alone on a strand that is not locked, has no job in the runner and none waiting, the immediate forms run the job in the calling thread |
| StrandJobs.TryGivesUpWhenBusy | src/sched/job_runner.cc:206-211 | on any other strand they do not, and the job is refused or goes on to be enqueued |
| StrandJobs.AcceptedWereBrought | src/sched/job_runner.cc:113-126 | the strand accepts no job that no call brought |
| StrandJobs.AddHandsToRunner | src/sched/job_runner.cc:117-126 | left alone on an idle strand, AddJob ends with the job at the end of a worker's queue and the flag raised |
| StrandJobs.TakenJobRuns | src/sched/job_runner.cc:117-121 | a worker that takes a job calls it, and the end of its function finishes it if its token went nowhere |
| StrandJobs.QueuesHoldWhatIsGiven | src/sched/job_runner.cc:241-263 | over every run a worker's queue holds as much as the strand and others have given it and nobody has taken |
| StrandJobs.PlainJobsExclude | src/sched/job_runner.cc:113-115 | of the jobs brought as functions without a token, no two execute at the same time |
| StrandJobs.TokensAreReferences | src/sched/job_runner.cc:106-111 | over every run, a job's token is alive exactly while the job object has not given it away, or a user has copied or been given more references than were dropped |
| Workers.JobRunner.TryGetOneJob | src/sched/job_runner.cc:420-424 | takes the oldest job of the worker, or nothing exactly when its queue is empty |
| Workers.JobRunner.Steal | src/sched/job_runner.cc:329-355 | while other threads change the queues between its probes, the search comes to each worker once, wherever its random start lies, including one past the last worker; it takes the oldest job of a worker, and gives up only if each queue was empty when it came there |
| Workers.ProbesInTurn | src/sched/job_runner.cc:335-352 | the i-th probe is of the worker i places on from the start, around the end, so each is probed once |
| Workers.TakenIsTake | src/sched/job_runner.cc:348-348 | taking a job off a worker's queue, by itself or by a thief, is exactly the queue effect of that worker's step in the strand protocol |
| Registry.CRNode.constructor | src/msg/node.cc:12-22 | a new node has no subscriptions, and may subscribe exactly when it was bound to a runner |
| Registry.SubscriptionMap.ListedFindsCallback | src/msg/node.cc:55-69 | while the registry is consistent, a live node finds a callback for exactly the messages of the channels in whose lists it is |
| Registry.CRNode.AddMessageToRunner | src/msg/node.cc:30-38 | adds one job with the subscription's callback and strand, and reports failure exactly without a callback or a runner |
| Registry.CRNode.SubscribeImpl | src/msg/node.cc:71-94 | a first subscription is entered in the list, in subscribed_ and in callbacks_; any later one of the channel changes nothing, and lookups keep finding the first callback; the registry stays consistent |
| Registry.CRNode.UnsubscribeAll | src/msg/node.cc:24-28 | the destructor's loop erases the node from the lists of its channels and leaves every other list alone |
| Registry.CRNode.Destroy | src/msg/node.cc:24-28 | a destroyed node is in no list, the other nodes keep their place, and the registry stays consistent |
| Registry.SubscriptionMap.Subscribe | src/msg/message.cc:45-55 | enters a node unless it is in the list already |
| Registry.SubscriptionMap.Unsubscribe | src/msg/message.cc:57-68 | erases the node from the channel's list, if the channel is known |
| Registry.SubscriptionMap.Dispatch | src/msg/message.cc:70-81 | each live subscriber gets exactly one job with its own callback, everybody else none, and no callback is missing |
| Registry.WithoutKeepsOthers | src/msg/message.cc:64-64 | erasing from a list without duplicates removes just that node |
| Registry.WithoutKeepsOrder | src/msg/message.cc:64-64 | and the others keep their order |
| Delivery.KeepsInv | src/msg/message.cc:70-81 | every step of subscribing, publishing, dispatching and running keeps the invariant that what was sent is received or underway |
| Delivery.NoCallbackIsMissed | src/msg/node.cc:55-69 | in every run, whatever threads dispatch meanwhile, no subscriber that is reached lacks its callback |
| Delivery.DispatchKeepsOrder | src/msg/message.cc:70-81 | for each publishing thread, a subscription's jobs carry exactly what the thread published on the channel since the subscription, once each and in order, except one message underway |
| Delivery.NoOtherStrandGetsIt | src/msg/node.cc:30-38 | no job of a subscription goes to a strand other than its own |
| Delivery.FirstCallbackWins | src/msg/node.cc:71-94 | over any run the callback and strand of the first subscription stay |
| Subscriptions.FirstCallDecides | src/msg/node.cc:71-94 | over every run, a subscriber has exactly the callback and strand that its first call of Subscribe for the channel gave, and is in the channel's list exactly from such a call until it unsubscribes |
| Subscriptions.WindowIsDue | src/msg/message.cc:45-68 | and what counts as sent to it is exactly what is published on the channel in between |
| Subscriptions.SubscriberGetsDue | src/msg/message.cc:70-81 | so, from the calls alone, its jobs on that strand, or on none, carry exactly what each thread publishes while it is subscribed, once each and in order, save for a message just being dispatched |
| Subscriptions.StrandsRunInTurn | src/sched/job_runner.cc:136-138 | over every run a strand has called as many of its jobs as it was started, from the first one on |
| EndToEnd.KeepsInv | src/msg/node.h:119-128 | every step of the joint system of dispatching threads, calls of AddJob, workers and strands keeps the invariant that calls and threads match and that the system projects |
| EndToEnd.JointRunProjects | src/sched/job_runner.cc:117-126 | every joint run is a run of dispatching and, for each strand, a run of the strand protocol, and the deliveries the strand accepted are, in order, those the threads handed to it |
| EndToEnd.OrderedDelivery | src/msg/node.h:119-128 | end to end, from the calls alone: for a node whose first call of Subscribe gave a strand, the callbacks called on that strand got, for each publishing thread, a prefix of what it publishes while the node is subscribed, in order and once each, and all of it once the thread is not dispatching and the strand cannot move |
| EndToEnd.RestMeansDelivered | src/sched/job_runner.cc:139-141 | a joint run can only come to rest with no thread dispatching, every strand drained and everything published to every node whose first call of Subscribe gave a strand delivered on it |
| EndToEndLiveness.RunsAreShort | src/sched/job_runner.cc:139-167 | a joint run without new subscriptions, messages or foreign jobs is no longer than the work at its start |
| EndToEndLiveness.CanRest | src/sched/job_runner.cc:139-141 | and from every reachable state some such run comes to rest |
| RingBuffer.BitCeilIsLeast | src/sched/job_lock_queue.cc:25-25 | std::bit_ceil is the least power of two that is not smaller |
| RingBuffer.GrowthIsDisjoint | src/sched/job_lock_queue.cc:30-35 | moving the wrapped tail never overlaps its source, for every read head and target, exactly when the capacity is a power of two |
| RingBuffer.JobLockQueue.constructor | src/sched/job_lock_queue.cc:11-12 | a new queue is empty |
| RingBuffer.JobLockQueue.ExpandUnsafe | src/sched/job_lock_queue.cc:18-36 | growth, wrapped or not, keeps the queued jobs and their order and makes room |
| RingBuffer.JobLockQueue.MoveTail | src/sched/job_lock_queue.cc:30-35 | after the in-place move the ring reads the same jobs from the new read head |
| RingBuffer.JobLockQueue.Push | src/sched/job_lock_queue.cc:38-49 | appends one job to the queued sequence |
| RingBuffer.JobLockQueue.PushBatch | src/sched/job_lock_queue.cc:51-64 | appends the batch in order |
| RingBuffer.JobLockQueue.ConsumeOne | src/sched/job_lock_queue.cc:66-80 | takes the first job, or nothing exactly when empty |
| RingBuffer.JobLockQueue.ConsumeAll | src/sched/job_lock_queue.cc:82-97 | takes all jobs in order and leaves the queue empty |
| RingBuffer.JobLockQueue.Empty | src/sched/job_lock_queue.cc:99-102 | tells whether the queued sequence is empty |
| RingBuffer.JobLockQueue.DefaultPushBatch | src/sched/job_queue.cc:9-13 | pushing one at a time meets the same contract as PushBatch |
| RingBuffer.JobLockQueue.DefaultConsumeAll | src/sched/job_queue.cc:15-21 | consuming one at a time meets the same contract as ConsumeAll |
| RingBuffer.RunConserves | src/sched/job_lock_queue.cc:38-97 | over any run of the four operations, what was taken followed by what is left is what was there followed by what was pushed |
| RingBuffer.Replay | src/sched/job_lock_queue.cc:38-97 | the real queue, driven through any run of operations, gives what the plain sequence gives |
| Histogram.UpperNsecOfBucket | src/timer/timer_enable.cc:33-45 | the bucket limits, computed by doubling |
| Histogram.LimitsDouble | src/timer/timer_enable.cc:33-45 | each bucket from 1 to 30 ends at twice its start |
| Histogram.FindBucket | src/timer/timer_enable.cc:188-194 | the linear scan finds the bucket |
| Histogram.BucketLimits | src/timer/timer_enable.cc:188-194 | it is the one bucket whose limits enclose the duration |
| Histogram.BucketsOrdered | src/timer/timer_enable.cc:188-194 | longer durations never fall into earlier buckets |
| Histogram.RecordRepresents | src/timer/timer_enable.cc:205-209 | recording a duration keeps hits, totals and maximum equal to those of the logged durations |
| Histogram.MergeRepresents | src/timer/timer_enable.cc:168-172 | merging two entries represents the two logs together |
| TimerCollector.MergeBuckets | src/timer/timer_enable.cc:168-172 | the merge loop adds bucket by bucket |
| TimerCollector.TimerStatCollector.constructor | src/timer/timer_enable.cc:122-126 | a new collector holds nothing |
| TimerCollector.TimerStatCollector.Report | src/timer/timer_enable.cc:174-210 | an accepted data point is recorded in its section and nowhere else; a negative one, one out of range, and one that misses the lock change nothing |
| TimerCollector.TimerStatCollector.MergeFrom | src/timer/timer_enable.cc:212-222 | every section then represents both logs, with the larger maximum |
| TimerCollector.TimerStatCollector.UnsafeClear | src/timer/timer_enable.cc:224-233 | forgets every data point and sets both times |
| TimerCollector.TimerStatCollector.Collect | src/timer/timer_enable.cc:235-244 | hands out a copy of all that was counted, and starts over only if told to |
| TimerCollector.TimerStatCollector.GetReport | src/timer/timer_enable.cc:246-260 | copies the section's buckets and maximum, and has data exactly when something was reported |
| TimerFlow.StepConserves | src/timer/timer_enable.cc:139-166 | no step of any thread changes the amount of any additive quantity over all collectors, snapshots underway, the total and cleared snapshots, except by the point it accepts |
| TimerFlow.EveryPointOnce | src/timer/timer_enable.cc:139-172 | in every interleaving each accepted data point is in exactly one of these places, per section and bucket, with its hit and its duration |
| TimerFlow.AcceptedAreReported | src/timer/timer_enable.cc:174-202 | over every interleaving the accepted history is what the threads reported, in order, without negative durations, sections out of range and points that met a busy mutex; its mark is where the last flush began |
| TimerFlow.StateFollowsActions | src/timer/timer_enable.cc:139-166 | a thread has a collector from its first report until it is erased, a flush holds the list of collectors from its beginning to its end, and only a report that is told to clears the total |
| TimerFlow.FlushCatchesAll | src/timer/timer_enable.cc:160-166 | when a flush ends, every point accepted before it began is in the total, in a cleared report, or on the way there from an exiting thread; the flush visits each collector of the list once |
| TimerFlow.TotalAfterFlush | src/timer/timer_enable.cc:424-427 | with no thread exiting and nothing cleared, the total then holds everything accepted before the flush and nothing that was not accepted, and exactly everything if no point came in meanwhile |
| TimerFlow.PercentileAfterFlush | src/timer/timer_enable.cc:313-345 | a percentile read from that total is in the bucket of the r-th smallest of those durations, for the positive integer r nearest to the percentage of their number, over all threads and interleavings |
| Percentile.TimerReport.GetTotalHits | src/timer/timer_enable.cc:285-291 | adds up the hits |
| Percentile.TimerReport.GetPercentileDurationNsec | src/timer/timer_enable.cc:313-345 | the maximum from 100 percent on, zero at rank zero, and otherwise the average of the first bucket at which the accumulated hits reach the rank; the end of the loop is never reached |
| Percentile.AverageInBucket | src/timer/timer_enable.cc:338-339 | the average of a bucket's durations lies in that bucket, and not above the maximum |
| Percentile.PercentileInBucketOfRank | src/timer/timer_enable.cc:326-341 | below 100, the result is in the same bucket as the r-th smallest duration, for the positive integer r nearest to that percentage of their number, the larger of two |
| Percentile.RankIsNearest | src/timer/timer_enable.cc:326-327 | the rank is that integer, and no other |
| Percentile.PercentileAtTheEnds | src/timer/timer_enable.cc:314-324 | from 100 on the result is the greatest duration, and for zero or less it is zero |
| Percentile.PercentileOfRankZero | src/timer/timer_enable.cc:329-331 | it is zero as well when the nearest integer is zero |
| Percentile.PercentileWithinFactorTwo | src/timer/timer_enable.cc:326-341 | in buckets 1 to 30 it is off by less than a factor of two either way |
| Percentile.PercentilesGrow | src/timer/timer_enable.cc:313-345 | percentiles grow with p and never exceed the maximum duration |
| RecordKey.ParserAcceptsFormat | src/msg_recorder/record_key.cc:47-68 | the parser accepts exactly the strings of the format whose numbers are in range, with those numbers |
| RecordKey.RoundTrip | src/msg_recorder/record_key.cc:37-68 | parsing a printed key gives it back, with a negative time as zero |
| RecordKey.CompareIsNumeric | src/msg_recorder/record_key.cc:76-88 | comparing the printed bytes is comparing clamped times and then counts as numbers |
| RecordKey.SameBytes | src/msg_recorder/record_key.cc:37-45 | two keys print alike exactly when they agree after clamping |
| KeyMaker.KeysAreDistinct | src/msg_recorder/record_key.cc:20-35 | over any interleaving of callers that uses no counter more than 2^64 times, no key is made twice; with clocks from 1970 on no printed key either |
| KeyMaker.PrintedKeysNeverCollide | src/msg_recorder/record_key.cc:20-45 | over all interleavings of any callers within the counters' range, printed keys never collide exactly if all clocks at or before the epoch that can be read share one counter |
| KeyMaker.TwoCallsCollide | src/msg_recorder/record_key.cc:20-45 | the first two calls print alike exactly when both clocks are at or before the epoch and use different counters, as 0 and -1 do |
| KeyMaker.Counters.Make | src/msg_recorder/record_key.cc:20-35 | while its counter has not come round, a new key is unlike every key made before, and prints like one only if both clocks are at or before the epoch and use different counters |
| KeyMaker.KeysIncrease | src/msg_recorder/record_key.cc:20-35 | successive calls on a clock that does not run backwards make strictly increasing keys |
| KeyMaker.SlotIsLowBits | src/msg_recorder/record_key.cc:31-34 | the counter is chosen by the low four bits of the clock |
| RecordDb.PutKeepsOrder | src/msg_recorder/record_file.cc:316-325 | a put keeps the database in key order, adds its row, replaces only the same key and keeps every other row |
| RecordDb.PutAddsOne | src/msg_recorder/record_file.cc:316-325 | a put of a new key overwrites nothing |
| RecordDb.RecordFileIterator.ReadNextValidKey | src/msg_recorder/record_file.cc:89-98 | skips exactly the rows whose keys do not parse |
| RecordDb.RecordFileIterator.Next | src/msg_recorder/record_file.cc:84-87 | moves on by one valid row |
| RecordDb.RecordFileReverseIterator.ReadPrevValidKey | src/msg_recorder/record_file.cc:133-142 | skips the same rows going backwards |
| RecordDb.RecordFileReverseIterator.Prev | src/msg_recorder/record_file.cc:128-131 | moves back by one valid row |
| RecordDb.ReadForward | src/msg_recorder/record_file.cc:327-331 | forward iteration visits the valid rows in key order, once each |
| RecordDb.ReadBackward | src/msg_recorder/record_file.cc:333-337 | reverse iteration visits the same rows in exactly the opposite order |
| RecordDb.IterationIsWriteOrder | src/msg_recorder/record_file.cc:279-281 | values written with made keys on a clock that does not run backwards come back in the order of writing, none overwritten |
| RecordDirs.CheckoutKeepsRows | src/msg_recorder/record_file.cc:235-253 | checking out moves rows without losing or copying any |
| RecordDirs.OpenKeepsRows | src/msg_recorder/record_file.cc:186-212 | opening creates at most an empty database |
| RecordDirs.CommitKeepsRows | src/msg_recorder/record_file.cc:255-273 | committing loses no row |
| RecordDirs.CloseKeepsRows | src/msg_recorder/record_file.cc:214-233 | closing loses no row exactly when the open database holds some, or no committed directory with rows is in the way |
| RecordDirs.RollOntoCommitted | src/msg_recorder/record_file.cc:299-314 | how the other case comes about: a roll to a name whose committed directory exists opens an empty database beside it, and closing that removes the committed rows |
| RecordDirs.CloseCanLose | src/msg_recorder/record_file.cc:224-232 | a disk with one committed record on which closing an empty database of the same name leaves none |
| RecordDirs.RollKeepsRows | src/msg_recorder/record_file.cc:299-314 | a roll keeps every row exactly when closing the old database does |
| RecordDirs.ReopenDirs | src/msg_recorder/record_file.cc:155-184 | opening again undoes closing |
| RecordDirs.ClosedContents | src/msg_recorder/record_file.cc:224-232 | after closing, the final directory exists exactly if there was a record, and the saving one is gone |
| RecordDirs.PutKeepsRows | src/msg_recorder/record_file.cc:316-325 | a put of a new key adds exactly that row to the disk |
| RecordDirs.OneCopyOneDirectory | src/msg_recorder/record_file.cc:214-233 | a row stored once is in exactly one directory |
| RecordFile.RecordFile.constructor | src/msg_recorder/record_file.cc:144-149 | opens its database exactly when there is a path, no other directory is in the way and nobody has it open; otherwise the disk is untouched |
| RecordFile.RecordFile.OpenPath | src/msg_recorder/record_file.cc:186-212 | opens the saving directory unless it is open already |
| RecordFile.RecordFile.OpenDB | src/msg_recorder/record_file.cc:155-184 | refuses without a path or when open, throws when both directories exist, and otherwise checks out and opens |
| RecordFile.RecordFile.CloseDB | src/msg_recorder/record_file.cc:214-233 | commits the database, or removes it if empty, and loses no row exactly under the condition of CloseKeepsRows |
| RecordFile.RecordFile.Roll | src/msg_recorder/record_file.cc:299-314 | switches to the new directory with a reset helper and within the bounds of rolling by size, or leaves everything as it was; says exactly which directories and locks there are and when no row is lost |
| RecordFile.RecordFile.RollIfNeeded | src/msg_recorder/record_file.cc:290-292 | rolls exactly when the helper asks and the new directory can be opened, and otherwise leaves the disk alone; never too early: by size, the bytes put into the directory and the value reach the limit, by time, its time is over, and without a helper never; by time, unless the clock was set back meanwhile, a helper that asks is set to a later time |
| RecordFile.RecordFile.Write | src/msg_recorder/record_file.cc:283-297 | the whole disk afterwards: the directories after the roll if there was one, with the record put, and the locks; every row put is stored as often as it was put; by size, after a roll or from within bounds, the helper has counted exactly the bytes put into the directory, and these are below the limit unless there is one value, not counting rows put because a roll was refused; by time, the value arrived before the next roll |
| RecordFile.KeyStaysStored | src/msg_recorder/record_file.cc:214-314 | a stored key stays stored while directories are opened, rolled and closed |
| RecordSizes.PutTallies | src/msg_recorder/rolling_helper.cc:59-69 | a put keeps the helper's count equal to the bytes put and these below the limit, if the helper did not ask for a roll, or one was refused, or nothing was put before |
| RecordRuns.StepKeeps | src/msg_recorder/record_file.cc:155-314 | creating, opening, closing, rolling or writing to one of any number of record files keeps the disk in order: a saving directory exactly for each open file, no empty committed directory, and each row put stored once |
| RecordRuns.EveryRecordIsKept | src/msg_recorder/record_file.cc:155-345 | over any run in which no roll comes upon a closed directory, whether some rolls are refused or not, and keys print apart, each row put is stored once, in one directory, and nothing else is; once all files are closed every directory is committed and none is empty |
| RecordRuns.StepKeepsSizes | src/msg_recorder/rolling_helper.cc:59-73 | every operation on one of the record files keeps each directory, open or committed, within the bounds of its last use, and each helper's count equal to the bytes its file put there |
| RecordRuns.EveryDirectoryIsBounded | src/msg_recorder/record_file.cc:283-314 | over the same runs, the values a record file put into a directory, open or committed long ago, are below its size limit or there is one, apart from rows put because a roll was refused; one that was left by a roll that was due would have reached the limit with the value that came, or its time was over; the bytes in a file's present directory are exactly those it found there and those its helper counted; where it found none and no roll was refused, all of this holds of the directory itself |
| RecordRuns.MadeKeysAreKept | src/msg_recorder/record_file.cc:279-281 | the same for keys drawn from the shared generator by any interleaving of callers whose clocks do not print alike |
| RecordRuns.StoredMeansPut | src/msg_recorder/record_file.cc:316-325 | a key is stored exactly if a row with it was put |
| RecordRuns.ReopenUndoesClose | src/msg_recorder/recorder.cc:171-195 | closing a record file for a snapshot and opening it again restores the disk |
| RecordSet.RecordSet.Create | src/msg_recorder/recorder.cc:248-252 | adding a record file to those of the recorder is the step of the run, and the others keep what they rely on |
| RecordSet.RecordSet.Open | src/msg_recorder/recorder.cc:192-192 | opening one of the record files is the step of the run |
| RecordSet.RecordSet.Close | src/msg_recorder/recorder.cc:174-174 | closing one of the record files is the step of the run |
| RecordSet.RecordSet.Roll | src/msg_recorder/record_file.cc:299-314 | rolling one of the record files is the step of the run |
| RecordSet.RecordSet.Write | src/msg_recorder/record_file.cc:283-297 | writing to one of the record files is the step of the run |
| RecordSet.RecordSet.Run | src/msg_recorder/record_file.cc:155-314 | the record file objects on one disk, driven through any operations, end where the run of steps ends, and keep the bounds of rolling by size |
| Rolling.NextRollingTime | src/msg_recorder/rolling_helper.cc:38-45 | the next rolling time is 60 seconds past a whole interval and more than 60 seconds away; it is at most an interval further exactly when the clock is not before 1970 or on a whole interval |
| Rolling.NewHelperRollsInTime | src/msg_recorder/rolling_helper.cc:20-53 | the helpers by day and by hour, new or reset, roll a minute past midnight or the hour, within the interval |
| Rolling.LimitInBytes | src/msg_recorder/rolling_helper.cc:55-57 | the limit is the configured megabytes in bytes exactly while the product stays below 2^64 |
| Rolling.RollsWhenDue | src/msg_recorder/rolling_helper.cc:27-65 | a helper asks for a roll exactly when the value would take the count to the limit, or when the time has come |
| Replay.RecordReaderPQueue.Push | src/msg_recorder/replayer.cc:100-103 | adds the reader |
| Replay.RecordReaderPQueue.Pop | src/msg_recorder/replayer.cc:105-110 | takes off some reader with a least key, and no other |
| Replay.MessageReplayer.RegisterChannel | src/msg_recorder/replayer.h:93-109 | registers exactly the readers that have something to read |
| Replay.MessageReplayer.PublishNext | src/msg_recorder/replayer.cc:51-74 | publishes one message; nothing is lost, repeated or reordered within its reader; the unread ones get fewer; the start time is set by the first nonzero key |
| Replay.MessageReplayer.ReplayMessages | src/msg_recorder/replayer.cc:49-76 | the loop ends when told to or with nothing left; everything published is in key order, nothing is lost or repeated, and each reader's order is kept |
| Replay.PublishKeepsOrder | src/msg_recorder/replayer.cc:49-76 | what is published stays in key order and ahead of everything unread |
| Replay.StoppedIsPrefix | src/msg_recorder/replayer.cc:49-76 | an early stop leaves a prefix of a complete sorted merge of all records |
| Replay.CompleteReplay | src/msg_recorder/replayer.cc:49-76 | a full replay publishes a permutation of all records and keeps each reader's own order; the key order is part of what every replay keeps |
| Replay.DatabaseReadsInOrder | src/msg_recorder/replayer.cc:116-118 | a database of printed keys hands its records out in the order the merge relies on |
| Playback.GetRecordItr | src/msg_recorder/replayer.cc:82-98 | opens the first committed directory of the channel in lexical order and reads all its rows; throws exactly when there is none or that one is unfinished as well |
| Playback.MatchesExactly | src/msg_recorder/impl/utils.cc:19-35 | the directories listed for a channel are those right inside it whose names end in the suffix of record directories |
| Playback.RegisterChannel | src/msg_recorder/replayer.h:93-109 | registers a reader of the rows of that directory exactly when it has some, and changes nothing in the queue otherwise |
| Playback.WholeReplay | src/msg_recorder/replayer.cc:82-98 | the rows a whole replay publishes and those of the directories that are not the first of a channel are together the rows on the disk |
| Playback.RecordedIsReplayed | src/msg_recorder/replayer.cc:49-98 | each row that any run of record files put is published once or omitted, and omitted exactly if it is not in a first directory; once the files are closed, a whole replay publishes exactly the rows put if and only if each directory is the only one of a replayed channel |
| Snapshot.MessageRecorder.SnapshotWorker | src/msg_recorder/recorder.cc:48-110 | whatever the clock does, each turn handles the earliest due instant of all intervals, and each name keeps its latest 48 successful snapshots, oldest first, the others being removed |
| Snapshot.MessageRecorder.Turn | src/msg_recorder/recorder.cc:79-103 | one turn keeps the queue holding the next instant of every interval exactly once |
| Snapshot.MessageRecorder.Handle | src/msg_recorder/recorder.cc:80-97 | a snapshot is taken exactly when it is handled less than half a period after its instant, and a successful one is added to its name's list |
| Snapshot.SavedExactly | src/msg_recorder/recorder.cc:80-97 | over the whole log, a successful snapshot is kept under its name exactly if it was handled less than half a period after its instant |
| Snapshot.OnTimeIsSaved | src/msg_recorder/recorder.cc:76-83 | with a positive period no snapshot handled on time is skipped |
| Snapshot.MessageRecorder.MaintainMaxNumOfSnapshots | src/msg_recorder/recorder.cc:197-207 | drops the oldest snapshots of the name until 48 are left, and of no other name |
| Snapshot.ConfiguredCopies | src/msg_recorder/recorder.cc:199-199 | what is kept is what the interval's configured number of copies asks for exactly while neither number is exceeded, or when that number is 48 |
| Snapshot.Reschedule | src/msg_recorder/recorder.cc:99-103 | puts the handled wake-up back one period after its own time, not after the clock, and takes an earliest one |
| Snapshot.FillQueue | src/msg_recorder/recorder.cc:68-74 | every interval starts due at once |
| Snapshot.HandledInOrder | src/msg_recorder/recorder.cc:59-66 | handled wake times never decrease, nor periods at one time |
| Snapshot.NothingIsPassedOver | src/msg_recorder/recorder.cc:79-103 | the k-th handling of an interval is at start + k * period, and before any wake-up is handled every earlier instant of every interval has been |
| Snapshot.ScheduleAdvances | src/msg_recorder/recorder.cc:79-109 | with positive periods only a bounded number of turns pass before any given time, so no interval starves |
| Snapshot.ZeroPeriodStarves | src/msg_recorder/recorder.cc:59-66 | a period of zero takes every turn from the others |
| Timeline.Walk | src/utils/timeline.cc:162-178 | the loops over the stack print the call tree of the chain, with every overhead added up at its close |
| Timeline.CloseUntilFits | src/utils/timeline.cc:163-171 | closes exactly the open events the next one does not fit, passing each overhead to the event around it |
| Timeline.CloseAll | src/utils/timeline.cc:175-178 | closes what is still open |
| Timeline.NestingIsUnique | src/utils/timeline.cc:162-174 | the nesting rule leaves one tree for a chain |
| Timeline.BuildIsNested | src/utils/timeline.cc:162-174 | a forest is nested with exactly the events of the chain, in order, exactly when it is the call tree the walk prints |
| Timeline.OpensAndCloses | src/utils/timeline.cc:162-178 | every event is opened once in order of its start and closed once |
| Timeline.TreeOverhead | src/utils/timeline.cc:163-178 | the overhead at an event's close is the sum over it and everything nested inside |
| Timeline.HeaderOverhead | src/utils/timeline.cc:132-136 | the overheads of the roots add up to the total in the header |
| Timeline.EventsArePartitioned | src/utils/timeline.cc:99-111 | every consumed event is dropped as inverted, put back, or in the chain of its session, exactly once |
| Timeline.Group | src/utils/timeline.cc:94-111 | groups events by session, drops inverted ones and puts back those of sessions that are not stopped |
| Timeline.Print | src/utils/timeline.cc:87-178 | every stopped session with events gets one report: its events sorted by start, the total overhead, the header's figure as the source computes it from the first event and the last one started, and the call tree |
| Timeline.SpanIsExtent | src/utils/timeline.cc:121-122 | the header's span never exceeds the time from the first start to the last end, and equals it exactly when no event outlasts the one started last |
| TimelineNesting.NestingIsOverlap | src/utils/timeline.cc:162-174 | from the intervals alone: each event is printed as deep as there are events around it, and is printed inside exactly those; an event is around a later one exactly if there is no gap between them, every event from the one to the other starting before the end of another since, or being an instant there |
| TimelineNesting.OverlapNests | src/utils/timeline.cc:166-169 | an event that starts before an earlier one ends is nested in it |
| TimelineNesting.LateStartIsRoot | src/utils/timeline.cc:163-171 | an event that starts after all earlier ones have ended is a root of the printout |
| TimelineNesting.PrintoutReads | src/utils/timeline.cc:147-178 | the printout reads with a stack from first line to last: every start is as deep as events are open, every end closes the event opened last and shows its own overhead and that of everything closed inside it, and nothing stays open |

## Left out

- The lock-free pending queue, memory orderings and spinning: the queue is an atomic first-in first-out sequence, and try_lock fails exactly while the lock is held.
- Worker sleeping, wake-ups, scheduling hints and `ActiveThreadNum`: they decide who runs and when, so any worker may be chosen; stopping and joining threads is not modelled.
- Destroying a runner or a strand with work outstanding: both outlive the run.
- EndToEnd.OrderedDelivery: only for subscriptions with a strand; without one the order of the callbacks is up to the workers, although each job is still added once. Each strand sees the workers' queues with everything else in them as foreign jobs, so more interleavings are allowed than one shared set of queues has.
- The latest delivery time of a channel, message deserialisation, and a null message pointer.
- RingBuffer.JobLockQueue.constructor: requires an initial capacity of zero or a power of two, because growth may overlap itself otherwise.
- Overflow of hit and duration totals, and rounding in floating point: the rank of a percentile is rounded exactly.
- TimerCollector.TimerStatCollector.GetReport: one section, without the recursive reports of its subsections and what they add to has_data_.
- Section frequencies and overall averages.
- KeyMaker.Counters.Make: one call at a time; the interleaved calls are the step system of the same module.
- The legacy database format and its flag, compaction, links, and errors of the file system and of LevelDB other than a directory that is already open.
- RecordRuns.EveryRecordIsKept: requires that a roll generates a fresh name or that of an open directory, and that no two record files share a name; without that `CloseKeepsRows` applies.
- Playback.RecordedIsReplayed: the replayer finds the directories as the recorder left them, each channel is registered once, and lexical order of paths is the byte order of their names.
- RecordFile.RecordFile.constructor: where the source throws, because both directories exist, the model has an object that is not open.
- Directory names that themselves end in the suffix of unfinished directories, and the names a roll generates.
- Rolling.NextRollingTime: whole seconds; the fraction that the conversion to seconds drops is not modelled.
- The rolling helpers' virtual dispatch: a helper is one of three kinds of value in the record file's field.
- Replay.MessageReplayer.ReplayMessages: publishes without pacing, so speed-up and sleeping are not modelled; a reader is the rest of what its iterator hands out.
- Replay.MessageReplayer.RegisterChannel: requires a reader in key order, as databases of printed keys give (`DatabaseReadsInOrder`), and whose first record the replay has not passed yet.
- Replay.RecordReaderPQueue.Pop: std::pop_heap is taken at its word, and which of several least readers comes off is left open; the same holds for the snapshot worker's priority queue, and std::sort is taken at its word too.
- Snapshot.MessageRecorder.SnapshotWorker: copying the record directory is one outcome per turn; waiting is a clock value, and periods in the configuration are assumed to fit.
- TimelineNesting.NestingIsOverlap: for events that start before the last tick of the 64-bit clock, where the source's sum wraps around.
- Timeline sessions: starting, pausing and stopping, the pooled names, column widths and formatting; a line is its event, depth and overhead.
- Configuration and JSON parsing, signals, logging, performance counters, adapters and the disabled timer.
