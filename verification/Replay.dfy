/** MessageReplayer of src/msg_recorder/replayer.cc: merging the recorded channels back into one
    stream. A reader is what its record iterator will still hand out; see RecordDb for that. */
module Replay {
  import opened Sequences
  import opened Totals
  import opened RecordKey
  import opened RecordDb

  type Record = (Key, string)

  // `id` numbers the registrations; a subid can be registered for several message types.
  datatype Reader = Reader(id: nat, subid: nat, rest: seq<Record>)

  datatype Message = Message(reader: nat, subid: nat, record: Record)

  predicate Leq(a: Key, b: Key)
    requires InRange(a) && InRange(b)
  {
    Compare(a, b) <= 0
  }

  lemma {:induction false} LeqTotal(a: Key, b: Key)
    requires InRange(a) && InRange(b)
    ensures Leq(a, b) || Leq(b, a)
  {
    CompareIsNumeric(a, b);
    CompareIsNumeric(b, a);
  }

  lemma {:induction false} LeqTransitive(a: Key, b: Key, c: Key)
    requires InRange(a) && InRange(b) && InRange(c) && Leq(a, b) && Leq(b, c)
    ensures Leq(a, c)
  {
    CompareIsNumeric(a, b);
    CompareIsNumeric(b, c);
    CompareIsNumeric(a, c);
  }

  /** The keys are valid and in non-decreasing order. */
  ghost predicate InOrder(rest: seq<Record>)
  {
    && (forall i :: 0 <= i < |rest| ==> InRange(rest[i].0))
    && (forall i, k :: 0 <= i < k < |rest| ==> Leq(rest[i].0, rest[k].0))
  }

  ghost predicate Sound(readers: seq<Reader>)
  {
    && (forall i :: 0 <= i < |readers| ==> readers[i].rest != [] && InOrder(readers[i].rest))
    && (forall i, k :: 0 <= i < k < |readers| ==> readers[i].id != readers[k].id)
  }

  // RecordReaderPQueue::Compare, which makes the heap's top a reader with a least key.
  predicate Later(lhs: Reader, rhs: Reader)
    requires lhs.rest != [] && InRange(lhs.rest[0].0) && rhs.rest != [] && InRange(rhs.rest[0].0)
  {
    Compare(lhs.rest[0].0, rhs.rest[0].0) > 0
  }

  ghost predicate IsTop(readers: seq<Reader>, i: nat)
    requires Sound(readers)
  {
    i < |readers| && NoneEarlier(readers, i)
  }

  predicate NoneEarlier(readers: seq<Reader>, i: nat)
    requires forall k :: 0 <= k < |readers| ==> readers[k].rest != [] && InRange(readers[k].rest[0].0)
    requires i < |readers|
  {
    forall k :: 0 <= k < |readers| ==> !Later(readers[i], readers[k])
  }

  lemma {:induction false} BeforeTopIsBeforeAll(readers: seq<Reader>, i: nat, key: Key)
    requires Sound(readers) && IsTop(readers, i) && InRange(key) && Leq(key, readers[i].rest[0].0)
    ensures forall k :: 0 <= k < |readers| ==> Leq(key, readers[k].rest[0].0)
  {
    forall k | 0 <= k < |readers| ensures Leq(key, readers[k].rest[0].0) {
      assert !Later(readers[i], readers[k]);
      LeqTransitive(key, readers[i].rest[0].0, readers[k].rest[0].0);
    }
  }

  lemma {:induction false} TopExists(readers: seq<Reader>) returns (i: nat)
    requires Sound(readers) && readers != []
    ensures IsTop(readers, i)
  {
    var n := |readers| - 1;
    LeqTotal(readers[n].rest[0].0, readers[n].rest[0].0);
    if n == 0 {
      i := 0;
    } else {
      i := TopExists(readers[..n]);
      LeqTotal(readers[n].rest[0].0, readers[i].rest[0].0);
      if Later(readers[i], readers[n]) {
        LastIsTop(readers, i);
        i := n;
      } else {
        TopStays(readers, i);
      }
    }
  }

  lemma {:induction false} TopStays(readers: seq<Reader>, i: nat)
    requires Sound(readers) && i < |readers| - 1 && IsTop(readers[..|readers| - 1], i)
    requires !Later(readers[i], readers[|readers| - 1])
    ensures IsTop(readers, i)
  {
    forall k | 0 <= k < |readers| - 1 ensures !Later(readers[i], readers[k]) {
      assert readers[..|readers| - 1][k] == readers[k];
    }
  }

  lemma {:induction false} LastIsTop(readers: seq<Reader>, i: nat)
    requires Sound(readers) && i < |readers| - 1 && IsTop(readers[..|readers| - 1], i)
    requires Leq(readers[|readers| - 1].rest[0].0, readers[i].rest[0].0)
    ensures IsTop(readers, |readers| - 1)
  {
    var n := |readers| - 1;
    BeforeTopIsBeforeAll(readers[..n], i, readers[n].rest[0].0);
    LeqTotal(readers[n].rest[0].0, readers[n].rest[0].0);
    forall k | 0 <= k < n ensures !Later(readers[n], readers[k]) {
      assert readers[..n][k] == readers[k];
    }
  }

  /** The heap of readers. Its library operations are taken at their word: pop hands out some top
      element and leaves the others, in whatever order. */
  class RecordReaderPQueue {
    var readers: seq<Reader>

    constructor ()
      ensures readers == []
    {
      readers := [];
    }

    method Push(reader: Reader)
      modifies this
      ensures readers == old(readers) + [reader]
    {
      readers := readers + [reader];
    }

    method Pop() returns (top: Reader)
      requires Sound(readers) && readers != []
      modifies this
      ensures exists i :: 0 <= i < |old(readers)| && IsTop(old(readers), i) && top == old(readers)[i]
                          && readers == old(readers)[..i] + old(readers)[i + 1..]
    {
      ghost var some := TopExists(readers);
      var i: nat :| i < |readers| && NoneEarlier(readers, i);
      assert IsTop(readers, i);
      top := readers[i];
      readers := readers[..i] + readers[i + 1..];
    }

    predicate Empty()
      reads this
    {
      readers == []
    }
  }

  // ---------------------------------------------------------------- what is still to come

  function Messages(r: Reader): seq<Message>
  {
    seq(|r.rest|, i requires 0 <= i < |r.rest| => Message(r.id, r.subid, r.rest[i]))
  }

  /** All messages the readers have not handed out. */
  ghost function Unread(readers: seq<Reader>): multiset<Message>
  {
    if readers == [] then multiset{} else multiset(Messages(readers[0])) + Unread(readers[1..])
  }

  /** The unread messages of one reader, in its order. */
  function UnreadOf(readers: seq<Reader>, id: nat): seq<Message>
  {
    if readers == [] then []
    else (if readers[0].id == id then Messages(readers[0]) else []) + UnreadOf(readers[1..], id)
  }

  function PublishedOf(published: seq<Message>, id: nat): seq<Message>
  {
    if published == [] then []
    else
      var last := published[|published| - 1];
      PublishedOf(published[..|published| - 1], id) + if last.reader == id then [last] else []
  }

  lemma {:induction false} AllUnreadJoins(a: seq<Reader>, b: seq<Reader>)
    ensures Unread(a + b) == Unread(a) + Unread(b)
  {
    if a == [] {
      assert a + b == b;
    } else {
      assert (a + b)[1..] == a[1..] + b;
      AllUnreadJoins(a[1..], b);
    }
  }

  lemma {:induction false} UnreadJoins(a: seq<Reader>, b: seq<Reader>, id: nat)
    ensures UnreadOf(a + b, id) == UnreadOf(a, id) + UnreadOf(b, id)
  {
    if a == [] {
      assert a + b == b;
    } else {
      assert (a + b)[1..] == a[1..] + b;
      UnreadJoins(a[1..], b, id);
    }
  }

  lemma {:induction false} NoneUnread(readers: seq<Reader>, id: nat)
    requires forall i :: 0 <= i < |readers| ==> readers[i].id != id
    ensures UnreadOf(readers, id) == []
  {
    if readers != [] { NoneUnread(readers[1..], id); }
  }

  lemma {:induction false} OneReader(r: Reader, id: nat)
    ensures Unread([r]) == multiset(Messages(r))
    ensures UnreadOf([r], id) == if r.id == id then Messages(r) else []
  {
    assert [r][1..] == [];
  }

  // The unread messages of reader i are found at its place, whatever the others hold.
  lemma {:induction false} UnreadSplit(readers: seq<Reader>, i: nat)
    requires i < |readers|
    ensures Unread(readers) == multiset(Messages(readers[i])) + Unread(readers[..i] + readers[i + 1..])
  {
    assert readers == readers[..i] + ([readers[i]] + readers[i + 1..]);
    AllUnreadJoins(readers[..i], [readers[i]] + readers[i + 1..]);
    AllUnreadJoins([readers[i]], readers[i + 1..]);
    AllUnreadJoins(readers[..i], readers[i + 1..]);
    OneReader(readers[i], 0);
    Reorder(Unread(readers[..i]), multiset(Messages(readers[i])), Unread(readers[i + 1..]));
  }

  lemma {:induction false} UnreadMiddle(a: seq<Reader>, r: Reader, b: seq<Reader>, id: nat)
    ensures UnreadOf(a + [r] + b, id) == UnreadOf(a, id) + (if r.id == id then Messages(r) else []) + UnreadOf(b, id)
  {
    UnreadJoins(a + [r], b, id);
    UnreadJoins(a, [r], id);
    OneReader(r, id);
  }

  lemma {:induction false} UnreadAt(readers: seq<Reader>, i: nat, id: nat)
    requires i < |readers| && forall k :: 0 <= k < |readers| && k != i ==> readers[k].id != readers[i].id
    ensures UnreadOf(readers, id) ==
            if id == readers[i].id then Messages(readers[i]) else UnreadOf(readers[..i] + readers[i + 1..], id)
  {
    var a, r, b := readers[..i], readers[i], readers[i + 1..];
    assert readers == a + [r] + b;
    UnreadMiddle(a, r, b, id);
    if id == r.id {
      NoOthers(readers, i);
      assert [] + Messages(r) + [] == Messages(r);
    } else {
      UnreadJoins(a, b, id);
      assert UnreadOf(a, id) + [] == UnreadOf(a, id);
    }
  }

  lemma {:induction false} NoOthers(readers: seq<Reader>, i: nat)
    requires i < |readers| && forall k :: 0 <= k < |readers| && k != i ==> readers[k].id != readers[i].id
    ensures UnreadOf(readers[..i], readers[i].id) == [] && UnreadOf(readers[i + 1..], readers[i].id) == []
  {
    var tail := readers[i + 1..];
    forall k | 0 <= k < |tail| ensures tail[k].id != readers[i].id {
      assert tail[k] == readers[i + 1 + k];
    }
    NoneUnread(readers[..i], readers[i].id);
    NoneUnread(tail, readers[i].id);
  }

  // ---------------------------------------------------------------- the replayer

  ghost predicate Merged(published: seq<Message>)
  {
    && (forall i :: 0 <= i < |published| ==> InRange(published[i].record.0))
    && (forall i, k :: 0 <= i < k < |published| ==> Leq(published[i].record.0, published[k].record.0))
  }

  // Nothing still to come is before what was published last.
  ghost predicate Ahead(published: seq<Message>, readers: seq<Reader>)
    requires Merged(published) && Sound(readers)
  {
    published != [] ==>
      forall i :: 0 <= i < |readers| ==> Leq(published[|published| - 1].record.0, readers[i].rest[0].0)
  }

  // What the queue looks like after its top reader i was popped, advanced and pushed back.
  function Advanced(readers: seq<Reader>, i: nat): seq<Reader>
    requires i < |readers| && readers[i].rest != []
  {
    var next := readers[i].(rest := readers[i].rest[1..]);
    readers[..i] + readers[i + 1..] + if next.rest != [] then [next] else []
  }

  lemma {:induction false} RestInOrder(rest: seq<Record>)
    requires rest != [] && InOrder(rest)
    ensures InOrder(rest[1..])
    ensures forall k :: 0 <= k < |rest| - 1 ==> Leq(rest[0].0, rest[1..][k].0)
  {
    assert forall k, m :: 0 <= k < m < |rest| - 1 ==> rest[1..][k] == rest[k + 1] && rest[1..][m] == rest[m + 1];
  }

  lemma {:induction false} AdvanceKeepsSound(readers: seq<Reader>, i: nat)
    requires Sound(readers) && IsTop(readers, i)
    ensures Sound(Advanced(readers, i))
    ensures forall k :: 0 <= k < |Advanced(readers, i)| ==>
              Leq(readers[i].rest[0].0, Advanced(readers, i)[k].rest[0].0)
  {
    var next := readers[i].(rest := readers[i].rest[1..]);
    RestInOrder(readers[i].rest);
    var after := Advanced(readers, i);
    forall k | 0 <= k < |after| ensures after[k].rest != [] && InOrder(after[k].rest)
      && Leq(readers[i].rest[0].0, after[k].rest[0].0)
    {
      if k < |readers| - 1 {
        var from := if k < i then k else k + 1;
        assert after[k] == readers[from];
        assert !Later(readers[i], readers[from]);
      } else {
        assert after[k] == next && next.rest[0] == readers[i].rest[1];
      }
    }
  }

  function Top(r: Reader): Message
    requires r.rest != []
  {
    Message(r.id, r.subid, r.rest[0])
  }

  lemma {:induction false} MessagesAdvance(r: Reader)
    requires r.rest != []
    ensures Messages(r) == [Message(r.id, r.subid, r.rest[0])] + Messages(r.(rest := r.rest[1..]))
  {
  }

  lemma {:induction false} AdvanceUnread(readers: seq<Reader>, i: nat)
    requires Sound(readers) && i < |readers|
    ensures var m := Message(readers[i].id, readers[i].subid, readers[i].rest[0]);
      Unread(readers) == multiset{m} + Unread(Advanced(readers, i))
  {
    var r := readers[i];
    var next := r.(rest := r.rest[1..]);
    var others := readers[..i] + readers[i + 1..];
    UnreadSplit(readers, i);
    MessagesAdvance(r);
    if next.rest != [] {
      AllUnreadJoins(others, [next]);
      OneReader(next, 0);
    } else {
      Empty(others);
    }
  }

  lemma {:induction false} OthersDiffer(readers: seq<Reader>, i: nat)
    requires i < |readers| && forall k, m :: 0 <= k < m < |readers| ==> readers[k].id != readers[m].id
    ensures var others := readers[..i] + readers[i + 1..];
      forall k :: 0 <= k < |others| ==> others[k].id != readers[i].id
  {
    var others := readers[..i] + readers[i + 1..];
    forall k | 0 <= k < |others| ensures others[k].id != readers[i].id {
      assert others[k] == readers[if k < i then k else k + 1];
    }
  }

  lemma {:induction false} AdvanceOther(others: seq<Reader>, next: Reader, id: nat)
    ensures UnreadOf(others + if next.rest != [] then [next] else [], id)
            == UnreadOf(others, id) + if next.id == id then Messages(next) else []
  {
    Empty(UnreadOf(others, id));
    if next.rest != [] {
      UnreadJoins(others, [next], id);
      OneReader(next, id);
    } else {
      Empty(others);
      assert Messages(next) == [];
    }
  }

  lemma {:induction false} AdvanceUnreadOf(readers: seq<Reader>, i: nat, id: nat)
    requires Sound(readers) && i < |readers|
    ensures UnreadOf(readers, id)
            == (if readers[i].id == id then [Top(readers[i])] else []) + UnreadOf(Advanced(readers, i), id)
  {
    var r, others := readers[i], readers[..i] + readers[i + 1..];
    UnreadAt(readers, i, id);
    OthersDiffer(readers, i);
    AdvanceOther(others, r.(rest := r.rest[1..]), id);
    if id == r.id {
      NoneUnread(others, id);
      AdvanceOwn(r, UnreadOf(others, id));
    } else {
      Empty(UnreadOf(others, id));
    }
  }

  lemma {:induction false} AdvanceOwn(r: Reader, others: seq<Message>)
    requires r.rest != [] && others == []
    ensures Messages(r) == [Top(r)] + (others + Messages(r.(rest := r.rest[1..])))
  {
    MessagesAdvance(r);
    Empty(Messages(r.(rest := r.rest[1..])));
  }

  // Publishing the top message keeps the order, now and later.
  lemma {:induction false} PublishKeepsOrder(published: seq<Message>, readers: seq<Reader>, i: nat)
    requires Sound(readers) && IsTop(readers, i) && Merged(published) && Ahead(published, readers)
    ensures Sound(Advanced(readers, i))
    ensures Merged(published + [Top(readers[i])])
    ensures Ahead(published + [Top(readers[i])], Advanced(readers, i))
  {
    AdvanceKeepsSound(readers, i);
    var after := published + [Top(readers[i])];
    forall k | 0 <= k < |published| ensures Leq(published[k].record.0, readers[i].rest[0].0) {
      if k < |published| - 1 {
        LeqTransitive(published[k].record.0, published[|published| - 1].record.0, readers[i].rest[0].0);
      }
    }
  }

  /** Nothing is lost or repeated between the two moments, and each reader's messages keep their
      order. */
  ghost predicate SameStream(published: seq<Message>, readers: seq<Reader>, earlier: seq<Message>, before: seq<Reader>)
  {
    && multiset(published) + Unread(readers) == multiset(earlier) + Unread(before)
    && forall id ::
         PublishedOf(published, id) + UnreadOf(readers, id) == PublishedOf(earlier, id) + UnreadOf(before, id)
  }

  lemma {:induction false} PublishKeepsStream(published: seq<Message>, readers: seq<Reader>, i: nat)
    requires Sound(readers) && IsTop(readers, i)
    ensures SameStream(published + [Top(readers[i])], Advanced(readers, i), published, readers)
    ensures |Unread(Advanced(readers, i))| < |Unread(readers)|
  {
    AdvanceUnread(readers, i);
    forall id ensures PublishedOf(published + [Top(readers[i])], id) + UnreadOf(Advanced(readers, i), id)
                      == PublishedOf(published, id) + UnreadOf(readers, id) {
      PublishKeepsReaders(published, readers, i, id);
    }
  }

  lemma {:induction false} PublishKeepsReaders(published: seq<Message>, readers: seq<Reader>, i: nat, id: nat)
    requires Sound(readers) && IsTop(readers, i)
    ensures PublishedOf(published + [Top(readers[i])], id) + UnreadOf(Advanced(readers, i), id)
            == PublishedOf(published, id) + UnreadOf(readers, id)
  {
    AdvanceUnreadOf(readers, i, id);
    assert (published + [Top(readers[i])])[..|published|] == published;
  }

  class MessageReplayer {
    const queue: RecordReaderPQueue
    var published: seq<Message>
    var startRecordTimestamp: int

    ghost predicate Valid()
      reads this, queue
    {
      Sound(queue.readers) && Merged(published) && Ahead(published, queue.readers)
    }

    constructor ()
      ensures Valid() && fresh(queue) && queue.readers == [] && published == [] && startRecordTimestamp == 0
    {
      queue := new RecordReaderPQueue();
      published := [];
      startRecordTimestamp := 0;
    }

    /** Only a reader with something to read is registered, at any time before the replay has passed
        its first record. */
    method RegisterChannel(id: nat, subid: nat, rest: seq<Record>) returns (ok: bool)
      requires Valid() && InOrder(rest)
      requires published != [] && rest != [] ==> Leq(published[|published| - 1].record.0, rest[0].0)
      requires forall i :: 0 <= i < |queue.readers| ==> queue.readers[i].id != id
      modifies queue
      ensures Valid() && ok == (rest != [])
      ensures queue.readers == old(queue.readers) + if ok then [Reader(id, subid, rest)] else []
    {
      if rest == [] {
        return false;
      }
      queue.Push(Reader(id, subid, rest));
      ok := true;
    }

    // One round of the loop.
    method PublishNext()
      requires Valid() && queue.readers != []
      modifies this, queue
      ensures Valid()
      ensures |published| == |old(published)| + 1 && old(published) <= published
      ensures SameStream(published, queue.readers, old(published), old(queue.readers))
      ensures |Unread(queue.readers)| < |Unread(old(queue.readers))|
      ensures startRecordTimestamp == if old(startRecordTimestamp) != 0 then old(startRecordTimestamp)
                                      else published[|published| - 1].record.0.timestamp
    {
      ghost var before, sent := queue.readers, published;
      var top := queue.Pop();
      ghost var i: nat :| i < |before| && IsTop(before, i) && top == before[i]
                          && queue.readers == before[..i] + before[i + 1..];
      PublishKeepsOrder(sent, before, i);
      PublishKeepsStream(sent, before, i);
      if startRecordTimestamp == 0 {
        startRecordTimestamp := top.rest[0].0.timestamp;
      }
      published := published + [Top(top)];
      top := top.(rest := top.rest[1..]);
      if top.rest != [] {
        queue.Push(top);
      }
      assert queue.readers == Advanced(before, i);
    }

    /** The flag that stops the loop is seen before round `shutdownAt`. */
    method ReplayMessages(shutdownAt: nat)
      requires Valid()
      modifies this, queue
      ensures Valid() && old(published) <= published
      ensures SameStream(published, queue.readers, old(published), old(queue.readers))
      // it ends when told to, or with everything published
      ensures queue.readers == [] || |published| == |old(published)| + shutdownAt
    {
      var rounds := 0;
      while rounds < shutdownAt && !queue.Empty()
        invariant Valid() && old(published) <= published
        invariant |published| == |old(published)| + rounds <= |old(published)| + shutdownAt
        invariant SameStream(published, queue.readers, old(published), old(queue.readers))
        decreases |Unread(queue.readers)|
      {
        PublishNext();
        rounds := rounds + 1;
      }
    }
  }

  // ---------------------------------------------------------------- whole replays

  lemma {:induction false} StreamChain(p: seq<Message>, x: seq<Reader>, q: seq<Message>, y: seq<Reader>,
                                       r: seq<Message>, z: seq<Reader>)
    requires SameStream(p, x, q, y) && SameStream(q, y, r, z)
    ensures SameStream(p, x, r, z)
  {
  }

  /** However early a replay stops, what it published is a prefix of a complete merge: an ordered
      sequence of all messages that keeps every reader's own order. */
  lemma {:induction false} StoppedIsPrefix(published: seq<Message>, readers: seq<Reader>) returns (all: seq<Message>)
    requires Sound(readers) && Merged(published) && Ahead(published, readers)
    ensures published <= all && Merged(all) && SameStream(all, [], published, readers)
    decreases |Unread(readers)|
  {
    if readers == [] {
      all := published;
    } else {
      var i := TopExists(readers);
      PublishKeepsOrder(published, readers, i);
      PublishKeepsStream(published, readers, i);
      all := StoppedIsPrefix(published + [Top(readers[i])], Advanced(readers, i));
      StreamChain(all, [], published + [Top(readers[i])], Advanced(readers, i), published, readers);
    }
  }

  lemma {:induction false} NothingLeft(published: seq<Message>, unread: seq<Message>, id: nat)
    requires PublishedOf(published, id) + UnreadOf([], id) == PublishedOf([], id) + unread
    ensures PublishedOf(published, id) == unread
  {
    assert UnreadOf([], id) == [] && PublishedOf([], id) == [];
    assert PublishedOf(published, id) + [] == PublishedOf(published, id);
    assert [] + unread == unread;
  }

  /** A replay from the start that runs to its end publishes every message of every reader, each
      reader's in its own order. */
  lemma {:induction false} CompleteReplay(published: seq<Message>, readers: seq<Reader>)
    requires Sound(readers) && SameStream(published, [], [], readers)
    ensures multiset(published) == Unread(readers)
    ensures forall i :: 0 <= i < |readers| ==> PublishedOf(published, readers[i].id) == Messages(readers[i])
  {
    var none: seq<Message> := [];
    assert multiset(published) + Unread([]) == multiset(none) + Unread(readers);
    assert multiset(published) + Unread([]) == multiset(published);
    forall i | 0 <= i < |readers| ensures PublishedOf(published, readers[i].id) == Messages(readers[i]) {
      NothingLeft(published, UnreadOf(readers, readers[i].id), readers[i].id);
      UnreadAt(readers, i, readers[i].id);
    }
  }

  // The keys of a database that only holds printed keys.
  ghost predicate Printed(db: Db)
  {
    forall r :: r in db ==> exists k :: InRange(k) && r.key == ToBytes(k)
  }

  lemma {:induction false} AllParse(db: Db)
    requires Printed(db)
    ensures |Parsed(db)| == |db|
  {
    if db != [] {
      PrintedTail(db);
      PrintedParses(db[0].key);
      AllParse(db[1..]);
    }
  }

  lemma {:induction false} ParsedAt(db: Db, i: nat)
    requires Printed(db) && i < |db|
    ensures |Parsed(db)| == |db| && InRange(Parsed(db)[i].0)
    ensures Row(ToBytes(Parsed(db)[i].0), Parsed(db)[i].1) == db[i]
    decreases i
  {
    AllParse(db);
    PrintedTail(db);
    PrintedParses(db[0].key);
    if i > 0 {
      ParsedAt(db[1..], i - 1);
      assert Parsed(db)[i] == Parsed(db[1..])[i - 1];
    }
  }

  lemma {:induction false} PrintedParses(key: string)
    requires exists k :: InRange(k) && key == ToBytes(k)
    ensures FromBytes(key).Some? && InRange(FromBytes(key).value) && ToBytes(FromBytes(key).value) == key
  {
    var k :| InRange(k) && key == ToBytes(k);
    RoundTrip(k);
    SameBytes(k, Clamped(k));
  }

  lemma {:induction false} PrintedTail(db: Db)
    requires db != [] && Printed(db)
    ensures Printed(db[1..])
    ensures exists k :: InRange(k) && db[0].key == ToBytes(k)
  {
    assert db[0] in db;
    forall r | r in db[1..] ensures r in db {}
  }

  /** What a record database hands out is in the order the merge relies on. */
  lemma {:induction false} DatabaseReadsInOrder(db: Db)
    requires Ordered(db) && Printed(db)
    ensures |Parsed(db)| == |db| && InOrder(Parsed(db))
  {
    AllParse(db);
    forall i | 0 <= i < |db| ensures InRange(Parsed(db)[i].0) && ToBytes(Parsed(db)[i].0) == db[i].key {
      ParsedAt(db, i);
    }
    forall i, k | 0 <= i < k < |db| ensures Leq(Parsed(db)[i].0, Parsed(db)[k].0) {
      assert CompareBytes(db[i].key, db[k].key) < 0;
    }
  }
}
