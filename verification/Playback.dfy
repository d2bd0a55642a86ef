/** From recording to replay: the replayer's GetRecordItr (src/msg_recorder/replayer.cc) on the
    directories that runs of record files leave, and what of them a whole replay publishes. */
module Playback {
  import opened Sequences
  import opened Totals
  import opened RecordKey
  import opened RecordDb
  import opened RecordDirs
  import opened Rolling
  import KeyMaker
  import F = RecordFile
  import R = RecordRuns
  import Replay

  type Message = Replay.Message

  const SUFFIX := ".ldb.d"

  predicate EndsWith(s: string, suffix: string)
  {
    |suffix| <= |s| && s[|s| - |suffix|..] == suffix
  }

  /** The name is that of a record directory right in the directory of the channel. */
  predicate Matches(channel: string, name: string)
  {
    && |channel| < |name| && name[..|channel|] == channel && name[|channel|] == '/'
    && '/' !in name[|channel| + 1..] && EndsWith(name[|channel| + 1..], SUFFIX)
  }

  /** Which names these are. */
  lemma {:induction false} MatchesExactly(channel: string, name: string)
    ensures Matches(channel, name) <==> exists file :: IsNamed(channel, file, name)
  {
    if Matches(channel, name) { MatchSplits(channel, name); }
    if file :| IsNamed(channel, file, name) { NamedMatches(channel, file, name); }
  }

  predicate IsNamed(channel: string, file: string, name: string)
  {
    '/' !in file && name == channel + "/" + file + ".ldb.d"
  }

  lemma {:induction false} MatchSplits(channel: string, name: string)
    requires Matches(channel, name)
    ensures exists file :: IsNamed(channel, file, name)
  {
    var rest := name[|channel| + 1..];
    var file := rest[..|rest| - 6];
    assert rest == file + ".ldb.d";
    assert name == channel + "/" + rest;
    assert forall k :: 0 <= k < |file| ==> file[k] == rest[k];
    assert IsNamed(channel, file, name);
  }

  lemma {:induction false} NamedMatches(channel: string, file: string, name: string)
    requires IsNamed(channel, file, name)
    ensures Matches(channel, name)
  {
    var rest := file + ".ldb.d";
    assert name[|channel| + 1..] == rest;
    assert forall k :: 0 <= k < |rest| ==> rest[k] != '/';
    assert rest[|file|..] == ".ldb.d";
  }

  lemma {:induction false} SlashAfter(s: string, i: nat, k: nat)
    ensures i < k < |s| && s[k] == '/' ==> '/' in s[i + 1..]
  {
    if i < k < |s| { assert s[i + 1..][k - i - 1] == s[k]; }
  }

  lemma {:induction false} OneChannel(a: string, b: string, name: string)
    requires Matches(a, name) && Matches(b, name)
    ensures a == b
  {
    SlashAfter(name, |a|, |b|);
    SlashAfter(name, |b|, |a|);
  }

  // Committed directories of the channel, which are those without the suffix of unfinished ones.
  predicate Listed(dirs: Dirs, channel: string, name: string)
  {
    Final(name) in dirs && Matches(channel, name)
  }

  /** The one directory of the channel that is replayed. */
  ghost predicate IsFirst(dirs: Dirs, channel: string, name: string)
  {
    Listed(dirs, channel, name) && forall other :: Listed(dirs, channel, other) ==> CompareBytes(name, other) <= 0
  }

  lemma {:induction false} FirstIsUnique(dirs: Dirs, channel: string, a: string, b: string)
    requires IsFirst(dirs, channel, a) && IsFirst(dirs, channel, b)
    ensures a == b
  {
    CompareTotal(a, b);
  }

  method ListSubdirsWithSuffix(dirs: Dirs, channel: string) returns (matches: seq<string>)
    ensures forall name :: name in matches <==> Listed(dirs, channel, name)
  {
    matches := [];
    var left := dirs.Keys;
    while left != {}
      invariant left <= dirs.Keys
      invariant forall name :: name in matches <==> Listed(dirs, channel, name) && Final(name) !in left
      decreases |left|
    {
      var p :| p in left;
      left := left - {p};
      if p.Final? && Matches(channel, p.name) {
        matches := matches + [p.name];
      }
    }
  }

  lemma {:induction false} LeastExists(names: seq<string>) returns (least: string)
    requires names != []
    ensures least in names && forall other :: other in names ==> CompareBytes(least, other) <= 0
  {
    var init, last := names[..|names| - 1], names[|names| - 1];
    assert names == init + [last];
    CompareTotal(last, last);
    if init == [] {
      least := last;
    } else {
      least := LeastExists(init);
      CompareTotal(least, last);
      if CompareBytes(last, least) < 0 {
        SmallerIsLeast(init, least, last);
        least := last;
      }
    }
  }

  lemma {:induction false} SmallerIsLeast(names: seq<string>, least: string, smaller: string)
    requires CompareBytes(smaller, least) < 0 && forall other :: other in names ==> CompareBytes(least, other) <= 0
    ensures forall other :: other in names ==> CompareBytes(smaller, other) <= 0
  {
    forall other | other in names ensures CompareBytes(smaller, other) <= 0 {
      CompareTotal(least, other);
      if least != other { CompareTransitive(smaller, least, other); }
    }
  }

  datatype Registration = Registered | NothingToRead | Thrown

  /** Opens the first directory of the channel, in lexical order, and reads it; any other directory
      of the channel is left out. Without a directory, or with that one unfinished as well, the source
      throws. */
  method GetRecordItr(fs: F.FileSystem, channel: string) returns (ok: bool, first: string, rest: seq<(Key, string)>)
    requires fs.Valid()
    modifies fs
    ensures fs.Valid() && SameRows(fs.dirs, old(fs.dirs))
    ensures ok <==> exists name :: IsFirst(old(fs.dirs), channel, name) && Saving(name) !in old(fs.dirs)
    ensures !ok ==> fs.dirs == old(fs.dirs)
    ensures ok ==> && IsFirst(old(fs.dirs), channel, first) && Saving(first) !in old(fs.dirs)
                   && fs.dirs == Opened(CheckedOut(old(fs.dirs), first), first)
                   && rest == Parsed(old(fs.dirs)[Final(first)])
  {
    ok, first, rest := false, "", [];
    var matches := ListSubdirsWithSuffix(fs.dirs, channel);
    if matches == [] {
      return;
    }
    // the first one once they are sorted
    ghost var some := LeastExists(matches);
    first :| first in matches && forall other :: other in matches ==> CompareBytes(first, other) <= 0;
    assert IsFirst(fs.dirs, channel, first);
    forall name | IsFirst(fs.dirs, channel, name) ensures name == first {
      FirstIsUnique(fs.dirs, channel, name, first);
    }
    var file := new F.RecordFile(fs, first, NoRolling);
    ok := file.open;
    if ok {
      rest := ReadForward(fs.dirs[Saving(first)]);
    }
  }

  /** Registers the records of that directory, if it has any. */
  method RegisterChannel(fs: F.FileSystem, replayer: Replay.MessageReplayer, id: nat, subid: nat, channel: string)
      returns (r: Registration)
    requires fs.Valid() && replayer.Valid() && replayer.published == []
    requires forall p :: p in fs.dirs ==> Replay.Printed(fs.dirs[p])
    requires forall i :: 0 <= i < |replayer.queue.readers| ==> replayer.queue.readers[i].id != id
    modifies fs, replayer.queue
    ensures fs.Valid() && replayer.Valid() && SameRows(fs.dirs, old(fs.dirs))
    ensures r == Thrown <==> forall name :: IsFirst(old(fs.dirs), channel, name) ==> Saving(name) in old(fs.dirs)
    ensures r != Registered ==> replayer.queue.readers == old(replayer.queue.readers)
    ensures forall name :: IsFirst(old(fs.dirs), channel, name) && r != Thrown ==>
              && (r == Registered <==> old(fs.dirs)[Final(name)] != [])
              && replayer.queue.readers == old(replayer.queue.readers) +
                   if r == Registered then [Replay.Reader(id, subid, Parsed(old(fs.dirs)[Final(name)]))] else []
  {
    ghost var before := fs.dirs;
    var ok, first, rest := GetRecordItr(fs, channel);
    if !ok {
      return Thrown;
    }
    forall name | IsFirst(before, channel, name) ensures name == first {
      FirstIsUnique(before, channel, name, first);
    }
    assert Ordered(before[Final(first)]);
    Replay.DatabaseReadsInOrder(before[Final(first)]);
    ok := replayer.RegisterChannel(id, subid, rest);
    r := if ok then Registered else NothingToRead;
  }

  // ---------------------------------------------------------------- the rows of messages

  ghost predicate InRangeAll(messages: seq<Message>)
  {
    forall i :: 0 <= i < |messages| ==> InRange(messages[i].record.0)
  }

  /** The rows that were published, in order. */
  function PublishedRows(messages: seq<Message>): (rows: seq<Row>)
    requires InRangeAll(messages)
    ensures |rows| == |messages|
    ensures forall i :: 0 <= i < |rows| ==> rows[i] == Row(ToBytes(messages[i].record.0), messages[i].record.1)
  {
    seq(|messages|, i requires 0 <= i < |messages| => Row(ToBytes(messages[i].record.0), messages[i].record.1))
  }

  lemma {:induction false} RowsJoin(a: seq<Message>, b: seq<Message>)
    requires InRangeAll(a) && InRangeAll(b)
    ensures InRangeAll(a + b) && PublishedRows(a + b) == PublishedRows(a) + PublishedRows(b)
  {
  }

  lemma {:induction false} RowTakenOut(messages: seq<Message>, i: nat)
    requires InRangeAll(messages) && i < |messages|
    ensures InRangeAll(messages[..i] + messages[i + 1..])
    ensures multiset(PublishedRows(messages))
            == multiset(PublishedRows(messages[..i] + messages[i + 1..])) + multiset{PublishedRows(messages)[i]}
  {
    TakeOut(PublishedRows(messages), i);
    assert PublishedRows(messages[..i] + messages[i + 1..])
           == PublishedRows(messages)[..i] + PublishedRows(messages)[i + 1..];
  }

  lemma {:induction false} FirstTakenOut(a: seq<Message>, b: seq<Message>) returns (i: nat)
    requires a != [] && multiset(a) == multiset(b)
    ensures i < |b| && b[i] == a[0] && multiset(a[1..]) == multiset(b[..i] + b[i + 1..])
  {
    assert a[0] in multiset(b);
    i :| i < |b| && b[i] == a[0];
    assert a == [a[0]] + a[1..];
    assert multiset(a[1..]) == multiset(a) - multiset{a[0]};
    TakeOut(b, i);
    assert multiset(b[..i] + b[i + 1..]) == multiset(b) - multiset{b[i]};
  }

  lemma {:induction false} SameMessagesSameRows(a: seq<Message>, b: seq<Message>)
    requires InRangeAll(a) && InRangeAll(b) && multiset(a) == multiset(b)
    ensures multiset(PublishedRows(a)) == multiset(PublishedRows(b))
  {
    if a == [] {
      assert |multiset(a)| == |multiset(b)|;
      assert b == a;
    } else {
      var i := FirstTakenOut(a, b);
      var rest := b[..i] + b[i + 1..];
      FirstRow(a);
      RowTakenOut(b, i);
      SameMessagesSameRows(a[1..], rest);
      assert PublishedRows(a)[0] == PublishedRows(b)[i];
    }
  }

  lemma {:induction false} FirstRow(messages: seq<Message>)
    requires messages != [] && InRangeAll(messages)
    ensures InRangeAll(messages[1..])
    ensures multiset(PublishedRows(messages))
            == multiset(PublishedRows(messages[1..])) + multiset{PublishedRows(messages)[0]}
  {
    var rows, rest := PublishedRows(messages), PublishedRows(messages[1..]);
    assert rows == [rows[0]] + rest;
  }

  /** The readers of the directories, registered one after another. */
  function Readers(dirs: Dirs, firsts: seq<string>, subids: seq<nat>): (readers: seq<Replay.Reader>)
    requires |subids| == |firsts| && forall j :: 0 <= j < |firsts| ==> Final(firsts[j]) in dirs
    ensures |readers| == |firsts|
    ensures forall j :: 0 <= j < |firsts| ==> readers[j] == Replay.Reader(j, subids[j], Parsed(dirs[Final(firsts[j])]))
  {
    seq(|firsts|, j requires 0 <= j < |firsts| => Replay.Reader(j, subids[j], Parsed(dirs[Final(firsts[j])])))
  }

  function AllMessages(readers: seq<Replay.Reader>): seq<Message>
  {
    if readers == [] then [] else AllMessages(readers[..|readers| - 1]) + Replay.Messages(readers[|readers| - 1])
  }

  lemma {:induction false} AllAreUnread(readers: seq<Replay.Reader>)
    ensures multiset(AllMessages(readers)) == Replay.Unread(readers)
  {
    if readers != [] {
      var init, last := readers[..|readers| - 1], readers[|readers| - 1];
      AllAreUnread(init);
      assert readers == init + [last];
      Replay.AllUnreadJoins(init, [last]);
      Replay.OneReader(last, 0);
    }
  }

  function Joined(dirs: Dirs, firsts: seq<string>): seq<Row>
    requires forall j :: 0 <= j < |firsts| ==> Final(firsts[j]) in dirs
  {
    if firsts == [] then []
    else Joined(dirs, firsts[..|firsts| - 1]) + dirs[Final(firsts[|firsts| - 1])]
  }

  // A database of printed keys reads back to itself.
  lemma {:induction false} ReaderRows(r: Replay.Reader, db: Db)
    requires Replay.Printed(db) && r.rest == Parsed(db)
    ensures InRangeAll(Replay.Messages(r)) && PublishedRows(Replay.Messages(r)) == db
  {
    Replay.AllParse(db);
    forall i | 0 <= i < |db| ensures InRange(r.rest[i].0) && Row(ToBytes(r.rest[i].0), r.rest[i].1) == db[i] {
      Replay.ParsedAt(db, i);
    }
  }

  lemma {:induction false} AllRows(dirs: Dirs, firsts: seq<string>, subids: seq<nat>)
    requires |subids| == |firsts| && forall j :: 0 <= j < |firsts| ==> Final(firsts[j]) in dirs
    requires forall p :: p in dirs ==> Replay.Printed(dirs[p])
    ensures InRangeAll(AllMessages(Readers(dirs, firsts, subids)))
    ensures PublishedRows(AllMessages(Readers(dirs, firsts, subids))) == Joined(dirs, firsts)
  {
    if firsts != [] {
      var k := |firsts| - 1;
      var readers := Readers(dirs, firsts, subids);
      AllRows(dirs, firsts[..k], subids[..k]);
      assert readers[..k] == Readers(dirs, firsts[..k], subids[..k]);
      ReaderRows(readers[k], dirs[Final(firsts[k])]);
      RowsJoin(AllMessages(readers[..k]), Replay.Messages(readers[k]));
    }
  }

  function Omitted(dirs: Dirs, firsts: seq<string>): Dirs
  {
    map p | p in dirs && !(p.Final? && p.name in firsts) :: dirs[p]
  }

  lemma {:induction false} JoinedOrOmitted(dirs: Dirs, firsts: seq<string>, row: Row)
    requires forall j :: 0 <= j < |firsts| ==> Final(firsts[j]) in dirs
    requires forall i, j :: 0 <= i < j < |firsts| ==> firsts[i] != firsts[j]
    ensures multiset(Joined(dirs, firsts))[row] + Copies(Omitted(dirs, firsts), row) == Copies(dirs, row)
  {
    if firsts == [] {
      assert Omitted(dirs, firsts) == dirs;
    } else {
      var init, last := firsts[..|firsts| - 1], firsts[|firsts| - 1];
      JoinedOrOmitted(dirs, init, row);
      assert firsts == init + [last] && last !in init;
      TotalSplit(Omitted(dirs, init), Final(last), CountOf(row));
      assert Omitted(dirs, init) - {Final(last)} == Omitted(dirs, firsts);
    }
  }

  // ---------------------------------------------------------------- what a whole replay publishes

  lemma {:induction false} PrintedRows(ops: seq<R.Op>)
    ensures forall row :: row in R.RowsOf(ops) ==> exists k :: InRange(k) && row.key == ToBytes(k)
    decreases |ops|
  {
    if ops != [] {
      PrintedRows(ops[1..]);
    }
  }

  lemma {:induction false} PutsArePrinted(dirs: Dirs, puts: seq<Row>, p: Path)
    requires StoredAre(dirs, puts) && p in dirs
    requires forall row :: row in puts ==> exists k :: InRange(k) && row.key == ToBytes(k)
    ensures Replay.Printed(dirs[p])
  {
    forall row | row in dirs[p] ensures row in puts {
      TotalSplit(dirs, p, CountOf(row));
      assert row in multiset(dirs[p]);
      assert Copies(dirs, row) == multiset(puts)[row];
      assert row in multiset(puts);
    }
  }

  lemma {:induction false} ReadersAreSound(dirs: Dirs, firsts: seq<string>, subids: seq<nat>)
    requires Sound(dirs) && forall p :: p in dirs ==> Replay.Printed(dirs[p])
    requires |subids| == |firsts|
    requires forall j :: 0 <= j < |firsts| ==> Final(firsts[j]) in dirs && dirs[Final(firsts[j])] != []
    ensures Replay.Sound(Readers(dirs, firsts, subids))
  {
    var readers := Readers(dirs, firsts, subids);
    forall j | 0 <= j < |firsts| ensures readers[j].rest != [] && Replay.InOrder(readers[j].rest) {
      var db := dirs[Final(firsts[j])];
      assert SoundDb(db) && Replay.Printed(db);
      Replay.DatabaseReadsInOrder(db);
    }
  }

  /** A whole replay publishes the rows of the first directories and omits those of all others. */
  lemma {:induction false} WholeReplay(dirs: Dirs, firsts: seq<string>, subids: seq<nat>, published: seq<Message>)
    requires Sound(dirs) && forall p :: p in dirs ==> Replay.Printed(dirs[p])
    requires |subids| == |firsts| && forall i, j :: 0 <= i < j < |firsts| ==> firsts[i] != firsts[j]
    requires forall j :: 0 <= j < |firsts| ==> Final(firsts[j]) in dirs && dirs[Final(firsts[j])] != []
    requires InRangeAll(published) && Replay.SameStream(published, [], [], Readers(dirs, firsts, subids))
    ensures forall row ::
              multiset(PublishedRows(published))[row] + Copies(Omitted(dirs, firsts), row) == Copies(dirs, row)
  {
    var readers := Readers(dirs, firsts, subids);
    ReadersAreSound(dirs, firsts, subids);
    Replay.CompleteReplay(published, readers);
    AllAreUnread(readers);
    AllRows(dirs, firsts, subids);
    SameMessagesSameRows(published, AllMessages(readers));
    forall row
      ensures multiset(PublishedRows(published))[row] + Copies(Omitted(dirs, firsts), row) == Copies(dirs, row)
    {
      JoinedOrOmitted(dirs, firsts, row);
    }
  }

  /** Every directory is committed, and the only one of some channel. */
  ghost predicate OneEach(dirs: Dirs, channels: seq<string>)
  {
    forall p :: p in dirs ==> p.Final? && exists j :: 0 <= j < |channels| && OnlyOne(dirs, channels[j], p.name)
  }

  ghost predicate OnlyOne(dirs: Dirs, channel: string, name: string)
  {
    Matches(channel, name) && forall other :: Listed(dirs, channel, other) ==> other == name
  }

  ghost predicate FirstsOf(dirs: Dirs, channels: seq<string>, firsts: seq<string>)
  {
    && |firsts| == |channels|
    && (forall j :: 0 <= j < |channels| ==> IsFirst(dirs, channels[j], firsts[j]))
    && (forall i, j :: 0 <= i < j < |channels| ==> channels[i] != channels[j])
  }

  lemma {:induction false} FirstsDiffer(dirs: Dirs, channels: seq<string>, firsts: seq<string>)
    requires FirstsOf(dirs, channels, firsts)
    ensures forall i, j :: 0 <= i < j < |firsts| ==> firsts[i] != firsts[j]
  {
    forall i, j | 0 <= i < j < |firsts| ensures firsts[i] != firsts[j] {
      if firsts[i] == firsts[j] {
        OneChannel(channels[i], channels[j], firsts[i]);
      }
    }
  }

  lemma {:induction false} OneEachIsFirst(dirs: Dirs, channels: seq<string>, firsts: seq<string>)
    requires FirstsOf(dirs, channels, firsts)
    ensures OneEach(dirs, channels) <==> Omitted(dirs, firsts) == map[]
  {
    if OneEach(dirs, channels) {
      forall p | p in dirs ensures p !in Omitted(dirs, firsts) {
        var j :| 0 <= j < |channels| && OnlyOne(dirs, channels[j], p.name);
        assert IsFirst(dirs, channels[j], firsts[j]);
      }
    }
    if Omitted(dirs, firsts) == map[] {
      forall p | p in dirs
        ensures p.Final? && exists j :: 0 <= j < |channels| && OnlyOne(dirs, channels[j], p.name)
      {
        assert p !in Omitted(dirs, firsts);
        var j :| 0 <= j < |firsts| && firsts[j] == p.name;
        AllListedAreFirst(dirs, channels, firsts, j);
        assert OnlyOne(dirs, channels[j], p.name);
      }
    }
  }

  lemma {:induction false} AllListedAreFirst(dirs: Dirs, channels: seq<string>, firsts: seq<string>, j: nat)
    requires FirstsOf(dirs, channels, firsts) && j < |channels| && Omitted(dirs, firsts) == map[]
    ensures OnlyOne(dirs, channels[j], firsts[j])
  {
    assert IsFirst(dirs, channels[j], firsts[j]);
    forall other | Listed(dirs, channels[j], other) ensures other == firsts[j] {
      var k := PlaceOfListed(dirs, firsts, other);
      assert IsFirst(dirs, channels[k], firsts[k]);
      OneChannel(channels[j], channels[k], other);
    }
  }

  lemma {:induction false} PlaceOfListed(dirs: Dirs, firsts: seq<string>, name: string) returns (k: nat)
    requires Final(name) in dirs && Omitted(dirs, firsts) == map[]
    ensures k < |firsts| && firsts[k] == name
  {
    assert Final(name) !in Omitted(dirs, firsts);
    k :| 0 <= k < |firsts| && firsts[k] == name;
  }

  lemma {:induction false} NothingOmitted(dirs: Dirs)
    requires forall p :: p in dirs ==> dirs[p] != []
    ensures dirs == map[] <==> forall row :: Copies(dirs, row) == 0
  {
    forall row ensures Copies(map[], row) == 0 {}
    if dirs != map[] {
      var p :| p in dirs;
      var row := dirs[p][0];
      TotalSplit(dirs, p, CountOf(row));
      assert row in multiset(dirs[p]);
      assert Copies(dirs, row) > 0;
    }
  }

  lemma {:induction false} ReplayOfDisk(d: R.Disk, channels: seq<string>, firsts: seq<string>,
                                        subids: seq<nat>, published: seq<Message>)
    requires R.Orderly(d) && forall row :: row in d.puts ==> exists k :: InRange(k) && row.key == ToBytes(k)
    requires FirstsOf(d.dirs, channels, firsts) && |subids| == |firsts| && InRangeAll(published)
    requires Replay.SameStream(published, [], [], Readers(d.dirs, firsts, subids))
    ensures forall row ::
              multiset(PublishedRows(published))[row] + Copies(Omitted(d.dirs, firsts), row) == multiset(d.puts)[row]
  {
    forall p | p in d.dirs ensures Replay.Printed(d.dirs[p]) {
      PutsArePrinted(d.dirs, d.puts, p);
    }
    FirstsDiffer(d.dirs, channels, firsts);
    forall j | 0 <= j < |firsts| ensures Final(firsts[j]) in d.dirs && d.dirs[Final(firsts[j])] != [] {
      assert IsFirst(d.dirs, channels[j], firsts[j]);
    }
    WholeReplay(d.dirs, firsts, subids, published);
    forall row ensures multiset(PublishedRows(published))[row] + Copies(Omitted(d.dirs, firsts), row)
                       == multiset(d.puts)[row]
    {
      assert Copies(d.dirs, row) == multiset(d.puts)[row];
    }
  }

  lemma {:induction false} AllPublished(dirs: Dirs, channels: seq<string>, firsts: seq<string>,
                                        rows: seq<Row>, puts: seq<Row>)
    requires FirstsOf(dirs, channels, firsts) && forall p :: p in dirs ==> dirs[p] != []
    requires forall row :: multiset(rows)[row] + Copies(Omitted(dirs, firsts), row) == multiset(puts)[row]
    ensures multiset(rows) == multiset(puts) <==> OneEach(dirs, channels)
  {
    OneEachIsFirst(dirs, channels, firsts);
    NothingOmitted(Omitted(dirs, firsts));
    if multiset(rows) == multiset(puts) {
      forall row ensures Copies(Omitted(dirs, firsts), row) == 0 {
        assert multiset(rows)[row] == multiset(puts)[row];
      }
    }
  }

  /** Recorded, then replayed: of the rows that any run of record files put, on an empty disk with names
      seen to and keys that print apart, a whole replay of channels that have a directory publishes
      each once or omits it, and omits exactly what is not in a channel's first directory. Once the
      record files are closed, it publishes exactly the rows put if and only if each directory is the
      only one of a channel that is replayed. */
  lemma {:induction false} RecordedIsReplayed(ops: seq<R.Op>, channels: seq<string>, firsts: seq<string>,
                                              subids: seq<nat>, published: seq<Message>)
    requires R.CanRun(R.EMPTY, ops) && KeyMaker.PrintsApart(R.KeysOf(ops))
    requires FirstsOf(R.RunOf(R.EMPTY, ops).dirs, channels, firsts) && |subids| == |firsts|
    requires Replay.Merged(published)
    requires Replay.SameStream(published, [], [], Readers(R.RunOf(R.EMPTY, ops).dirs, firsts, subids))
    ensures InRangeAll(published)
    ensures var d := R.RunOf(R.EMPTY, ops);
      && (forall row :: multiset(PublishedRows(published))[row] + Copies(Omitted(d.dirs, firsts), row)
                        == if row in R.RowsOf(ops) then 1 else 0)
      && ((forall i :: 0 <= i < |d.files| ==> !d.files[i].open) ==>
            (multiset(PublishedRows(published)) == multiset(R.RowsOf(ops)) <==> OneEach(d.dirs, channels)))
  {
    var d := R.RunOf(R.EMPTY, ops);
    R.StartIsOrderly();
    R.RunsKeep(R.EMPTY, ops);
    PrintedRows(ops);
    assert d.puts == R.RowsOf(ops);
    ReplayOfDisk(d, channels, firsts, subids, published);
    forall row ensures multiset(d.puts)[row] == if row in R.RowsOf(ops) then 1 else 0 {
      R.CountOnce(d.puts, row);
    }
    if forall i :: 0 <= i < |d.files| ==> !d.files[i].open {
      forall p | p in d.dirs ensures d.dirs[p] != [] {
        R.AllCommitted(d, p);
      }
      AllPublished(d.dirs, channels, firsts, PublishedRows(published), d.puts);
    }
  }
}
