/** Whole runs of the record files on one disk: those a recorder holds, src/msg_recorder/recorder.cc,
    are created, opened, closed, rolled and written to in any order. The steps are those of the class
    RecordFile. A roll generates a fresh name, or that of a directory that is open, and is refused:
    generated names have a resolution of one second. */
module RecordRuns {
  import opened Sequences
  import opened Totals
  import opened RecordKey
  import opened RecordDb
  import opened RecordDirs
  import opened Rolling
  import opened RecordSizes
  import KeyMaker
  import Files = RecordFile

  datatype File = File(name: string, open: bool, helper: Helper)

  // The directories, the record files, the rows ever put, and the last use of each directory.
  datatype Disk = Disk(dirs: Dirs, files: seq<File>, puts: seq<Row>, uses: Uses)

  datatype Op =
    | Create(name: string, helper: Helper)
    | Open(file: nat)
    | Close(file: nat)
    | Roll(file: nat, newName: string, now: int)
    | Write(file: nat, key: Key, value: string, time: int, later: int, newName: string)

  const EMPTY := Disk(map[], [], [], map[])

  // No record file uses the name.
  predicate Free(d: Disk, name: string)
  {
    name != "" && forall i :: 0 <= i < |d.files| ==> d.files[i].name != name
  }

  // Nor does any directory.
  predicate Fresh(d: Disk, name: string)
  {
    Free(d, name) && Final(name) !in d.dirs && Saving(name) !in d.dirs
  }

  predicate CanRollTo(d: Disk, newName: string)
  {
    Saving(newName) in d.dirs || Fresh(d, newName)
  }

  // What the callers see to: a new file has its name to itself, and a roll comes upon no directory
  // that is closed.
  predicate Allowed(d: Disk, op: Op)
  {
    match op
    case Create(name, helper) => Free(d, name) && Positive(helper) && (helper.BySize? ==> helper.current == 0)
    case Open(i) => i < |d.files|
    case Close(i) => i < |d.files|
    case Roll(i, newName, _) => i < |d.files| && d.files[i].open && CanRollTo(d, newName)
    case Write(i, key, value, time, _, newName) =>
      && i < |d.files| && d.files[i].open && InRange(key)
      && (NeedToRoll(d.files[i].helper, time, |value|) ==> CanRollTo(d, newName))
  }

  // The generator sees to it that keys print apart.
  ghost predicate NewKey(d: Disk, op: Op)
  {
    op.Write? && InRange(op.key) ==> forall i :: 0 <= i < |d.puts| ==> d.puts[i].key != ToBytes(op.key)
  }

  // ---------------------------------------------------------------- the steps

  function NewFile(d: Disk, name: string, helper: Helper): Disk
  {
    d.(files := d.files + [File(name, false, helper)],
       uses := d.uses[name := Taken(helper, Contents(d.dirs, name))])
  }

  function OpenFile(d: Disk, i: nat): Disk
    requires i < |d.files|
  {
    var f := d.files[i];
    if f.open || (Final(f.name) in d.dirs && Saving(f.name) in d.dirs) then d
    else d.(dirs := Opened(CheckedOut(d.dirs, f.name), f.name), files := d.files[i := f.(open := true)])
  }

  function CloseFile(d: Disk, i: nat): Disk
    requires i < |d.files| && (d.files[i].open ==> Saving(d.files[i].name) in d.dirs)
  {
    var f := d.files[i];
    if !f.open then d
    else d.(dirs := Closed(d.dirs, f.name), files := d.files[i := f.(open := false)])
  }

  // The value for which record file i leaves its directory.
  function LeaveFile(d: Disk, i: nat, size: nat, time: int): Disk
    requires i < |d.files|
  {
    d.(uses := WithLeft(d.uses, d.files[i].name, size, time))
  }

  // A directory that is open cannot be rolled to.
  function RollFile(d: Disk, i: nat, newName: string, now: int): Disk
    requires i < |d.files| && Saving(d.files[i].name) in d.dirs && Positive(d.files[i].helper)
  {
    var f := d.files[i];
    if Saving(newName) in d.dirs then d
    else
      var helper := Reset(f.helper, now);
      d.(dirs := Rolled(d.dirs, f.name, newName),
         files := d.files[i := File(newName, true, helper)],
         uses := d.uses[newName := Taken(helper, [])])
  }

  function PutFile(d: Disk, i: nat, key: Key, value: string, late: bool): Disk
    requires i < |d.files| && Saving(d.files[i].name) in d.dirs && InRange(key)
  {
    var f := d.files[i];
    var p, row := Saving(f.name), Row(ToBytes(key), value);
    Disk(d.dirs[p := Put(d.dirs[p], row.key, value)],
         d.files[i := f.(helper := Update(f.helper, |value|))],
         d.puts + [row],
         if late then WithLate(d.uses, f.name, row) else d.uses)
  }

  // ---------------------------------------------------------------- what every run keeps

  ghost predicate Held(files: seq<File>, name: string)
  {
    exists i :: 0 <= i < |files| && files[i].open && files[i].name == name
  }

  ghost predicate Named(files: seq<File>)
  {
    && (forall i :: 0 <= i < |files| ==> files[i].name != "" && Positive(files[i].helper))
    && (forall i, k :: 0 <= i < k < |files| ==> files[i].name != files[k].name)
  }

  /** Exactly the open record files have a saving directory, a committed directory of none of them is
      there, and no committed directory is empty. */
  ghost predicate Placed(dirs: Dirs, files: seq<File>)
  {
    && (forall name :: Saving(name) in dirs <==> Held(files, name))
    && (forall name :: Saving(name) in dirs ==> Final(name) !in dirs)
    && (forall p :: p in dirs && p.Final? ==> dirs[p] != [])
  }

  ghost predicate OneRowAKey(puts: seq<Row>)
  {
    forall i, k :: 0 <= i < k < |puts| ==> puts[i].key != puts[k].key
  }

  ghost predicate Orderly(d: Disk)
  {
    && Sound(d.dirs) && Named(d.files) && Placed(d.dirs, d.files)
    && StoredAre(d.dirs, d.puts) && OneRowAKey(d.puts)
  }

  function Step(d: Disk, op: Op): Disk
    requires Allowed(d, op) && Named(d.files) && Placed(d.dirs, d.files)
  {
    match op
    case Create(name, helper) => OpenFile(NewFile(d, name, helper), |d.files|)
    case Open(i) => OpenFile(d, i)
    case Close(i) =>
      IsHeld(d.files, i);
      CloseFile(d, i)
    case Roll(i, newName, now) =>
      IsHeld(d.files, i);
      RollFile(d, i, newName, now)
    case Write(i, key, value, time, later, newName) =>
      IsHeld(d.files, i);
      var due := NeedToRoll(d.files[i].helper, time, |value|);
      if due && Saving(newName) !in d.dirs
      then PutFile(RollFile(LeaveFile(d, i, |value|, time), i, newName, later), i, key, value, false)
      else PutFile(d, i, key, value, due)
  }

  lemma {:induction false} IsHeld(files: seq<File>, i: nat)
    requires i < |files|
    ensures files[i].open ==> Held(files, files[i].name)
  {
  }

  // ---------------------------------------------------------------- each step keeps it

  // What becomes of the other record files when file i is set.
  lemma {:induction false} HeldAfter(files: seq<File>, i: nat, f: File, name: string)
    requires i < |files| && forall k :: 0 <= k < |files| && k != i ==> files[k].name != files[i].name
    ensures Held(files[i := f], name)
            <==> (f.open && name == f.name) || (name != files[i].name && Held(files, name))
  {
    var after := files[i := f];
    assert after[i] == f;
    if k :| 0 <= k < |files| && files[k].open && files[k].name == name && k != i {
      assert after[k] == files[k];
    }
    if k :| 0 <= k < |files| && after[k].open && after[k].name == name && k != i {
      assert files[k] == after[k];
    }
  }

  lemma {:induction false} OnlyName(files: seq<File>, i: nat)
    requires Named(files) && i < |files|
    ensures forall k :: 0 <= k < |files| && k != i ==> files[k].name != files[i].name
    ensures Held(files, files[i].name) <==> files[i].open
  {
    IsHeld(files, i);
  }

  lemma {:induction false} OpenPlaces(dirs: Dirs, files: seq<File>, i: nat)
    requires Named(files) && Placed(dirs, files) && i < |files| && !files[i].open
    ensures Saving(files[i].name) !in dirs
    ensures var n := files[i].name;
      Placed(Opened(CheckedOut(dirs, n), n), files[i := files[i].(open := true)])
  {
    var n := files[i].name;
    OnlyName(files, i);
    forall name ensures Held(files[i := files[i].(open := true)], name) <==> name == n || Held(files, name) {
      HeldAfter(files, i, files[i].(open := true), name);
    }
  }

  lemma {:induction false} OpenKeeps(d: Disk, i: nat)
    requires Orderly(d) && i < |d.files|
    ensures Orderly(OpenFile(d, i)) && OpenFile(d, i).puts == d.puts
    ensures OpenFile(d, i).files[i].open && |OpenFile(d, i).files| == |d.files|
  {
    var f := d.files[i];
    OnlyName(d.files, i);
    if !f.open {
      OpenPlaces(d.dirs, d.files, i);
      CheckoutKeepsRows(d.dirs, f.name);
      OpenKeepsRows(CheckedOut(d.dirs, f.name), f.name);
      SameRowsStored(CheckedOut(d.dirs, f.name), d.dirs, d.puts);
      SameRowsStored(Opened(CheckedOut(d.dirs, f.name), f.name), CheckedOut(d.dirs, f.name), d.puts);
    }
  }

  lemma {:induction false} ClosePlaces(dirs: Dirs, files: seq<File>, i: nat)
    requires Sound(dirs) && Named(files) && Placed(dirs, files) && i < |files| && files[i].open
    ensures Saving(files[i].name) in dirs && Placed(Closed(dirs, files[i].name), files[i := files[i].(open := false)])
  {
    var n := files[i].name;
    OnlyName(files, i);
    ClosedContents(dirs, n);
    forall name ensures Held(files[i := files[i].(open := false)], name) <==> name != n && Held(files, name) {
      HeldAfter(files, i, files[i].(open := false), name);
    }
  }

  lemma {:induction false} CloseKeeps(d: Disk, i: nat)
    requires Orderly(d) && i < |d.files|
    ensures d.files[i].open ==> Saving(d.files[i].name) in d.dirs
    ensures Orderly(CloseFile(d, i))
  {
    if d.files[i].open {
      OnlyName(d.files, i);
      ClosePlaces(d.dirs, d.files, i);
      ClosedKeepsSound(d.dirs, d.files[i].name);
      CloseKeepsRows(d.dirs, d.files[i].name);
      SameRowsStored(Closed(d.dirs, d.files[i].name), d.dirs, d.puts);
    }
  }

  lemma {:induction false} RollPlaces(dirs: Dirs, files: seq<File>, i: nat, f: File)
    requires Sound(dirs) && Named(files) && Placed(dirs, files) && i < |files| && files[i].open
    requires f.open && Final(f.name) !in dirs && Saving(f.name) !in dirs
    ensures Saving(files[i].name) in dirs && f.name != files[i].name
    ensures Placed(Rolled(dirs, files[i].name, f.name), files[i := f])
  {
    var n := files[i].name;
    OnlyName(files, i);
    ClosedContents(Opened(dirs, f.name), n);
    forall name ensures Held(files[i := f], name) <==> name == f.name || (name != n && Held(files, name)) {
      HeldAfter(files, i, f, name);
    }
  }

  lemma {:induction false} RollNames(d: Disk, i: nat, newName: string, now: int)
    requires Named(d.files) && i < |d.files| && Free(d, newName)
    ensures Named(d.files[i := File(newName, true, Reset(d.files[i].helper, now))])
  {
  }

  lemma {:induction false} RollKeeps(d: Disk, i: nat, newName: string, now: int)
    requires Orderly(d) && i < |d.files| && d.files[i].open && CanRollTo(d, newName)
    ensures Saving(d.files[i].name) in d.dirs && Orderly(RollFile(d, i, newName, now))
    ensures Named(RollFile(d, i, newName, now).files) && |RollFile(d, i, newName, now).files| == |d.files|
    ensures RollFile(d, i, newName, now).files[i].open && RollFile(d, i, newName, now).puts == d.puts
  {
    OnlyName(d.files, i);
    if Saving(newName) !in d.dirs { FreshRollKeeps(d, i, newName, now); }
  }

  lemma {:induction false} FreshRollKeeps(d: Disk, i: nat, newName: string, now: int)
    requires Orderly(d) && i < |d.files| && d.files[i].open && Fresh(d, newName)
    ensures Saving(d.files[i].name) in d.dirs && Orderly(RollFile(d, i, newName, now))
  {
    var f := File(newName, true, Reset(d.files[i].helper, now));
    OnlyName(d.files, i);
    RollPlaces(d.dirs, d.files, i, f);
    RollNames(d, i, newName, now);
    ClosedKeepsSound(Opened(d.dirs, newName), d.files[i].name);
    RollKeepsRows(d.dirs, d.files[i].name, newName);
    SameRowsStored(Rolled(d.dirs, d.files[i].name, newName), d.dirs, d.puts);
  }

  /** A key is stored exactly if some row put has it. */
  lemma {:induction false} StoredMeansPut(dirs: Dirs, puts: seq<Row>, key: string)
    requires StoredAre(dirs, puts)
    ensures Files.KeyStored(dirs, key) <==> exists i :: 0 <= i < |puts| && puts[i].key == key
  {
    if p :| p in dirs && Has(dirs[p], key) {
      var i :| 0 <= i < |dirs[p]| && dirs[p][i].key == key;
      var row := dirs[p][i];
      TotalSplit(dirs, p, CountOf(row));
      assert row in multiset(dirs[p]) && Copies(dirs, row) == multiset(puts)[row];
      assert row in puts;
    }
    if i :| 0 <= i < |puts| && puts[i].key == key {
      var row := puts[i];
      assert row in multiset(puts) && Copies(dirs, row) == multiset(puts)[row];
      var p := SomeHolder(dirs, row);
      var m :| 0 <= m < |dirs[p]| && dirs[p][m] == row;
    }
  }

  lemma {:induction false} PutPlaces(dirs: Dirs, files: seq<File>, i: nat, f: File, db: Db)
    requires Named(files) && Placed(dirs, files) && i < |files| && files[i].open
    requires f.name == files[i].name && f.open
    ensures Saving(f.name) in dirs && Placed(dirs[Saving(f.name) := db], files[i := f])
  {
    OnlyName(files, i);
    forall name ensures Held(files[i := f], name) <==> Held(files, name) {
      HeldAfter(files, i, f, name);
    }
  }

  lemma {:induction false} PutKeeps(d: Disk, i: nat, key: Key, value: string, late: bool)
    requires Orderly(d) && i < |d.files| && d.files[i].open && InRange(key)
    requires forall k :: 0 <= k < |d.puts| ==> d.puts[k].key != ToBytes(key)
    ensures Saving(d.files[i].name) in d.dirs && Orderly(PutFile(d, i, key, value, late))
  {
    var f, bytes := d.files[i], ToBytes(key);
    OnlyName(d.files, i);
    RoundTrip(key);
    var p := Saving(f.name);
    PutPlaces(d.dirs, d.files, i, f.(helper := Update(f.helper, |value|)), Put(d.dirs[p], bytes, value));
    PutKeepsSound(d.dirs, p, bytes, value);
    StoredMeansPut(d.dirs, d.puts, bytes);
    Files.PutStores(d.dirs, d.puts, p, bytes, value);
  }

  lemma {:induction false} CreateNames(d: Disk, name: string, helper: Helper)
    requires Orderly(d) && Free(d, name) && Positive(helper)
    ensures Orderly(NewFile(d, name, helper))
  {
    var more := d.files + [File(name, false, helper)];
    forall n ensures Held(more, n) <==> Held(d.files, n) {
      if i :| 0 <= i < |d.files| && d.files[i].open && d.files[i].name == n {
        assert more[i] == d.files[i];
      }
      if i :| 0 <= i < |more| && more[i].open && more[i].name == n {
        assert d.files[i] == more[i];
      }
    }
  }

  lemma {:induction false} StepKeeps(d: Disk, op: Op)
    requires Orderly(d) && Allowed(d, op) && NewKey(d, op)
    ensures Orderly(Step(d, op))
  {
    match op
    case Create(name, helper) =>
      CreateNames(d, name, helper);
      OpenKeeps(NewFile(d, name, helper), |d.files|);
    case Open(i) => OpenKeeps(d, i);
    case Close(i) => CloseKeeps(d, i);
    case Roll(i, newName, now) => RollKeeps(d, i, newName, now);
    case Write(i, key, value, time, later, newName) =>
      var due := NeedToRoll(d.files[i].helper, time, |value|);
      if due && Saving(newName) !in d.dirs {
        var left := LeaveFile(d, i, |value|, time);
        RollKeeps(left, i, newName, later);
        PutKeeps(RollFile(left, i, newName, later), i, key, value, false);
      } else {
        PutKeeps(d, i, key, value, due);
      }
  }

  // ---------------------------------------------------------------- the bounds of rolling by size

  /** Every directory is within the bounds of its last use, and the helper of each record file has
      counted exactly the bytes put there. */
  ghost predicate Sized(d: Disk)
  {
    && (forall p :: p in d.dirs ==> p.name in d.uses)
    && (forall name :: name in d.uses ==> Bounded(d.uses[name], Contents(d.dirs, name)))
    && (forall i :: 0 <= i < |d.files| ==> FileSized(d, i))
  }

  ghost predicate FileSized(d: Disk, i: nat)
    requires i < |d.files|
  {
    var f := d.files[i];
    f.name in d.uses && Tallied(f.helper, d.uses[f.name], Contents(d.dirs, f.name))
  }

  predicate JustTaken(d: Disk, name: string)
  {
    name in d.uses && d.uses[name].late == [] && d.uses[name].found == Contents(d.dirs, name)
  }

  // Only the directory of the name was put to, or taken.
  ghost predicate SameElsewhere(d: Disk, dirs: Dirs, uses: Uses, name: string)
  {
    && (forall p :: p in dirs && p.name != name ==> p.name in d.uses)
    && (forall other :: other != name ==> Contents(dirs, other) == Contents(d.dirs, other))
    && (forall other :: other != name ==> (other in uses <==> other in d.uses))
    && (forall other :: other != name && other in d.uses ==> uses[other] == d.uses[other])
  }

  lemma {:induction false} OneFileSizes(d: Disk, e: Disk, i: nat)
    requires Sized(d) && i < |e.files| && FileSized(e, i) && SameElsewhere(d, e.dirs, e.uses, e.files[i].name)
    requires forall k :: 0 <= k < |e.files| && k != i ==>
               k < |d.files| && e.files[k] == d.files[k] && e.files[k].name != e.files[i].name
    ensures Sized(e)
  {
    forall k | 0 <= k < |e.files| ensures FileSized(e, k) {
      var f := e.files[k];
      if k != i {
        assert FileSized(d, k);
        assert Contents(e.dirs, f.name) == Contents(d.dirs, f.name);
      }
    }
  }

  // Opening and closing change no database.
  lemma {:induction false} MovedSizes(d: Disk, dirs: Dirs, i: nat, open: bool)
    requires Sized(d) && Named(d.files) && i < |d.files|
    requires forall name :: Contents(dirs, name) == Contents(d.dirs, name)
    requires forall p :: p in dirs ==> p.name in d.uses
    ensures Sized(d.(dirs := dirs, files := d.files[i := d.files[i].(open := open)]))
  {
    assert FileSized(d, i);
    OneFileSizes(d, d.(dirs := dirs, files := d.files[i := d.files[i].(open := open)]), i);
  }

  lemma {:induction false} OpenKeepsSizes(d: Disk, i: nat)
    requires Orderly(d) && Sized(d) && i < |d.files|
    ensures Sized(OpenFile(d, i))
  {
    var f := d.files[i];
    OnlyName(d.files, i);
    assert FileSized(d, i);
    if !f.open {
      var dirs := Opened(CheckedOut(d.dirs, f.name), f.name);
      forall name ensures Contents(dirs, name) == Contents(d.dirs, name) {
        OpenKeepsContents(d.dirs, f.name, name);
      }
      MovedSizes(d, dirs, i, true);
    }
  }

  lemma {:induction false} CloseKeepsSizes(d: Disk, i: nat)
    requires Orderly(d) && Sized(d) && i < |d.files| && d.files[i].open
    ensures Saving(d.files[i].name) in d.dirs && Sized(CloseFile(d, i))
  {
    var f := d.files[i];
    OnlyName(d.files, i);
    ClosedContents(d.dirs, f.name);
    forall name ensures Contents(Closed(d.dirs, f.name), name) == Contents(d.dirs, name) {
      CloseKeepsContents(d.dirs, f.name, name);
    }
    MovedSizes(d, Closed(d.dirs, f.name), i, false);
  }

  lemma {:induction false} NewFileKeepsSizes(d: Disk, name: string, helper: Helper)
    requires Orderly(d) && Sized(d) && Allowed(d, Create(name, helper))
    ensures Sized(NewFile(d, name, helper))
  {
    var e := NewFile(d, name, helper);
    assert e.files[|d.files|] == File(name, false, helper);
    assert FileSized(e, |d.files|);
    assert SameElsewhere(d, e.dirs, e.uses, name);
    OneFileSizes(d, e, |d.files|);
  }

  lemma {:induction false} RollKeepsSizes(d: Disk, i: nat, newName: string, now: int)
    requires Orderly(d) && Sized(d) && i < |d.files| && d.files[i].open && Fresh(d, newName)
    ensures Saving(d.files[i].name) in d.dirs && Sized(RollFile(d, i, newName, now))
    ensures Contents(RollFile(d, i, newName, now).dirs, newName) == []
  {
    var f, helper := d.files[i], Reset(d.files[i].helper, now);
    OnlyName(d.files, i);
    RollKeepsContents(d.dirs, f.name, newName, newName);
    RollElsewhere(d, f.name, newName, helper);
    TakenSizes(d, Rolled(d.dirs, f.name, newName), i, File(newName, true, helper));
  }

  lemma {:induction false} TakenSizes(d: Disk, dirs: Dirs, i: nat, f: File)
    requires Sized(d) && i < |d.files| && Free(d, f.name)
    requires Contents(dirs, f.name) == [] && (f.helper.BySize? ==> f.helper.current == 0)
    requires SameElsewhere(d, dirs, d.uses[f.name := Taken(f.helper, [])], f.name)
    ensures Sized(Disk(dirs, d.files[i := f], d.puts, d.uses[f.name := Taken(f.helper, [])]))
  {
    OneFileSizes(d, Disk(dirs, d.files[i := f], d.puts, d.uses[f.name := Taken(f.helper, [])]), i);
  }

  lemma {:induction false} RollElsewhere(d: Disk, name: string, newName: string, helper: Helper)
    requires Sound(d.dirs) && Saving(name) in d.dirs && Final(name) !in d.dirs && Fresh(d, newName)
    requires forall p :: p in d.dirs ==> p.name in d.uses
    ensures SameElsewhere(d, Rolled(d.dirs, name, newName), d.uses[newName := Taken(helper, [])], newName)
  {
    forall other ensures Contents(Rolled(d.dirs, name, newName), other) == Contents(d.dirs, other) {
      RollKeepsContents(d.dirs, name, newName, other);
    }
    ClosedContents(Opened(d.dirs, newName), name);
  }

  lemma {:induction false} PutElsewhere(d: Disk, name: string, db: Db, uses: Uses)
    requires Saving(name) in d.dirs && (forall p :: p in d.dirs ==> p.name in d.uses)
    requires uses == d.uses || exists row :: uses == WithLate(d.uses, name, row)
    ensures SameElsewhere(d, d.dirs[Saving(name) := db], uses, name)
  {
  }

  lemma {:induction false} PutSized(d: Disk, i: nat, key: Key, value: string, late: bool)
    requires Sized(d) && Named(d.files) && i < |d.files| && Saving(d.files[i].name) in d.dirs && InRange(key)
    requires var f, row := d.files[i], Row(ToBytes(key), value);
      && f.name in d.uses
      && Tallied(Update(f.helper, |value|),
                 if late then d.uses[f.name].(late := d.uses[f.name].late + [row]) else d.uses[f.name],
                 Put(d.dirs[Saving(f.name)], row.key, value))
    ensures Sized(PutFile(d, i, key, value, late))
  {
    var f, e := d.files[i], PutFile(d, i, key, value, late);
    OnlyName(d.files, i);
    PutElsewhere(d, f.name, e.dirs[Saving(f.name)], e.uses);
    OneFileSizes(d, e, i);
  }

  lemma {:induction false} PutKeepsSizes(d: Disk, i: nat, key: Key, value: string, time: int, late: bool)
    requires Orderly(d) && Sized(d) && i < |d.files| && d.files[i].open && InRange(key)
    requires forall k :: 0 <= k < |d.puts| ==> d.puts[k].key != ToBytes(key)
    requires late || !NeedToRoll(d.files[i].helper, time, |value|) || JustTaken(d, d.files[i].name)
    ensures Saving(d.files[i].name) in d.dirs && Sized(PutFile(d, i, key, value, late))
  {
    var f, bytes := d.files[i], ToBytes(key);
    OnlyName(d.files, i);
    assert FileSized(d, i);
    StoredMeansPut(d.dirs, d.puts, bytes);
    var db := d.dirs[Saving(f.name)];
    assert !Has(db, bytes);
    PutTallies(f.helper, d.uses[f.name], db, bytes, value, time, late);
    PutSized(d, i, key, value, late);
  }

  lemma {:induction false} LeaveKeepsSizes(d: Disk, i: nat, size: nat, time: int)
    requires Named(d.files) && Sized(d) && i < |d.files| && NeedToRoll(d.files[i].helper, time, size)
    ensures Sized(LeaveFile(d, i, size, time))
  {
    var f := d.files[i];
    assert FileSized(d, i);
    LeavingIsRipe(f.helper, d.uses[f.name], Contents(d.dirs, f.name), size, time);
    OneFileSizes(d, LeaveFile(d, i, size, time), i);
  }

  lemma {:induction false} StepKeepsSizes(d: Disk, op: Op)
    requires Orderly(d) && Sized(d) && Allowed(d, op) && NewKey(d, op)
    ensures Sized(Step(d, op))
  {
    match op
    case Create(name, helper) =>
      CreateNames(d, name, helper);
      NewFileKeepsSizes(d, name, helper);
      OpenKeepsSizes(NewFile(d, name, helper), |d.files|);
    case Open(i) => OpenKeepsSizes(d, i);
    case Close(i) => if d.files[i].open { CloseKeepsSizes(d, i); }
    case Roll(i, newName, now) =>
      OnlyName(d.files, i);
      if Saving(newName) !in d.dirs { RollKeepsSizes(d, i, newName, now); }
    case Write(i, key, value, time, later, newName) =>
      OnlyName(d.files, i);
      var due := NeedToRoll(d.files[i].helper, time, |value|);
      if due && Saving(newName) !in d.dirs {
        var left := LeaveFile(d, i, |value|, time);
        LeaveKeepsSizes(d, i, |value|, time);
        RollKeeps(left, i, newName, later);
        RollKeepsSizes(left, i, newName, later);
        PutKeepsSizes(RollFile(left, i, newName, later), i, key, value, time, false);
      } else {
        PutKeepsSizes(d, i, key, value, time, due);
      }
  }

  /** Opening again undoes closing, as when a snapshot closes the record files, copies the directory
      and opens them: each continues with the same rows under the same name. */
  lemma {:induction false} ReopenUndoesClose(d: Disk, i: nat)
    requires Orderly(d) && i < |d.files| && d.files[i].open
    ensures Orderly(Step(d, Close(i)))
    ensures Step(Step(d, Close(i)), Open(i)) == d
  {
    var f := d.files[i];
    CloseKeeps(d, i);
    OnlyName(d.files, i);
    IsHeld(d.files, i);
    ReopenFile(d, i);
  }

  lemma {:induction false} ReopenFile(d: Disk, i: nat)
    requires Sound(d.dirs) && i < |d.files| && d.files[i].open
    requires Saving(d.files[i].name) in d.dirs && Final(d.files[i].name) !in d.dirs
    ensures OpenFile(CloseFile(d, i), i) == d
  {
    var f := d.files[i];
    ReopenDirs(d.dirs, f.name);
    assert CloseFile(d, i).files[i] == f.(open := false);
    assert CloseFile(d, i).files[i := f] == d.files;
  }

  // ---------------------------------------------------------------- runs

  /** The callers see to names in every state the run comes to. */
  ghost predicate CanRun(d: Disk, ops: seq<Op>)
    decreases |ops|
  {
    ops == [] ||
    (Named(d.files) && Placed(d.dirs, d.files) ==> Allowed(d, ops[0]) && CanRun(Step(d, ops[0]), ops[1..]))
  }

  ghost function RunOf(d: Disk, ops: seq<Op>): Disk
    decreases |ops|
  {
    if ops == [] || !(Named(d.files) && Placed(d.dirs, d.files) && Allowed(d, ops[0])) then d
    else RunOf(Step(d, ops[0]), ops[1..])
  }

  /** The keys a run writes under, and the rows, in order. */
  function KeysOf(ops: seq<Op>): seq<Key>
    decreases |ops|
  {
    if ops == [] then [] else (if ops[0].Write? then [ops[0].key] else []) + KeysOf(ops[1..])
  }

  ghost function RowsOf(ops: seq<Op>): seq<Row>
    decreases |ops|
  {
    if ops == [] then []
    else (if ops[0].Write? && InRange(ops[0].key) then [Row(ToBytes(ops[0].key), ops[0].value)] else [])
         + RowsOf(ops[1..])
  }

  // No key of the run was used before it.
  ghost predicate KeysAreNew(keys: seq<Key>, puts: seq<Row>)
  {
    forall i, k :: 0 <= i < |keys| && InRange(keys[i]) && 0 <= k < |puts| ==> puts[k].key != ToBytes(keys[i])
  }

  lemma {:induction false} FirstKey(ops: seq<Op>, puts: seq<Row>)
    requires ops != [] && KeyMaker.PrintsApart(KeysOf(ops)) && KeysAreNew(KeysOf(ops), puts)
    ensures KeyMaker.PrintsApart(KeysOf(ops[1..]))
    ensures var more := if ops[0].Write? && InRange(ops[0].key) then [Row(ToBytes(ops[0].key), ops[0].value)] else [];
      KeysAreNew(KeysOf(ops[1..]), puts + more)
    ensures ops[0].Write? ==> InRange(ops[0].key) && forall k :: 0 <= k < |puts| ==> puts[k].key != ToBytes(ops[0].key)
  {
    var keys, rest := KeysOf(ops), KeysOf(ops[1..]);
    if ops[0].Write? {
      assert keys == [ops[0].key] + rest && keys[0] == ops[0].key;
      assert forall i :: 0 <= i < |rest| ==> rest[i] == keys[i + 1];
    } else {
      assert keys == rest;
    }
  }

  lemma {:induction false} StepPuts(d: Disk, op: Op)
    requires Named(d.files) && Placed(d.dirs, d.files) && Allowed(d, op)
    ensures Step(d, op).puts == d.puts + if op.Write? then [Row(ToBytes(op.key), op.value)] else []
  {
    Empty(d.puts);
  }

  lemma {:induction false} RunsKeep(d: Disk, ops: seq<Op>)
    requires Orderly(d) && Sized(d) && CanRun(d, ops)
    requires KeyMaker.PrintsApart(KeysOf(ops)) && KeysAreNew(KeysOf(ops), d.puts)
    ensures Orderly(RunOf(d, ops)) && Sized(RunOf(d, ops)) && RunOf(d, ops).puts == d.puts + RowsOf(ops)
    decreases |ops|
  {
    if ops == [] {
      Empty(d.puts);
    } else {
      var next := Step(d, ops[0]);
      FirstKey(ops, d.puts);
      StepKeeps(d, ops[0]);
      StepKeepsSizes(d, ops[0]);
      StepPuts(d, ops[0]);
      Empty(d.puts);
      RunsKeep(next, ops[1..]);
      Regroup(d.puts, if ops[0].Write? then [Row(ToBytes(ops[0].key), ops[0].value)] else [], RowsOf(ops[1..]));
    }
  }

  lemma {:induction false} StartIsOrderly()
    ensures Orderly(EMPTY) && Sized(EMPTY)
  {
    forall row ensures Copies(map[], row) == 0 {}
  }

  /** The life of the record directories, over any run of any number of record files on an empty disk
      with fresh names and keys that print apart. Every row that was put is stored once, in one
      directory, and nothing else is stored. A saving directory is there exactly while a record file
      has it open. So once all are closed every directory is committed, and none is empty. */
  lemma {:induction false} EveryRecordIsKept(ops: seq<Op>)
    requires CanRun(EMPTY, ops) && KeyMaker.PrintsApart(KeysOf(ops))
    ensures var d := RunOf(EMPTY, ops);
      && (forall row :: Copies(d.dirs, row) == if row in RowsOf(ops) then 1 else 0)
      && (forall row :: row in RowsOf(ops) ==>
            exists p :: p in d.dirs && row in d.dirs[p] && forall q :: q in d.dirs && row in d.dirs[q] ==> q == p)
      && (forall p :: p in d.dirs && p.Saving? <==> p.Saving? && Held(d.files, p.name))
      && (forall p :: p in d.dirs && p.Final? ==> d.dirs[p] != [] && !Held(d.files, p.name))
      && ((forall i :: 0 <= i < |d.files| ==> !d.files[i].open) ==> forall p :: p in d.dirs ==> p.Final?)
  {
    var d := RunOf(EMPTY, ops);
    StartIsOrderly();
    RunsKeep(EMPTY, ops);
    assert d.puts == RowsOf(ops);
    forall row ensures Copies(d.dirs, row) == if row in RowsOf(ops) then 1 else 0 {
      CountOnce(d.puts, row);
    }
    forall row | row in RowsOf(ops)
      ensures exists p :: p in d.dirs && row in d.dirs[p] && forall q :: q in d.dirs && row in d.dirs[q] ==> q == p
    {
      OneCopyOneDirectory(d.dirs, row);
    }
  }

  lemma {:induction false} AllCommitted(d: Disk, p: Path)
    requires Placed(d.dirs, d.files) && p in d.dirs && forall i :: 0 <= i < |d.files| ==> !d.files[i].open
    ensures p.Final? && d.dirs[p] != []
  {
    assert !Held(d.files, p.name);
  }

  lemma {:induction false} CountOnce(puts: seq<Row>, row: Row)
    requires OneRowAKey(puts)
    ensures multiset(puts)[row] == if row in puts then 1 else 0
  {
    if puts != [] {
      var init, last := puts[..|puts| - 1], puts[|puts| - 1];
      CountOnce(init, row);
      assert puts == init + [last];
      assert last !in init;
    }
  }

  // ---------------------------------------------------------------- the sizes of all directories

  ghost predicate Clean(uses: Uses)
  {
    forall name :: name in uses ==> uses[name].found == [] && uses[name].late == []
  }

  /** No record file is created on an old directory, and no roll that is due is refused. */
  ghost predicate Smooth(d: Disk, ops: seq<Op>)
    decreases |ops|
  {
    ops != [] && Named(d.files) && Placed(d.dirs, d.files) && Allowed(d, ops[0]) ==>
      SmoothStep(d, ops[0]) && Smooth(Step(d, ops[0]), ops[1..])
  }

  predicate SmoothStep(d: Disk, op: Op)
    requires Allowed(d, op)
  {
    match op
    case Create(name, _) => Fresh(d, name)
    case Write(i, _, value, time, _, newName) =>
      NeedToRoll(d.files[i].helper, time, |value|) ==> Saving(newName) !in d.dirs
    case Open(_) => true
    case Close(_) => true
    case Roll(_, _, _) => true
  }

  lemma {:induction false} SmoothIsClean(d: Disk, ops: seq<Op>)
    requires Smooth(d, ops) && Clean(d.uses)
    ensures Clean(RunOf(d, ops).uses)
    decreases |ops|
  {
    if ops != [] && Named(d.files) && Placed(d.dirs, d.files) && Allowed(d, ops[0]) {
      SmoothIsClean(Step(d, ops[0]), ops[1..]);
    }
  }

  lemma {:induction false} SizesOfDirectories(d: Disk)
    requires Placed(d.dirs, d.files) && Sized(d)
    ensures forall p :: p in d.dirs ==> p.name in d.uses && Bounded(d.uses[p.name], d.dirs[p])
    ensures forall i :: 0 <= i < |d.files| ==>
              && d.files[i].name in d.uses
              && Tallied(d.files[i].helper, d.uses[d.files[i].name], Contents(d.dirs, d.files[i].name))
  {
    forall p | p in d.dirs ensures p.name in d.uses && Bounded(d.uses[p.name], d.dirs[p]) {
      assert Contents(d.dirs, p.name) == d.dirs[p];
    }
    forall i | 0 <= i < |d.files|
      ensures d.files[i].name in d.uses
      ensures Tallied(d.files[i].helper, d.uses[d.files[i].name], Contents(d.dirs, d.files[i].name))
    {
      assert FileSized(d, i);
    }
  }

  lemma {:induction false} CleanDirectories(d: Disk)
    requires Placed(d.dirs, d.files) && Sized(d) && Clean(d.uses)
    ensures forall p :: p in d.dirs ==> p.name in d.uses
    ensures forall p :: p in d.dirs && d.uses[p.name].helper.BySize? ==>
              && (Bytes(d.dirs[p]) < d.uses[p.name].helper.limit || |d.dirs[p]| <= 1)
              && (d.uses[p.name].left.Some? ==>
                    Bytes(d.dirs[p]) + d.uses[p.name].left.value.size >= d.uses[p.name].helper.limit)
    ensures forall i :: 0 <= i < |d.files| && d.files[i].helper.BySize? ==>
              Bytes(Contents(d.dirs, d.files[i].name)) == d.files[i].helper.current
  {
    SizesOfDirectories(d);
  }

  /** Rolling by size, over the same runs. The values that a record file put into a directory are below
      its limit or there is one, whether the directory is still open or was committed long ago; not
      counted are the rows that were there before and those put although a roll was due but refused. If
      there are none of either, each directory itself is below the limit or has one row. The helper of
      each record file has counted exactly what was put. */
  lemma {:induction false} EveryDirectoryIsBounded(ops: seq<Op>)
    requires CanRun(EMPTY, ops) && KeyMaker.PrintsApart(KeysOf(ops))
    ensures var d := RunOf(EMPTY, ops);
      && (forall p :: p in d.dirs ==> p.name in d.uses && Bounded(d.uses[p.name], d.dirs[p]))
      && (forall i :: 0 <= i < |d.files| ==>
            && d.files[i].name in d.uses
            && Tallied(d.files[i].helper, d.uses[d.files[i].name], Contents(d.dirs, d.files[i].name)))
    ensures var d := RunOf(EMPTY, ops);
      Smooth(EMPTY, ops) ==>
        && (forall p :: p in d.dirs && d.uses[p.name].helper.BySize? ==>
              && (Bytes(d.dirs[p]) < d.uses[p.name].helper.limit || |d.dirs[p]| <= 1)
              && (d.uses[p.name].left.Some? ==>
                    Bytes(d.dirs[p]) + d.uses[p.name].left.value.size >= d.uses[p.name].helper.limit))
        && (forall i :: 0 <= i < |d.files| && d.files[i].helper.BySize? ==>
              Bytes(Contents(d.dirs, d.files[i].name)) == d.files[i].helper.current)
  {
    var d := RunOf(EMPTY, ops);
    StartIsOrderly();
    RunsKeep(EMPTY, ops);
    SizesOfDirectories(d);
    if Smooth(EMPTY, ops) {
      SmoothIsClean(EMPTY, ops);
      CleanDirectories(d);
    }
  }

  // ---------------------------------------------------------------- keys from the generator

  // Each write has a key of its own among those made.
  ghost predicate Drawn(keys: seq<Key>, made: seq<Key>, draw: seq<nat>)
  {
    && |draw| == |keys|
    && (forall i :: 0 <= i < |keys| ==> draw[i] < |made| && keys[i] == made[draw[i]])
    && (forall i, k :: 0 <= i < k < |draw| ==> draw[i] != draw[k])
  }

  lemma {:induction false} DrawnPrintApart(keys: seq<Key>, made: seq<Key>, draw: seq<nat>)
    requires Drawn(keys, made, draw) && KeyMaker.PrintsApart(made)
    ensures KeyMaker.PrintsApart(keys)
  {
    forall i, k | 0 <= i < k < |keys| ensures ToBytes(keys[i]) != ToBytes(keys[k]) {
      if draw[i] < draw[k] {
        assert ToBytes(made[draw[i]]) != ToBytes(made[draw[k]]);
      } else {
        assert ToBytes(made[draw[k]]) != ToBytes(made[draw[i]]);
      }
    }
  }

  /** The record files of several threads that draw their keys from the shared generator: whatever
      the interleaving of the calls, no record is lost or overwritten, provided the clock reads do not
      print alike, as after 1970 they never do. */
  lemma {:induction false} MadeKeysAreKept(ops: seq<Op>, labels: seq<KeyMaker.Label>, clocks: iset<int>, draw: seq<nat>)
    requires CanRun(EMPTY, ops)
    requires KeyMaker.OneSlot(clocks) && KeyMaker.ReadsOnly(labels, clocks)
    requires KeyMaker.CanRun(KeyMaker.Init(), labels) && KeyMaker.Bounded(KeyMaker.RunOf(KeyMaker.Init(), labels))
    requires Drawn(KeysOf(ops), KeyMaker.RunOf(KeyMaker.Init(), labels).made, draw)
    ensures var d := RunOf(EMPTY, ops);
      forall row :: Copies(d.dirs, row) == if row in RowsOf(ops) then 1 else 0
  {
    KeyMaker.OneSlotPrintsApart(labels, clocks);
    DrawnPrintApart(KeysOf(ops), KeyMaker.RunOf(KeyMaker.Init(), labels).made, draw);
    EveryRecordIsKept(ops);
  }
}
