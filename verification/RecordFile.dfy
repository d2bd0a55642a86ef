/** RecordFile of src/msg_recorder/record_file.cc: opening, writing, rolling and closing, against
    the set of record directories. */
module RecordFile {
  import opened Totals
  import opened RecordKey
  import opened RecordDb
  import opened RecordDirs
  import opened Rolling
  import opened RecordSizes

  datatype OpenResult = Success | Refused | Thrown

  /** The disk: record directories, those LevelDB holds open, the rows ever put, and the last use of
      each directory. */
  class FileSystem {
    var dirs: Dirs
    var locked: set<Path>
    ghost var puts: seq<Row>
    ghost var uses: Uses

    ghost predicate Balanced()
      reads this
    {
      StoredAre(dirs, puts)
    }

    ghost predicate Valid()
      reads this
    {
      Sound(dirs) && (forall p :: p in locked ==> p.Saving? && p in dirs)
    }

    constructor ()
      ensures Valid() && Balanced() && dirs == map[] && locked == {} && puts == [] && uses == map[]
    {
      dirs, locked, puts, uses := map[], {}, [], map[];
    }

    // db_->Put
    method PutRow(p: Path, key: string, value: string)
      requires Valid() && p in dirs && FromBytes(key).Some?
      modifies this`dirs, this`puts
      ensures Valid() && dirs == old(dirs)[p := Put(old(dirs)[p], key, value)] && puts == old(puts) + [Row(key, value)]
      ensures Row(key, value) in dirs[p]
    {
      PutStores(dirs, puts, p, key, value);
      PutKeepsSound(dirs, p, key, value);
      dirs := dirs[p := Put(dirs[p], key, value)];
      puts := puts + [Row(key, value)];
    }
  }

  // OpenDB succeeds: there is a path, no other directory in the way, and nobody has it open.
  predicate CanOpen(dirs: Dirs, locked: set<Path>, name: string)
  {
    name != "" && !(Final(name) in dirs && Saving(name) in dirs) && Saving(name) !in locked
  }

  class RecordFile {
    const fs: FileSystem
    var name: string         // filepath_
    var open: bool           // db_ != nullptr
    var helper: Helper       // *rolling_helper_

    ghost predicate Valid()
      reads this, fs
    {
      fs.Valid() && Holds(fs.dirs, fs.locked)
    }

    // What the record file relies on from the disk.
    ghost predicate Holds(dirs: Dirs, locked: set<Path>)
      reads this
    {
      Positive(helper) && (open ==> Saving(name) in dirs && Saving(name) in locked)
    }

    /** The open database is within the bounds of rolling by size. */
    ghost predicate Measured()
      requires Valid() && open
      reads this, fs
    {
      name in fs.uses && Tallied(helper, fs.uses[name], fs.dirs[Saving(name)])
    }

    /** A new record file starts with a new helper and tries to open its database. Where the source
        throws, because both directories exist, the object stays closed and the disk untouched. */
    constructor (fs: FileSystem, name: string, helper: Helper)
      requires fs.Valid() && Positive(helper) && (helper.BySize? ==> helper.current == 0)
      modifies fs
      ensures Valid() && this.fs == fs && this.name == name && this.helper == helper
      ensures open <==> CanOpen(old(fs.dirs), old(fs.locked), name)
      ensures fs.dirs == if open then Opened(CheckedOut(old(fs.dirs), name), name) else old(fs.dirs)
      ensures fs.locked == if open then old(fs.locked) + {Saving(name)} else old(fs.locked)
      ensures fs.uses == if open then old(fs.uses)[name := Taken(helper, fs.dirs[Saving(name)])] else old(fs.uses)
      ensures open ==> Measured()
      ensures SameRows(fs.dirs, old(fs.dirs)) && fs.puts == old(fs.puts)
    {
      this.fs, this.name, this.helper := fs, name, helper;
      open := false;
      new;
      var _ := OpenDB();
      if open {
        fs.uses := fs.uses[name := Taken(helper, fs.dirs[Saving(name)])];
      }
    }

    // leveldb::DB::Open of the saving directory; it fails if that is already open somewhere.
    method OpenPath(path: string) returns (ok: bool)
      requires fs.Valid()
      modifies fs
      ensures fs.Valid() && fs.puts == old(fs.puts) && fs.uses == old(fs.uses)
      ensures ok <==> Saving(path) !in old(fs.locked)
      ensures fs.dirs == if ok then Opened(old(fs.dirs), path) else old(fs.dirs)
      ensures fs.locked == if ok then old(fs.locked) + {Saving(path)} else old(fs.locked)
      ensures SameRows(fs.dirs, old(fs.dirs))
    {
      OpenKeepsRows(fs.dirs, path);
      if Saving(path) in fs.locked {
        return false;
      }
      fs.dirs := Opened(fs.dirs, path);
      fs.locked := fs.locked + {Saving(path)};
      ok := true;
    }

    method OpenDB() returns (r: OpenResult)
      requires Valid()
      modifies fs, this`open
      ensures Valid() && fs.puts == old(fs.puts) && fs.uses == old(fs.uses)
      ensures open <==> old(open) || r == Success
      ensures r == Success <==> !old(open) && CanOpen(old(fs.dirs), old(fs.locked), name)
      ensures r == Thrown <==> !old(open) && name != "" && Final(name) in old(fs.dirs) && Saving(name) in old(fs.dirs)
      ensures fs.dirs == if r == Success then Opened(CheckedOut(old(fs.dirs), name), name) else old(fs.dirs)
      ensures fs.locked == if r == Success then old(fs.locked) + {Saving(name)} else old(fs.locked)
      ensures SameRows(fs.dirs, old(fs.dirs))
    {
      if open || name == "" {
        return Refused;
      }
      // CheckoutDB
      if Final(name) in fs.dirs && Saving(name) in fs.dirs {
        return Thrown;
      }
      CheckoutKeepsRows(fs.dirs, name);
      fs.dirs := CheckedOut(fs.dirs, name);
      var ok := OpenPath(name);
      if !ok {
        return Refused;
      }
      open := true;
      r := Success;
    }

    /** Commits the database, or removes it if it is empty. */
    method CloseDB()
      requires Valid()
      modifies fs, this`open
      ensures Valid() && !open && fs.puts == old(fs.puts) && fs.uses == old(fs.uses)
      ensures fs.locked == if old(open) then old(fs.locked) - {Saving(name)} else old(fs.locked)
      ensures fs.dirs == if old(open) then Closed(old(fs.dirs), name) else old(fs.dirs)
      ensures SameRows(fs.dirs, old(fs.dirs)) <==> !old(open) || ClosesSafely(old(fs.dirs), name)
    {
      if !open {
        return;
      }
      CloseKeepsRows(fs.dirs, name);
      ClosedKeepsSound(fs.dirs, name);
      open := false;
      fs.locked := fs.locked - {Saving(name)};
      fs.dirs := Closed(fs.dirs, name);
    }

    /** Switch to a new directory. The old one is committed, or removed if it is empty. */
    method Roll(newName: string, now: int) returns (ok: bool)
      requires Valid() && open
      modifies fs, this
      ensures Valid() && open && fs.puts == old(fs.puts)
      ensures ok <==> Saving(newName) !in old(fs.locked)
      ensures !ok ==> fs.dirs == old(fs.dirs) && fs.locked == old(fs.locked) && fs.uses == old(fs.uses)
                      && name == old(name) && helper == old(helper)
      ensures ok ==> && fs.dirs == Rolled(old(fs.dirs), old(name), newName)
                     && fs.locked == old(fs.locked) + {Saving(newName)} - {Saving(old(name))}
                     && name == newName && helper == Reset(old(helper), now)
                     && fs.uses == old(fs.uses)[newName := Taken(helper, fs.dirs[Saving(newName)])] && Measured()
      ensures SameRows(fs.dirs, old(fs.dirs)) <==> !ok || ClosesSafely(old(fs.dirs), old(name))
    {
      ghost var before, from := fs.dirs, name;
      ok := OpenPath(newName);
      if !ok {
        return;
      }
      RollKeepsRows(before, from, newName);
      ClosedKeepsSound(fs.dirs, name);
      CloseDB();
      SwitchTo(newName, now);
    }

    // The last lines of Roll: take over the database that is open under the new name.
    method SwitchTo(newName: string, now: int)
      requires fs.Valid() && Positive(helper)
      requires Saving(newName) in fs.dirs && Saving(newName) in fs.locked
      modifies this, fs`uses
      ensures Valid() && open && name == newName && helper == Reset(old(helper), now)
      ensures fs.uses == old(fs.uses)[newName := Taken(helper, fs.dirs[Saving(newName)])] && Measured()
    {
      open := true;
      name := newName;
      helper := Reset(helper, now);
      fs.uses := fs.uses[newName := Taken(helper, fs.dirs[Saving(newName)])];
    }

    // Put into the open database, and the helper's update.
    method PutRow(key: string, value: string)
      requires Valid() && open && FromBytes(key).Some?
      modifies fs`dirs, fs`puts, this`helper
      ensures Valid()
      ensures fs.dirs == old(fs.dirs)[Saving(name) := Put(old(fs.dirs)[Saving(name)], key, value)]
      ensures fs.puts == old(fs.puts) + [Row(key, value)]
      ensures helper == Update(old(helper), |value|) && Row(key, value) in fs.dirs[Saving(name)]
    {
      fs.PutRow(Saving(name), key, value);
      helper := Update(helper, |value|);
    }

    // The same, with what it means for the use of the directory. The value arrived at `time`, and is
    // `late` if it stays although a roll is due.
    method PutUsed(key: string, value: string, ghost time: int, ghost late: bool)
      requires Valid() && open && FromBytes(key).Some?
      modifies fs`dirs, fs`puts, fs`uses, this`helper
      ensures Valid()
      ensures fs.dirs == old(fs.dirs)[Saving(name) := Put(old(fs.dirs)[Saving(name)], key, value)]
      ensures fs.puts == old(fs.puts) + [Row(key, value)]
      ensures helper == Update(old(helper), |value|) && Row(key, value) in fs.dirs[Saving(name)]
      ensures fs.uses == if late then WithLate(old(fs.uses), name, Row(key, value)) else old(fs.uses)
      ensures (&& old(Measured()) && !Has(old(fs.dirs)[Saving(name)], key)
               && (late || !NeedToRoll(old(helper), time, |value|) || old(JustTaken()))) ==> Measured()
    {
      ghost var h, uses, db := helper, fs.uses, fs.dirs[Saving(name)];
      ghost var measured := Measured() && !Has(db, key) && (late || !NeedToRoll(h, time, |value|) || JustTaken());
      PutRow(key, value);
      if late {
        fs.uses := WithLate(uses, name, Row(key, value));
      }
      if measured {
        PutTallies(h, uses[name], db, key, value, time, late);
      }
    }

    // Nothing was put since the directory was taken.
    ghost predicate JustTaken()
      requires Valid() && open
      reads this, fs
    {
      name in fs.uses && fs.uses[name].late == [] && fs.uses[name].found == fs.dirs[Saving(name)]
    }

    // Whether a value that arrives now goes to a new directory.
    predicate Rolls(size: nat, time: int, newName: string)
      reads this, fs
    {
      NeedToRoll(helper, time, size) && Saving(newName) !in fs.locked
    }

    /** Where the roll is refused, the current database stays. */
    method RollIfNeeded(size: nat, time: int, later: int, newName: string)
      requires Valid() && open
      modifies fs, this
      ensures Valid() && open && fs.puts == old(fs.puts)
      ensures if old(Rolls(size, time, newName))
              then && name == newName && helper == Reset(old(helper), later)
                   && fs.dirs == Rolled(old(fs.dirs), old(name), newName)
                   && fs.locked == old(fs.locked) + {Saving(newName)} - {Saving(old(name))}
                   && fs.uses == WithLeft(old(fs.uses), old(name), size, time)[
                                   newName := Taken(helper, fs.dirs[Saving(newName)])] && Measured()
              else && name == old(name) && helper == old(helper)
                   && fs.dirs == old(fs.dirs) && fs.locked == old(fs.locked) && fs.uses == old(fs.uses)
      // never too early
      ensures old(Rolls(size, time, newName)) ==>
                && (old(helper).BySize? ==> old(helper).current + size >= old(helper).limit)
                && (old(helper).ByTime? ==> time >= old(helper).timeToRoll)
                && !old(helper).NoRolling?
                && (old(Measured()) ==> Ripe(fs.uses[old(name)], old(fs.dirs)[Saving(old(name))]))
      // and in time
      ensures (&& helper.ByTime?
               && if old(Rolls(size, time, newName)) then time <= later else !NeedToRoll(helper, time, size)) ==>
                time < helper.timeToRoll
      ensures SameRows(fs.dirs, old(fs.dirs))
              <==> !old(Rolls(size, time, newName)) || ClosesSafely(old(fs.dirs), old(name))
    {
      if !NeedToRoll(helper, time, size) {
        return;
      }
      ghost var uses, from, h, db := fs.uses, name, helper, fs.dirs[Saving(name)];
      ghost var measured := Measured();
      var rolled := Roll(newName, later);
      RollsWhenDue(h, time, size);
      if rolled {
        fs.uses := WithLeft(uses, from, size, time)[newName := Taken(helper, fs.dirs[Saving(newName)])];
        if measured { LeavingIsRipe(h, uses[from], db, size, time); }
        if helper.ByTime? { NextRollingTime(later, helper.interval); }
      }
    }

    /** `time` is the clock when the value arrives, `later` the clock if a roll resets the helper,
        `newName` the directory name such a roll generates. */
    method Write(key: Key, value: string, time: int, later: int, newName: string)
      requires Valid() && open && InRange(key)
      modifies fs, this
      ensures Valid() && open
      ensures fs.puts == old(fs.puts) + [Row(ToBytes(key), value)]
      ensures var row, due, rolls := Row(ToBytes(key), value), old(NeedToRoll(helper, time, |value|)),
                                     old(Rolls(|value|, time, newName));
        && name == (if rolls then newName else old(name))
        && helper == Update(if rolls then Reset(old(helper), later) else old(helper), |value|)
        && fs.locked == (if rolls then old(fs.locked) + {Saving(newName)} - {Saving(old(name))}
                         else old(fs.locked))
        && var dirs := if rolls then Rolled(old(fs.dirs), old(name), newName) else old(fs.dirs);
           && Saving(name) in dirs
           && fs.dirs == dirs[Saving(name) := Put(dirs[Saving(name)], row.key, value)]
           && row in fs.dirs[Saving(name)]
           && fs.uses == (if rolls
                          then WithLeft(old(fs.uses), old(name), |value|, time)[
                                 newName := Taken(Reset(old(helper), later), dirs[Saving(newName)])]
                          else if due then WithLate(old(fs.uses), name, row) else old(fs.uses))
           // by size
           && ((rolls || old(Measured())) && !Has(dirs[Saving(name)], row.key) ==> Measured())
           && (rolls && old(Measured()) ==> Ripe(fs.uses[old(name)], old(fs.dirs)[Saving(old(name))]))
      // by time
      ensures (&& helper.ByTime?
               && if old(Rolls(|value|, time, newName)) then time <= later
                  else !old(NeedToRoll(helper, time, |value|))) ==> time < helper.timeToRoll
      ensures (&& old(fs.Balanced()) && !KeyStored(old(fs.dirs), ToBytes(key))
               && (!old(Rolls(|value|, time, newName)) || ClosesSafely(old(fs.dirs), old(name)))) ==> fs.Balanced()
    {
      ghost var before, late := fs.dirs, NeedToRoll(helper, time, |value|) && Saving(newName) in fs.locked;
      var bytes := ToBytes(key);
      RoundTrip(key);
      RollIfNeeded(|value|, time, later, newName);
      RollThenPut(before, fs.dirs, fs.puts, Saving(name), bytes, value);
      PutUsed(bytes, value, time, late);
    }
  }

  // What a put does to the rows on the disk and to the rows ever put.
  lemma {:induction false} PutStores(dirs: Dirs, puts: seq<Row>, p: Path, key: string, value: string)
    requires Sound(dirs) && p in dirs
    ensures Row(key, value) in Put(dirs[p], key, value)
    ensures !KeyStored(dirs, key) && StoredAre(dirs, puts) ==>
              StoredAre(dirs[p := Put(dirs[p], key, value)], puts + [Row(key, value)])
  {
    assert SoundDb(dirs[p]);
    PutKeepsOrder(dirs[p], key, value);
    if !KeyStored(dirs, key) { PutKeepsRows(dirs, p, key, value); }
  }

  lemma {:induction false} RollThenPut(before: Dirs, dirs: Dirs, puts: seq<Row>, p: Path, key: string, value: string)
    requires Sound(dirs) && p in dirs
    ensures SameRows(dirs, before) && !KeyStored(before, key) && StoredAre(before, puts) ==>
              StoredAre(dirs[p := Put(dirs[p], key, value)], puts + [Row(key, value)])
  {
    if SameRows(dirs, before) && !KeyStored(before, key) && StoredAre(before, puts) {
      KeyStaysStored(dirs, before, key);
      SameRowsStored(dirs, before, puts);
      PutStores(dirs, puts, p, key, value);
    }
  }

  ghost predicate KeyStored(dirs: Dirs, key: string)
  {
    exists p :: p in dirs && Has(dirs[p], key)
  }

  lemma {:induction false} KeyStaysStored(dirs: Dirs, other: Dirs, key: string)
    requires SameRows(dirs, other)
    ensures KeyStored(dirs, key) <==> KeyStored(other, key)
  {
    KeyFollowsRows(dirs, other, key);
    KeyFollowsRows(other, dirs, key);
  }

  lemma {:induction false} KeyFollowsRows(dirs: Dirs, other: Dirs, key: string)
    requires SameRows(dirs, other)
    ensures KeyStored(dirs, key) ==> KeyStored(other, key)
  {
    if p :| p in dirs && Has(dirs[p], key) {
      var i :| 0 <= i < |dirs[p]| && dirs[p][i].key == key;
      var row := dirs[p][i];
      TotalSplit(dirs, p, CountOf(row));
      assert row in multiset(dirs[p]);
      assert Copies(dirs, row) == Copies(other, row);
      var q := SomeHolder(other, row);
    }
  }
}
