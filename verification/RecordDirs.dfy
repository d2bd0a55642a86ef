/** The directories of record databases, as values: what opening, committing and closing a database
    does to them (src/msg_recorder/record_file.cc), and which of it keeps every record. A directory
    is either the final one or the one with the suffix ".saving"; every one holds a database. */
module RecordDirs {
  import opened Totals
  import opened RecordKey
  import opened RecordDb

  datatype Path = Final(name: string) | Saving(name: string)

  type Dirs = map<Path, Db>

  /** Every key in every directory was printed by ToBytes, so it parses back. */
  ghost predicate Sound(dirs: Dirs)
  {
    forall p :: p in dirs ==> SoundDb(dirs[p])
  }

  ghost predicate SoundDb(db: Db)
  {
    Ordered(db) && forall r :: r in db ==> FromBytes(r.key).Some?
  }

  lemma {:induction false} SoundIsEmpty(db: Db)
    requires SoundDb(db)
    ensures Parsed(db) == [] <==> db == []
  {
    if db != [] { assert db[0] in db; }
  }

  lemma {:induction false} PutKeepsSound(dirs: Dirs, p: Path, key: string, value: string)
    requires Sound(dirs) && p in dirs && FromBytes(key).Some?
    ensures Sound(dirs[p := Put(dirs[p], key, value)])
  {
    assert SoundDb(dirs[p]);
    PutKeepsOrder(dirs[p], key, value);
  }

  // CheckoutDB, unless the saving directory is in the way.
  function CheckedOut(dirs: Dirs, name: string): Dirs
    requires !(Final(name) in dirs && Saving(name) in dirs)
  {
    if Final(name) in dirs then (dirs - {Final(name)})[Saving(name) := dirs[Final(name)]] else dirs
  }

  // leveldb::DB::Open with create_if_missing.
  function Opened(dirs: Dirs, name: string): Dirs
  {
    if Saving(name) in dirs then dirs else dirs[Saving(name) := []]
  }

  // CommitDB, which gives up if the final directory is already there.
  function Committed(dirs: Dirs, name: string): Dirs
  {
    if Saving(name) !in dirs || Final(name) in dirs then dirs
    else (dirs - {Saving(name)})[Final(name) := dirs[Saving(name)]]
  }

  // CloseDB: commit, and remove what is then under the final name if the database was empty.
  function Closed(dirs: Dirs, name: string): Dirs
    requires Saving(name) in dirs
  {
    var committed := Committed(dirs, name);
    if Parsed(dirs[Saving(name)]) == [] then committed - {Final(name)} else committed
  }

  // The disk after Roll from `name` to `newName`.
  function Rolled(dirs: Dirs, name: string, newName: string): Dirs
    requires Saving(name) in dirs
  {
    Closed(Opened(dirs, newName), name)
  }

  /** The database of a name, open or committed; nothing counts as an empty one. */
  function Contents(dirs: Dirs, name: string): Db
  {
    if Saving(name) in dirs then dirs[Saving(name)] else if Final(name) in dirs then dirs[Final(name)] else []
  }

  // Closing `name` removes no record.
  predicate ClosesSafely(dirs: Dirs, name: string)
    requires Saving(name) in dirs
  {
    dirs[Saving(name)] != [] || Final(name) !in dirs || dirs[Final(name)] == []
  }

  lemma {:induction false} ClosedKeepsSound(dirs: Dirs, name: string)
    requires Sound(dirs) && Saving(name) in dirs
    ensures Sound(Closed(dirs, name))
    ensures forall other :: other != name ==>
              && (Saving(other) in Closed(dirs, name) <==> Saving(other) in dirs)
              && (Saving(other) in dirs ==> Closed(dirs, name)[Saving(other)] == dirs[Saving(other)])
  {
  }

  // ---------------------------------------------------------------- counting rows

  ghost function CountOf(row: Row): Db -> nat
  {
    (db: Db) => multiset(db)[row]
  }

  /** How often a row is stored, over all directories. */
  ghost function Copies(dirs: Dirs, row: Row): nat
  {
    Total(dirs, CountOf(row))
  }

  ghost predicate SameRows(dirs: Dirs, other: Dirs)
  {
    forall row :: Copies(dirs, row) == Copies(other, row)
  }

  /** Every row put is stored as often as it was put, and nothing else is stored. */
  ghost predicate StoredAre(dirs: Dirs, puts: seq<Row>)
  {
    forall row :: Copies(dirs, row) == multiset(puts)[row]
  }

  lemma {:induction false} SameRowsStored(dirs: Dirs, other: Dirs, puts: seq<Row>)
    requires SameRows(dirs, other) && StoredAre(other, puts)
    ensures StoredAre(dirs, puts)
  {
    forall row ensures Copies(dirs, row) == multiset(puts)[row] {
      assert Copies(dirs, row) == Copies(other, row);
    }
  }

  lemma {:induction false} CheckoutKeepsRows(dirs: Dirs, name: string)
    requires !(Final(name) in dirs && Saving(name) in dirs)
    ensures SameRows(CheckedOut(dirs, name), dirs)
  {
    forall row ensures Copies(CheckedOut(dirs, name), row) == Copies(dirs, row) {
      if Final(name) in dirs {
        TotalSplit(dirs, Final(name), CountOf(row));
        TotalInsert(dirs - {Final(name)}, Saving(name), dirs[Final(name)], CountOf(row));
      }
    }
  }

  lemma {:induction false} OpenKeepsRows(dirs: Dirs, name: string)
    ensures SameRows(Opened(dirs, name), dirs)
  {
    forall row ensures Copies(Opened(dirs, name), row) == Copies(dirs, row) {
      if Saving(name) !in dirs { TotalInsert(dirs, Saving(name), [], CountOf(row)); }
    }
  }

  lemma {:induction false} CommitKeepsRows(dirs: Dirs, name: string)
    ensures SameRows(Committed(dirs, name), dirs)
  {
    forall row ensures Copies(Committed(dirs, name), row) == Copies(dirs, row) {
      if Saving(name) in dirs && Final(name) !in dirs {
        TotalSplit(dirs, Saving(name), CountOf(row));
        TotalInsert(dirs - {Saving(name)}, Final(name), dirs[Saving(name)], CountOf(row));
      }
    }
  }

  lemma {:induction false} RemoveRows(dirs: Dirs, p: Path)
    requires p in dirs
    ensures SameRows(dirs - {p}, dirs) <==> dirs[p] == []
  {
    forall row ensures Copies(dirs, row) == multiset(dirs[p])[row] + Copies(dirs - {p}, row) {
      TotalSplit(dirs, p, CountOf(row));
    }
    if dirs[p] != [] {
      assert dirs[p][0] in multiset(dirs[p]);
      assert Copies(dirs - {p}, dirs[p][0]) != Copies(dirs, dirs[p][0]);
    }
  }

  /** Closing keeps every record unless the database is empty while a committed directory of the
      same name, with records, is in the way: then that directory is removed. */
  lemma {:induction false} CloseKeepsRows(dirs: Dirs, name: string)
    requires Sound(dirs) && Saving(name) in dirs
    ensures SameRows(Closed(dirs, name), dirs)
            <==> ClosesSafely(dirs, name)
  {
    var committed := Committed(dirs, name);
    CommitKeepsRows(dirs, name);
    SoundIsEmpty(dirs[Saving(name)]);
    if Parsed(dirs[Saving(name)]) == [] {
      RemoveRows(committed, Final(name));
      assert SameRows(Closed(dirs, name), dirs) <==> SameRows(Closed(dirs, name), committed);
    }
  }

  lemma {:induction false} ClosedBeside(dirs: Dirs, name: string)
    requires Saving(name) !in dirs && Final(name) in dirs
    ensures Closed(Opened(dirs, name), name) == dirs - {Final(name)} + map[Saving(name) := []]
    ensures ClosesSafely(Opened(dirs, name), name) <==> dirs[Final(name)] == []
  {
    var db := Opened(dirs, name)[Saving(name)];
    assert Parsed(db) == [];
  }

  lemma {:induction false} SameRowsEither(a: Dirs, b: Dirs, c: Dirs)
    requires SameRows(b, c)
    ensures SameRows(a, b) <==> SameRows(a, c)
  {
    forall row ensures Copies(b, row) == Copies(c, row) {}
  }

  /** How that comes about: a roll does not check for a committed directory of its new name, so a
      name that was used before, as after the clock was set back, opens an empty database beside the
      records. If the put that follows fails, closing removes them. */
  lemma {:induction false} RollOntoCommitted(dirs: Dirs, name: string)
    requires Sound(dirs) && Saving(name) !in dirs && Final(name) in dirs
    ensures Closed(Opened(dirs, name), name) == dirs - {Final(name)} + map[Saving(name) := []]
    ensures SameRows(Closed(Opened(dirs, name), name), dirs) <==> dirs[Final(name)] == []
  {
    ClosedBeside(dirs, name);
    OpenKeepsRows(dirs, name);
    CloseKeepsRows(Opened(dirs, name), name);
    SameRowsEither(Closed(Opened(dirs, name), name), Opened(dirs, name), dirs);
  }

  /** One such disk: a committed record, and an empty database of the same name still open. */
  lemma {:induction false} CloseCanLose(name: string, value: string)
    ensures var row := Row(ToBytes(Key(0, 0)), value);
      var dirs: Dirs := map[Final(name) := [row]][Saving(name) := []];
      && Sound(dirs) && Copies(dirs, row) == 1 && Copies(Closed(dirs, name), row) == 0
  {
    RoundTrip(Key(0, 0));
    OneRowOneCopy(name, Row(ToBytes(Key(0, 0)), value));
  }

  lemma {:induction false} OneRowOneCopy(name: string, row: Row)
    ensures var dirs: Dirs := map[Final(name) := [row]][Saving(name) := []];
      Copies(dirs, row) == 1 && Copies(Closed(dirs, name), row) == 0
  {
    var none: Dirs := map[];
    TotalInsert(none, Final(name), [row], CountOf(row));
    TotalInsert(none[Final(name) := [row]], Saving(name), [], CountOf(row));
    TotalInsert(none, Saving(name), [], CountOf(row));
    assert Closed(none[Final(name) := [row]][Saving(name) := []], name) == none[Saving(name) := []];
  }

  /** What closing leaves: the database under its final name if it has records, nothing otherwise. */
  lemma {:induction false} ClosedContents(dirs: Dirs, name: string)
    requires Sound(dirs) && Saving(name) in dirs && Final(name) !in dirs
    ensures Closed(dirs, name) ==
            if dirs[Saving(name)] == [] then dirs - {Saving(name)}
            else (dirs - {Saving(name)})[Final(name) := dirs[Saving(name)]]
    ensures Sound(Closed(dirs, name))
  {
    SoundIsEmpty(dirs[Saving(name)]);
  }

  /** Opening and closing move databases and change none. */
  lemma {:induction false} OpenKeepsContents(dirs: Dirs, name: string, other: string)
    requires Saving(name) !in dirs
    ensures Contents(Opened(CheckedOut(dirs, name), name), other) == Contents(dirs, other)
  {
  }

  lemma {:induction false} CloseKeepsContents(dirs: Dirs, name: string, other: string)
    requires Sound(dirs) && Saving(name) in dirs && Final(name) !in dirs
    ensures Contents(Closed(dirs, name), other) == Contents(dirs, other)
  {
    ClosedContents(dirs, name);
  }

  lemma {:induction false} RollKeepsContents(dirs: Dirs, name: string, newName: string, other: string)
    requires Sound(dirs) && Saving(name) in dirs && Final(name) !in dirs
    requires Saving(newName) !in dirs && Final(newName) !in dirs
    ensures Contents(Rolled(dirs, name, newName), other) == Contents(dirs, other)
  {
    NewIsEmpty(dirs, newName, other);
    CloseKeepsContents(Opened(dirs, newName), name, other);
  }

  lemma {:induction false} NewIsEmpty(dirs: Dirs, name: string, other: string)
    requires Saving(name) !in dirs && Final(name) !in dirs
    ensures Contents(Opened(dirs, name), other) == Contents(dirs, other)
    ensures Sound(dirs) ==> Sound(Opened(dirs, name))
    ensures forall p :: p in dirs ==> p in Opened(dirs, name)
    ensures forall p :: p in Opened(dirs, name) && p != Saving(name) ==> p in dirs
  {
  }

  /** Opening again undoes closing. */
  lemma {:induction false} ReopenDirs(dirs: Dirs, name: string)
    requires Sound(dirs) && Saving(name) in dirs && Final(name) !in dirs
    ensures Saving(name) !in Closed(dirs, name)
    ensures Opened(CheckedOut(Closed(dirs, name), name), name) == dirs
  {
    ClosedContents(dirs, name);
  }

  /** Rolling to a directory that is not open keeps every record exactly if closing the old one does. */
  lemma {:induction false} RollKeepsRows(dirs: Dirs, name: string, newName: string)
    requires Sound(dirs) && Saving(name) in dirs && newName != name
    ensures SameRows(Rolled(dirs, name, newName), dirs) <==> ClosesSafely(dirs, name)
  {
    OpenKeepsRows(dirs, newName);
    CloseKeepsRows(Opened(dirs, newName), name);
    SameRowsEither(Rolled(dirs, name, newName), Opened(dirs, newName), dirs);
  }

  lemma {:induction false} PutKeepsRows(dirs: Dirs, p: Path, key: string, value: string)
    requires p in dirs && !Has(dirs[p], key)
    ensures forall row :: Copies(dirs[p := Put(dirs[p], key, value)], row)
                          == Copies(dirs, row) + if row == Row(key, value) then 1 else 0
  {
    PutAddsOne(dirs[p], key, value);
    forall row
      ensures Copies(dirs[p := Put(dirs[p], key, value)], row)
              == Copies(dirs, row) + if row == Row(key, value) then 1 else 0
    {
      TotalUpdate(dirs, p, Put(dirs[p], key, value), CountOf(row));
    }
  }

  /** A row that is stored once is in exactly one directory. */
  lemma {:induction false} OneCopyOneDirectory(dirs: Dirs, row: Row)
    requires Copies(dirs, row) == 1
    ensures exists p :: p in dirs && row in dirs[p] && forall q :: q in dirs && row in dirs[q] ==> q == p
  {
    var p := SomeHolder(dirs, row);
    forall q | q in dirs && row in dirs[q] ensures q == p {
      TotalSplit(dirs, p, CountOf(row));
      if q != p { TotalSplit(dirs - {p}, q, CountOf(row)); }
    }
  }

  lemma {:induction false} SomeHolder(dirs: Dirs, row: Row) returns (p: Path)
    requires Copies(dirs, row) > 0
    ensures p in dirs && row in dirs[p]
    decreases |dirs|
  {
    p :| p in dirs;
    if row !in dirs[p] {
      TotalSplit(dirs, p, CountOf(row));
      Shrinks(dirs, p);
      p := SomeHolder(dirs - {p}, row);
    }
  }
}
