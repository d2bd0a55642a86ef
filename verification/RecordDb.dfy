/** The database of one record file: rows ordered by LevelDB's bytewise comparator, written with
    Put and read through the iterators of src/msg_recorder/record_file.cc. */
module RecordDb {
  import opened Sequences
  import opened Totals
  import opened RecordKey
  import opened KeyMaker

  datatype Row = Row(key: string, value: string)

  type Db = seq<Row>

  ghost predicate Ordered(db: Db)
  {
    forall i, k :: 0 <= i < k < |db| ==> CompareBytes(db[i].key, db[k].key) < 0
  }

  predicate Has(db: Db, key: string)
  {
    exists i :: 0 <= i < |db| && db[i].key == key
  }

  /** db_->Put: a new row at its place, or a new value for a key that is there. */
  function Put(db: Db, key: string, value: string): Db
  {
    if db == [] then [Row(key, value)]
    else
      var c := CompareBytes(key, db[0].key);
      if c < 0 then [Row(key, value)] + db
      else if c == 0 then [Row(key, value)] + db[1..]
      else [db[0]] + Put(db[1..], key, value)
  }

  lemma {:induction false} CompareTotal(a: string, b: string)
    ensures CompareBytes(a, b) == 0 <==> a == b
    ensures CompareBytes(b, a) == -CompareBytes(a, b)
  {
    if a != "" && b != "" {
      assert a == [a[0]] + a[1..] && b == [b[0]] + b[1..];
      CompareTotal(a[1..], b[1..]);
    }
  }

  lemma {:induction false} CompareTransitive(a: string, b: string, c: string)
    requires CompareBytes(a, b) < 0 && CompareBytes(b, c) < 0
    ensures CompareBytes(a, c) < 0
  {
    if a != "" && b != "" && c != "" && a[0] == b[0] == c[0] {
      CompareTransitive(a[1..], b[1..], c[1..]);
    }
  }

  lemma {:induction false} OrderedTail(db: Db)
    requires Ordered(db) && db != []
    ensures Ordered(db[1..])
  {
  }

  lemma {:induction false} PutRows(db: Db, key: string, value: string)
    requires Ordered(db)
    ensures forall r :: r in Put(db, key, value) <==> r == Row(key, value) || (r in db && r.key != key)
  {
    if db != [] {
      CompareTotal(key, db[0].key);
      OrderedTail(db);
      PutRows(db[1..], key, value);
      assert db == [db[0]] + db[1..];
      if CompareBytes(key, db[0].key) <= 0 {
        Behind(db, key);
        forall r | r in db[1..] ensures r.key != key {
          CompareTotal(key, r.key);
        }
      }
    }
  }

  // A key that is not after the first is before all others.
  lemma {:induction false} Behind(db: Db, key: string)
    requires Ordered(db) && db != [] && CompareBytes(key, db[0].key) <= 0
    ensures IsBefore(key, db[1..])
    ensures CompareBytes(key, db[0].key) < 0 ==> IsBefore(key, db)
  {
    CompareTotal(key, db[0].key);
    forall i | 0 < i < |db| ensures CompareBytes(key, db[i].key) < 0 {
      if key != db[0].key { CompareTransitive(key, db[0].key, db[i].key); }
    }
  }

  ghost predicate IsBefore(key: string, db: Db)
  {
    forall i :: 0 <= i < |db| ==> CompareBytes(key, db[i].key) < 0
  }

  /** Put keeps the order, adds exactly the one key, and keeps every other row. */
  lemma {:induction false} PutKeepsOrder(db: Db, key: string, value: string)
    requires Ordered(db)
    ensures Ordered(Put(db, key, value))
    ensures forall r :: r in Put(db, key, value) <==> r == Row(key, value) || (r in db && r.key != key)
  {
    PutRows(db, key, value);
    if db == [] {
    } else if CompareBytes(key, db[0].key) < 0 {
      Behind(db, key);
      Prepend(Row(key, value), db);
    } else {
      OrderedTail(db);
      if CompareBytes(key, db[0].key) == 0 {
        Behind(db, key);
        Prepend(Row(key, value), db[1..]);
      } else {
        FirstStays(db, key, value);
        PutKeepsOrder(db[1..], key, value);
        Prepend(db[0], Put(db[1..], key, value));
      }
    }
  }

  lemma {:induction false} Prepend(row: Row, rest: Db)
    requires Ordered(rest) && IsBefore(row.key, rest)
    ensures Ordered([row] + rest)
  {
  }

  lemma {:induction false} FirstStays(db: Db, key: string, value: string)
    requires Ordered(db) && db != [] && CompareBytes(key, db[0].key) > 0
    ensures IsBefore(db[0].key, Put(db[1..], key, value))
  {
    var rest := Put(db[1..], key, value);
    OrderedTail(db);
    PutRows(db[1..], key, value);
    CompareTotal(key, db[0].key);
    forall i | 0 <= i < |rest| ensures CompareBytes(db[0].key, rest[i].key) < 0 {
      assert rest[i] in rest;
    }
  }

  lemma {:induction false} TailHas(db: Db, key: string)
    requires db != []
    ensures Has(db[1..], key) ==> Has(db, key)
  {
    if i :| 0 <= i < |db[1..]| && db[1..][i].key == key {
      assert db[i + 1].key == key;
    }
  }

  /** A key that is not there yet overwrites nothing: the rows are the old ones and one more. */
  lemma {:induction false} PutAddsOne(db: Db, key: string, value: string)
    requires !Has(db, key)
    ensures multiset(Put(db, key, value)) == multiset(db) + multiset{Row(key, value)}
  {
    if db != [] {
      CompareTotal(key, db[0].key);
      assert db == [db[0]] + db[1..];
      TailHas(db, key);
      PutAddsOne(db[1..], key, value);
    }
  }

  // ---------------------------------------------------------------- reading

  /** The rows whose keys parse, as the iterators hand them out. */
  function Parsed(rows: seq<Row>): seq<(Key, string)>
  {
    if rows == [] then []
    else
      var rest := Parsed(rows[1..]);
      if FromBytes(rows[0].key).Some? then [(FromBytes(rows[0].key).value, rows[0].value)] + rest else rest
  }

  lemma {:induction false} ParsedSnoc(rows: seq<Row>, row: Row)
    ensures Parsed(rows + [row])
            == Parsed(rows) + if FromBytes(row.key).Some? then [(FromBytes(row.key).value, row.value)] else []
  {
    if rows == [] {
      assert [row][1..] == [] && rows + [row] == [row];
    } else {
      assert (rows + [row])[1..] == rows[1..] + [row];
      ParsedSnoc(rows[1..], row);
    }
  }

  class RecordFileIterator {
    const rows: seq<Row>    // the snapshot the database iterator reads
    var pos: nat            // the row the database iterator is at
    var currentKey: Key

    ghost predicate Valid()
      reads this
    {
      && pos <= |rows|
      && (pos < |rows| ==> FromBytes(rows[pos].key) == Some(currentKey))
    }

    /** What is still to be read. */
    ghost function Rest(): seq<(Key, string)>
      requires Valid()
      reads this
    {
      Parsed(rows[pos..])
    }

    constructor (rows: seq<Row>)
      ensures Valid() && Rest() == Parsed(rows)
    {
      this.rows := rows;
      pos := 0;
      currentKey := Key(0, 0);
      new;
      assert rows[0..] == rows;
      ReadNextValidKey();
    }

    method ReadNextValidKey()
      requires pos <= |rows|
      modifies this
      ensures Valid() && Rest() == old(Parsed(rows[pos..]))
    {
      while pos < |rows|
        invariant pos <= |rows|
        invariant Parsed(rows[pos..]) == old(Parsed(rows[pos..]))
      {
        var key := FromBytes(rows[pos].key);
        if key.None? {
          assert rows[pos..][1..] == rows[pos + 1..];
          pos := pos + 1;
          continue;
        }
        currentKey := key.value;
        break;
      }
    }

    predicate IsValid()
      reads this
    {
      pos < |rows|
    }

    function Get(): (Key, string)
      requires IsValid()
      reads this
    {
      (currentKey, rows[pos].value)
    }

    method Next()
      requires Valid() && IsValid()
      modifies this
      ensures Valid() && Rest() == old(Rest())[1..]
    {
      assert rows[pos..][1..] == rows[pos + 1..];
      pos := pos + 1;
      ReadNextValidKey();
    }

    lemma {:induction false} Current()
      requires Valid()
      ensures IsValid() <==> Rest() != []
      ensures IsValid() ==> Get() == Rest()[0]
    {
    }
  }

  class RecordFileReverseIterator {
    const rows: seq<Row>
    var end: nat            // one past the row the database iterator is at, 0 before the first
    var currentKey: Key

    ghost predicate Valid()
      reads this
    {
      && end <= |rows|
      && (end > 0 ==> FromBytes(rows[end - 1].key) == Some(currentKey))
    }

    /** What is still to be read, the next one last. */
    ghost function Rest(): seq<(Key, string)>
      requires Valid()
      reads this
    {
      Parsed(rows[..end])
    }

    constructor (rows: seq<Row>)
      ensures Valid() && Rest() == Parsed(rows)
    {
      this.rows := rows;
      end := |rows|;
      currentKey := Key(0, 0);
      new;
      assert rows[..|rows|] == rows;
      ReadPrevValidKey();
    }

    method ReadPrevValidKey()
      requires end <= |rows|
      modifies this
      ensures Valid() && Rest() == old(Parsed(rows[..end]))
    {
      while end > 0
        invariant end <= |rows|
        invariant Parsed(rows[..end]) == old(Parsed(rows[..end]))
      {
        var key := FromBytes(rows[end - 1].key);
        if key.None? {
          ParsedSnoc(rows[..end - 1], rows[end - 1]);
          assert rows[..end] == rows[..end - 1] + [rows[end - 1]];
          end := end - 1;
          continue;
        }
        currentKey := key.value;
        break;
      }
    }

    predicate IsValid()
      reads this
    {
      end > 0
    }

    function Get(): (Key, string)
      requires IsValid() && end <= |rows|
      reads this
    {
      (currentKey, rows[end - 1].value)
    }

    method Prev()
      requires Valid() && IsValid()
      modifies this
      ensures Valid() && old(Rest()) == Rest() + [old(Get())]
    {
      ParsedSnoc(rows[..end - 1], rows[end - 1]);
      assert rows[..end] == rows[..end - 1] + [rows[end - 1]];
      end := end - 1;
      ReadPrevValidKey();
    }

    lemma {:induction false} Current()
      requires Valid()
      ensures IsValid() <==> Rest() != []
      ensures IsValid() ==> Get() == Rest()[|Rest()| - 1]
    {
      if end > 0 {
        ParsedSnoc(rows[..end - 1], rows[end - 1]);
        assert rows[..end] == rows[..end - 1] + [rows[end - 1]];
      }
    }
  }

  function Reversed<T>(s: seq<T>): seq<T>
  {
    if s == [] then [] else [s[|s| - 1]] + Reversed(s[..|s| - 1])
  }

  /** Reading forward visits every row with a valid key once, in key order. */
  method ReadForward(rows: seq<Row>) returns (read: seq<(Key, string)>)
    ensures read == Parsed(rows)
  {
    var it := new RecordFileIterator(rows);
    read := [];
    it.Current();
    while it.IsValid()
      invariant it.Valid() && read + it.Rest() == Parsed(rows)
      invariant it.IsValid() <==> it.Rest() != []
      decreases |it.Rest()|
    {
      it.Current();
      assert it.Rest() == [it.Rest()[0]] + it.Rest()[1..];
      Regroup(read, [it.Get()], it.Rest()[1..]);
      read := read + [it.Get()];
      it.Next();
      it.Current();
    }
  }

  /** Reading backward visits the same rows in exactly the opposite order. */
  method ReadBackward(rows: seq<Row>) returns (read: seq<(Key, string)>)
    ensures read == Reversed(Parsed(rows))
  {
    var it := new RecordFileReverseIterator(rows);
    read := [];
    it.Current();
    while it.IsValid()
      invariant it.Valid() && read + Reversed(it.Rest()) == Reversed(Parsed(rows))
      invariant it.IsValid() <==> it.Rest() != []
      decreases |it.Rest()|
    {
      it.Current();
      ghost var rest := it.Rest();
      Regroup(read, [it.Get()], Reversed(rest[..|rest| - 1]));
      read := read + [it.Get()];
      it.Prev();
      assert it.Rest() == rest[..|rest| - 1];
      it.Current();
    }
  }

  // ---------------------------------------------------------------- a recording session

  /** The database after the writes, starting from an empty one. */
  function Written(writes: seq<(Key, string)>): Db
    requires forall w :: w in writes ==> InRange(w.0)
  {
    if writes == [] then []
    else Put(Written(writes[..|writes| - 1]), ToBytes(writes[|writes| - 1].0), writes[|writes| - 1].1)
  }

  function Rows(writes: seq<(Key, string)>): seq<Row>
    requires forall w :: w in writes ==> InRange(w.0)
  {
    if writes == [] then []
    else Rows(writes[..|writes| - 1]) + [Row(ToBytes(writes[|writes| - 1].0), writes[|writes| - 1].1)]
  }

  lemma {:induction false} PutBehind(db: Db, key: string, value: string)
    requires forall i :: 0 <= i < |db| ==> CompareBytes(db[i].key, key) < 0
    ensures Put(db, key, value) == db + [Row(key, value)]
  {
    if db != [] {
      CompareTotal(db[0].key, key);
      PutBehind(db[1..], key, value);
    }
  }

  ghost predicate Increasing(writes: seq<(Key, string)>)
  {
    && (forall w :: w in writes ==> InRange(w.0))
    && (forall i, k :: 0 <= i < k < |writes| ==> Compare(writes[i].0, writes[k].0) < 0)
  }

  lemma {:induction false} RowsAt(writes: seq<(Key, string)>, i: nat)
    requires i < |writes| && forall w :: w in writes ==> InRange(w.0)
    ensures |Rows(writes)| == |writes| && Rows(writes)[i] == Row(ToBytes(writes[i].0), writes[i].1)
  {
    if i < |writes| - 1 {
      RowsAt(writes[..|writes| - 1], i);
    } else if i > 0 {
      RowsAt(writes[..|writes| - 1], i - 1);
    }
  }

  // All rows written before come before the last one.
  lemma {:induction false} RowsBefore(writes: seq<(Key, string)>)
    requires Increasing(writes) && writes != []
    ensures var before := Rows(writes[..|writes| - 1]);
      forall i :: 0 <= i < |before| ==> CompareBytes(before[i].key, ToBytes(writes[|writes| - 1].0)) < 0
  {
    var before, last := writes[..|writes| - 1], writes[|writes| - 1];
    if before != [] {
      RowsAt(before, 0);
      forall i | 0 <= i < |Rows(before)| ensures CompareBytes(Rows(before)[i].key, ToBytes(last.0)) < 0 {
        RowsAt(before, i);
        assert Compare(writes[i].0, last.0) < 0;
      }
    }
  }

  lemma {:induction false} WrittenInOrder(writes: seq<(Key, string)>)
    requires Increasing(writes)
    ensures Written(writes) == Rows(writes)
  {
    if writes != [] {
      var before, last := writes[..|writes| - 1], writes[|writes| - 1];
      WrittenInOrder(before);
      RowsBefore(writes);
      PutBehind(Rows(before), ToBytes(last.0), last.1);
    }
  }

  lemma {:induction false} RowsParse(writes: seq<(Key, string)>)
    requires forall w :: w in writes ==> InRange(w.0) && w.0.timestamp >= 0
    ensures Parsed(Rows(writes)) == writes
  {
    if writes != [] {
      var before, last := writes[..|writes| - 1], writes[|writes| - 1];
      RowsParse(before);
      ParsedSnoc(Rows(before), Row(ToBytes(last.0), last.1));
      RoundTrip(last.0);
      assert writes == before + [last];
    }
  }

  function Zip(keys: seq<Key>, values: seq<string>): (r: seq<(Key, string)>)
    requires |keys| == |values|
    ensures |r| == |keys| && forall i :: 0 <= i < |r| ==> r[i] == (keys[i], values[i])
  {
    seq(|keys|, i requires 0 <= i < |keys| => (keys[i], values[i]))
  }

  /** A session that writes each value under a made key, on a clock that does not run backwards,
      loses and reorders nothing: the database iterates to the values in write order. */
  lemma {:induction false} IterationIsWriteOrder(counters: seq<nat>, clocks: seq<int>, values: seq<string>)
    requires |counters| == COUNTERS && Ticking(clocks) && Roomy(counters, |clocks|) && |values| == |clocks|
    ensures var writes := Zip(MakeAll(counters, clocks), values);
      && (forall w :: w in writes ==> InRange(w.0))
      && |Written(writes)| == |values|
      && Parsed(Written(writes)) == writes
  {
    var writes := Zip(MakeAll(counters, clocks), values);
    forall i | 0 <= i < |writes| ensures InRange(writes[i].0) && writes[i].0.timestamp >= 0 {
      KeysOfCalls(counters, clocks, i);
    }
    forall i, k | 0 <= i < k < |writes| ensures Compare(writes[i].0, writes[k].0) < 0 {
      KeysIncrease(counters, clocks, i, k);
    }
    WrittenInOrder(writes);
    RowsParse(writes);
    if writes != [] { RowsAt(writes, 0); }
  }
}
