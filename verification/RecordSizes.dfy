/** What rolling by size bounds: the bytes of the values in each record directory, against the count
    of the helper (src/msg_recorder/rolling_helper.cc) that rolls the directory. */
module RecordSizes {
  import opened Totals
  import opened RecordKey
  import opened RecordDb
  import opened Rolling

  function Bytes(rows: seq<Row>): nat
  {
    if rows == [] then 0 else |rows[0].value| + Bytes(rows[1..])
  }

  lemma {:induction false} BytesOfPut(db: Db, key: string, value: string)
    requires !Has(db, key)
    ensures Bytes(Put(db, key, value)) == Bytes(db) + |value|
  {
    if db != [] {
      CompareTotal(key, db[0].key);
      TailHas(db, key);
      BytesOfPut(db[1..], key, value);
    }
  }

  lemma {:induction false} BytesMore(rows: seq<Row>, row: Row)
    ensures Bytes(rows + [row]) == Bytes(rows) + |row.value|
  {
    if rows == [] {
      assert rows + [row] == [row] && [row][1..] == [];
    } else {
      assert (rows + [row])[1..] == rows[1..] + [row];
      BytesMore(rows[1..], row);
    }
  }

  // The value that came when a directory was left for a new one.
  datatype Leaving = Leaving(size: nat, time: int)

  /** The last use of a directory: the helper its record file had when it took the directory, the rows
      it found there, those it put there although a roll was due, because the roll was refused, and
      what made it leave, if a roll that was due did. */
  datatype Use = Use(helper: Helper, found: Db, late: seq<Row>, left: Option<Leaving>)

  function Taken(helper: Helper, found: Db): Use
  {
    Use(helper, found, [], None)
  }

  type Uses = map<string, Use>

  function WithLate(uses: Uses, name: string, row: Row): Uses
  {
    if name in uses then uses[name := uses[name].(late := uses[name].late + [row])] else uses
  }

  function WithLeft(uses: Uses, name: string, size: nat, time: int): Uses
  {
    if name in uses then uses[name := uses[name].(left := Some(Leaving(size, time)))] else uses
  }

  // The same rule, whatever was counted since.
  predicate SameLimit(h: Helper, other: Helper)
  {
    if h.BySize? then other.BySize? && h.limit == other.limit else h == other
  }

  /** A directory is left by a due roll only when the value that came would have taken the values put
      there to the limit, or when its time was over. */
  predicate Ripe(u: Use, db: Db)
  {
    u.left.Some? ==>
      match u.helper
      case NoRolling => false
      case BySize(limit, _) => Bytes(db) - Bytes(u.found) + u.left.value.size >= limit
      case ByTime(_, timeToRoll) => u.left.value.time >= timeToRoll
  }

  /** The values put there in time are below the limit, or there is at most one, and it was not left too
      early. */
  ghost predicate Bounded(u: Use, db: Db)
  {
    && multiset(u.found) + multiset(u.late) <= multiset(db)
    && Ripe(u, db)
    && (u.helper.BySize? ==>
          || Bytes(db) - Bytes(u.found) - Bytes(u.late) < u.helper.limit
          || |db| - |u.found| - |u.late| <= 1)
  }

  /** And the helper has counted exactly the bytes put there. */
  ghost predicate Tallied(h: Helper, u: Use, db: Db)
  {
    && SameLimit(h, u.helper)
    && (h.BySize? ==> Bytes(db) == Bytes(u.found) + h.current)
    && Bounded(u, db)
  }

  lemma {:induction false} PutTallies(h: Helper, u: Use, db: Db, key: string, value: string, time: int, late: bool)
    requires Tallied(h, u, db) && !Has(db, key)
    requires late || !NeedToRoll(h, time, |value|) || |db| == |u.found| + |u.late|
    ensures Tallied(Update(h, |value|), if late then u.(late := u.late + [Row(key, value)]) else u, Put(db, key, value))
  {
    BytesOfPut(db, key, value);
    PutAddsOne(db, key, value);
    BytesMore(u.late, Row(key, value));
    assert |multiset(Put(db, key, value))| == |multiset(db)| + 1;
  }

  // Leaving the directory when the helper asks for it.
  lemma {:induction false} LeavingIsRipe(h: Helper, u: Use, db: Db, size: nat, time: int)
    requires Tallied(h, u, db) && NeedToRoll(h, time, size)
    ensures Bounded(u.(left := Some(Leaving(size, time))), db)
  {
    RollsWhenDue(h, time, size);
  }
}
