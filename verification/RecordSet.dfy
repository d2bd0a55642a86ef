/** The record files a recorder holds, files_ of src/msg_recorder/recorder.cc, as objects on one disk:
    every operation on one of them is a step of RecordRuns and leaves the others as they rely on. */
module RecordSet {
  import opened RecordKey
  import opened RecordDb
  import opened RecordDirs
  import opened Rolling
  import opened RecordSizes
  import opened RecordRuns
  import opened Sequences
  import KeyMaker
  import F = RecordFile

  ghost function FileStates(files: seq<F.RecordFile>): (states: seq<File>)
    reads files
    ensures |states| == |files|
    ensures forall i :: 0 <= i < |files| ==> states[i] == File(files[i].name, files[i].open, files[i].helper)
  {
    if files == [] then []
    else FileStates(files[..|files| - 1])
         + [File(files[|files| - 1].name, files[|files| - 1].open, files[|files| - 1].helper)]
  }

  // A step on one record file leaves the databases that others have open alone.
  lemma {:induction false} StepSpares(d: Disk, op: Op)
    requires Orderly(d) && Allowed(d, op)
    ensures forall name :: Saving(name) in d.dirs && (!op.Create? ==> name != d.files[op.file].name) ==>
              Saving(name) in Step(d, op).dirs && Step(d, op).dirs[Saving(name)] == d.dirs[Saving(name)]
  {
    match op
    case Create(name, _) =>
      assert !Held(d.files, name);
    case Open(i) =>
    case Close(i) =>
      IsHeld(d.files, i);
      if d.files[i].open { ClosedKeepsSound(d.dirs, d.files[i].name); }
    case Roll(i, newName, _) =>
      IsHeld(d.files, i);
      ClosedKeepsSound(Opened(d.dirs, newName), d.files[i].name);
    case Write(i, key, value, time, _, newName) =>
      IsHeld(d.files, i);
      if NeedToRoll(d.files[i].helper, time, |value|) {
        ClosedKeepsSound(Opened(d.dirs, newName), d.files[i].name);
      }
  }

  lemma {:induction false} OneFileSteps(d: Disk, op: Op)
    requires Named(d.files) && Placed(d.dirs, d.files) && Allowed(d, op) && !op.Create?
    ensures |Step(d, op).files| == |d.files|
    ensures forall k :: 0 <= k < |d.files| && k != op.file ==> Step(d, op).files[k] == d.files[k]
  {
  }

  lemma {:induction false} CreateOpens(d: Disk, name: string, helper: Helper)
    requires Orderly(d) && Allowed(d, Op.Create(name, helper))
    ensures Saving(name) !in d.dirs && forall other :: Held(d.files, other) ==> other != name
    ensures Step(d, Op.Create(name, helper))
            == Disk(Opened(CheckedOut(d.dirs, name), name), d.files + [File(name, true, helper)], d.puts,
                    d.uses[name := Taken(helper, Opened(CheckedOut(d.dirs, name), name)[Saving(name)])])
  {
    assert !Held(d.files, name);
  }

  lemma {:induction false} WriteSteps(d: Disk, i: nat, key: Key, value: string, time: int, later: int, newName: string)
    requires Named(d.files) && Placed(d.dirs, d.files) && Allowed(d, Op.Write(i, key, value, time, later, newName))
    ensures var after := Step(d, Op.Write(i, key, value, time, later, newName));
      var f, row := d.files[i], Row(ToBytes(key), value);
      var due := NeedToRoll(f.helper, time, |value|);
      var rolls := due && Saving(newName) !in d.dirs;
      var name := if rolls then newName else f.name;
      && Saving(f.name) in d.dirs
      && |after.files| == |d.files|
      && after.puts == d.puts + [row]
      && after.files[i] == File(name, true, Update(if rolls then Reset(f.helper, later) else f.helper, |value|))
      && var dirs := if rolls then Rolled(d.dirs, f.name, newName) else d.dirs;
         && Saving(name) in dirs
         && after.dirs == dirs[Saving(name) := Put(dirs[Saving(name)], row.key, value)]
         && after.uses == (if rolls
                           then WithLeft(d.uses, f.name, |value|, time)[
                                  newName := Taken(Reset(f.helper, later), dirs[Saving(newName)])]
                           else if due then WithLate(d.uses, f.name, row) else d.uses)
  {
    IsHeld(d.files, i);
  }

  // What the first step of a run leaves to the rest of it.
  lemma {:induction false} FirstStep(d: Disk, ops: seq<Op>)
    requires ops != [] && Orderly(d) && CanRun(d, ops)
    requires KeyMaker.PrintsApart(KeysOf(ops)) && KeysAreNew(KeysOf(ops), d.puts)
    ensures Allowed(d, ops[0]) && NewKey(d, ops[0])
    ensures CanRun(Step(d, ops[0]), ops[1..]) && RunOf(d, ops) == RunOf(Step(d, ops[0]), ops[1..])
    ensures KeyMaker.PrintsApart(KeysOf(ops[1..])) && KeysAreNew(KeysOf(ops[1..]), Step(d, ops[0]).puts)
  {
    FirstKey(ops, d.puts);
    StepPuts(d, ops[0]);
    Empty(d.puts);
  }

  lemma {:induction false} SizesOverRun(d: Disk, ops: seq<Op>)
    requires Orderly(d) && CanRun(d, ops) && KeyMaker.PrintsApart(KeysOf(ops)) && KeysAreNew(KeysOf(ops), d.puts)
    ensures Sized(d) ==> Sized(RunOf(d, ops))
  {
    if Sized(d) { RunsKeep(d, ops); }
  }

  class RecordSet {
    const fs: F.FileSystem
    var files: seq<F.RecordFile>
    ghost var repr: set<F.RecordFile>

    ghost predicate Valid()
      reads this, fs, files
    {
      && fs.Valid()
      && (forall i :: 0 <= i < |files| ==>
            files[i] in repr && files[i].fs == fs && files[i].Holds(fs.dirs, fs.locked))
      && (forall i, k :: 0 <= i < k < |files| ==> files[i] != files[k])
      && Orderly(State())
    }

    /** The disk as RecordRuns sees it. */
    ghost function State(): Disk
      reads this, fs, files
    {
      Disk(fs.dirs, FileStates(files), fs.puts, fs.uses)
    }

    constructor ()
      ensures Valid() && fresh(fs) && files == [] && repr == {} && State() == EMPTY && Sized(State())
    {
      fs := new F.FileSystem();
      files, repr := [], {};
      new;
      StartIsOrderly();
      assert FileStates(files) == [];
    }

    // File i has taken its step on the disk; what the others rely on outlasts it.
    lemma {:induction false} StepTaken(d: Disk, locked: set<Path>, op: Op)
      requires Orderly(d) && Allowed(d, op) && NewKey(d, op) && !op.Create?
      requires fs.Valid() && |files| == |d.files| && files[op.file].Holds(fs.dirs, fs.locked)
      requires forall k :: 0 <= k < |files| ==> files[k] in repr && files[k].fs == fs
      requires forall k, m :: 0 <= k < m < |files| ==> files[k] != files[m]
      requires forall k :: 0 <= k < |files| && k != op.file ==>
                 files[k].Holds(d.dirs, locked) && FileStates(files)[k] == d.files[k]
      requires forall name :: Saving(name) in locked && name != d.files[op.file].name ==> Saving(name) in fs.locked
      requires fs.dirs == Step(d, op).dirs && fs.puts == Step(d, op).puts && fs.uses == Step(d, op).uses
      requires FileStates(files)[op.file] == Step(d, op).files[op.file]
      ensures Valid() && State() == Step(d, op)
    {
      StepKeeps(d, op);
      StatesStep(d, op);
      forall k | 0 <= k < |files| && k != op.file ensures files[k].Holds(fs.dirs, fs.locked) {
        OtherHolds(d, locked, op, k);
      }
    }

    lemma {:induction false} StatesStep(d: Disk, op: Op)
      requires Named(d.files) && Placed(d.dirs, d.files) && Allowed(d, op) && !op.Create? && |files| == |d.files|
      requires forall k :: 0 <= k < |files| && k != op.file ==> FileStates(files)[k] == d.files[k]
      requires FileStates(files)[op.file] == Step(d, op).files[op.file]
      ensures FileStates(files) == Step(d, op).files
    {
      OneFileSteps(d, op);
    }

    lemma {:induction false} OtherHolds(d: Disk, locked: set<Path>, op: Op, k: nat)
      requires Orderly(d) && Allowed(d, op) && !op.Create?
      requires |files| == |d.files| && k < |files| && k != op.file
      requires files[k].Holds(d.dirs, locked) && files[k].name == d.files[k].name
      requires forall name :: Saving(name) in locked && name != d.files[op.file].name ==> Saving(name) in fs.locked
      requires fs.dirs == Step(d, op).dirs
      ensures files[k].Holds(fs.dirs, fs.locked)
    {
      StepSpares(d, op);
      OnlyName(d.files, op.file);
    }

    lemma {:induction false} CreateTaken(d: Disk, locked: set<Path>, name: string, helper: Helper)
      requires Orderly(d) && Allowed(d, Op.Create(name, helper))
      requires fs.Valid() && |files| == |d.files| + 1
      requires forall k :: 0 <= k < |files| ==> files[k] in repr && files[k].fs == fs
      requires forall k, m :: 0 <= k < m < |files| ==> files[k] != files[m]
      requires forall k :: 0 <= k < |d.files| ==>
                 && files[k].Holds(d.dirs, locked)
                 && d.files[k] == File(files[k].name, files[k].open, files[k].helper)
      requires var file := files[|d.files|];
        file.name == name && file.open && file.helper == helper && file.Holds(fs.dirs, fs.locked)
      requires fs.dirs == Opened(CheckedOut(d.dirs, name), name) && fs.puts == d.puts
      requires fs.uses == d.uses[name := Taken(helper, fs.dirs[Saving(name)])]
      requires locked <= fs.locked
      ensures Valid() && State() == Step(d, Op.Create(name, helper))
    {
      var op := Op.Create(name, helper);
      CreateOpens(d, name, helper);
      StepKeeps(d, op);
      StepSpares(d, op);
      assert FileStates(files) == Step(d, op).files;
      forall k | 0 <= k < |d.files| ensures files[k].Holds(fs.dirs, fs.locked) {
        assert files[k].open ==> Saving(files[k].name) in d.dirs;
      }
    }

    // LevelDB holds open exactly the saving directories.
    lemma {:induction false} LockedAreOpen(name: string)
      requires Valid()
      ensures Saving(name) in fs.locked <==> Saving(name) in fs.dirs
    {
      if Saving(name) in fs.dirs {
        assert Held(State().files, name);
        var i :| 0 <= i < |files| && State().files[i].open && State().files[i].name == name;
        assert files[i].Holds(fs.dirs, fs.locked);
      }
    }

    /** A new record file: created under a name no other has, and opened. */
    method Create(name: string, helper: Helper)
      requires Valid() && Allowed(State(), Op.Create(name, helper))
      modifies this, fs
      ensures Valid() && State() == Step(old(State()), Op.Create(name, helper))
      ensures fresh(repr - old(repr))
    {
      ghost var d, locked := State(), fs.locked;
      var file := NewFile(name, helper);
      files, repr := files + [file], repr + {file};
      CreateTaken(d, locked, name, helper);
    }

    // The constructor opens the file's database.
    method NewFile(name: string, helper: Helper) returns (file: F.RecordFile)
      requires Valid() && Allowed(State(), Op.Create(name, helper))
      modifies fs
      ensures fresh(file) && file.fs == fs && file.name == name && file.open && file.helper == helper
      ensures fs.Valid() && file.Holds(fs.dirs, fs.locked) && fs.puts == old(fs.puts)
      ensures fs.dirs == Opened(CheckedOut(old(fs.dirs), name), name) && fs.locked == old(fs.locked) + {Saving(name)}
      ensures fs.uses == old(fs.uses)[name := Taken(helper, fs.dirs[Saving(name)])]
    {
      CreateOpens(State(), name, helper);
      file := new F.RecordFile(fs, name, helper);
    }

    method Close(i: nat)
      requires Valid() && i < |files|
      modifies fs, repr
      ensures Valid() && State() == Step(old(State()), Op.Close(i))
    {
      ghost var d, locked := State(), fs.locked;
      IsHeld(d.files, i);
      files[i].CloseDB();
      StepTaken(d, locked, Op.Close(i));
    }

    method Open(i: nat)
      requires Valid() && i < |files|
      modifies fs, repr
      ensures Valid() && State() == Step(old(State()), Op.Open(i))
    {
      ghost var d, locked := State(), fs.locked;
      OnlyName(d.files, i);
      var _ := files[i].OpenDB();
      StepTaken(d, locked, Op.Open(i));
    }

    // File i as the disk `d` has it, before an operation on it alone.
    ghost predicate Shows(d: Disk, i: nat)
      reads this, fs, files
    {
      && fs.Valid() && i < |files| == |d.files|
      && files[i].fs == fs && files[i].Holds(fs.dirs, fs.locked)
      && d.files[i] == File(files[i].name, files[i].open, files[i].helper)
      && d.dirs == fs.dirs && d.puts == fs.puts && d.uses == fs.uses
    }

    method Roll(i: nat, newName: string, now: int)
      requires Valid() && Allowed(State(), Op.Roll(i, newName, now))
      modifies fs, repr
      ensures Valid() && State() == Step(old(State()), Op.Roll(i, newName, now))
    {
      ghost var d, locked := State(), fs.locked;
      LockedAreOpen(newName);
      RollFile(d, i, newName, now);
      StepTaken(d, locked, Op.Roll(i, newName, now));
    }

    // Roll of file i, with its effect on the disk as the step has it.
    method RollFile(ghost d: Disk, i: nat, newName: string, now: int)
      requires Shows(d, i) && Named(d.files) && Placed(d.dirs, d.files) && Allowed(d, Op.Roll(i, newName, now))
      requires Saving(newName) in fs.locked <==> Saving(newName) in fs.dirs
      modifies fs, files[i]
      ensures Shows(Step(d, Op.Roll(i, newName, now)), i)
      ensures forall name :: Saving(name) in old(fs.locked) && name != old(files[i].name) ==> Saving(name) in fs.locked
    {
      IsHeld(d.files, i);
      var _ := files[i].Roll(newName, now);
    }

    method Write(i: nat, key: Key, value: string, time: int, later: int, newName: string)
      requires Valid() && Allowed(State(), Op.Write(i, key, value, time, later, newName))
      requires NewKey(State(), Op.Write(i, key, value, time, later, newName))
      modifies fs, repr
      ensures Valid() && State() == Step(old(State()), Op.Write(i, key, value, time, later, newName))
    {
      ghost var d, locked := State(), fs.locked;
      LockedAreOpen(newName);
      WriteFile(d, i, key, value, time, later, newName);
      StepTaken(d, locked, Op.Write(i, key, value, time, later, newName));
    }

    // Write of file i, with its effect on the disk as the step has it.
    method WriteFile(ghost d: Disk, i: nat, key: Key, value: string, time: int, later: int, newName: string)
      requires Shows(d, i) && Named(d.files) && Placed(d.dirs, d.files)
      requires Allowed(d, Op.Write(i, key, value, time, later, newName))
      requires Saving(newName) in fs.locked <==> Saving(newName) in fs.dirs
      modifies fs, files[i]
      ensures Shows(Step(d, Op.Write(i, key, value, time, later, newName)), i)
      ensures forall name :: Saving(name) in old(fs.locked) && name != old(files[i].name) ==> Saving(name) in fs.locked
    {
      WriteSteps(d, i, key, value, time, later, newName);
      files[i].Write(key, value, time, later, newName);
    }

    method Do(op: Op)
      requires Valid() && Allowed(State(), op) && NewKey(State(), op)
      modifies this, fs, repr
      ensures Valid() && State() == Step(old(State()), op)
      ensures fresh(repr - old(repr))
    {
      match op {
        case Create(name, helper) => Create(name, helper);
        case Open(i) => Open(i);
        case Close(i) => Close(i);
        case Roll(i, newName, now) => Roll(i, newName, now);
        case Write(i, key, value, time, later, newName) => Write(i, key, value, time, later, newName);
      }
    }

    /** Any run of operations is the run of RecordRuns, and keeps its bounds on the directories. */
    method Run(ops: seq<Op>)
      requires Valid() && CanRun(State(), ops)
      requires KeyMaker.PrintsApart(KeysOf(ops)) && KeysAreNew(KeysOf(ops), fs.puts)
      modifies this, fs, repr
      ensures Valid() && State() == RunOf(old(State()), ops)
      ensures old(Sized(State())) ==> Sized(State())
      ensures fresh(repr - old(repr))
      decreases |ops|
    {
      SizesOverRun(State(), ops);
      if ops == [] {
        return;
      }
      FirstStep(State(), ops);
      Do(ops[0]);
      Run(ops[1..]);
    }
  }
}
