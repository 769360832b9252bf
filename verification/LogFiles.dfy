/** The files of a log account: the current log, its numbered backups, and their rotation. */
module LogFiles {
  import opened Wrappers
  import opened LogRecords

  /** Slot 0 is `dir\name.log`; slot k > 0 is the backup `dir\name.k.log`. */
  datatype Path = Path(dir: string, name: string, slot: nat)

  /** What a log file is made of: the byte order mark, and formatted lines. `millis` says which
      of the two timestamp formats the line was written with. */
  datatype Chunk = Signature | Record(entry: LogEntry, millis: bool)

  type Content = seq<Chunk>
  type Files = map<Path, Content>

  const BACKUP_LIMIT: nat := 5

  function Slot(files: Files, dir: string, name: string, k: nat): Option<Content> {
    if Path(dir, name, k) in files then Some(files[Path(dir, name, k)]) else None
  }

  function Records(lines: seq<LogEntry>, millis: bool): Content {
    seq(|lines|, i requires 0 <= i < |lines| => Record(lines[i], millis))
  }

  /** The static renameTo: the target is deleted first, whether or not the move then succeeds. */
  function RenameOver(files: Files, target: Path, source: Path): Files {
    var cleared := files - {target};
    if source in cleared then (cleared - {source})[target := cleared[source]] else cleared
  }

  /** The backups i, i-1, ..., 1 move up by one, then the log itself becomes backup 1. */
  function ShiftFrom(files: Files, dir: string, name: string, i: nat): Files
    decreases i
  {
    var moved := RenameOver(files, Path(dir, name, i + 1), Path(dir, name, i));
    if i == 0 then moved else ShiftFrom(moved, dir, name, i - 1)
  }

  function Rotated(files: Files, dir: string, name: string, limit: nat): Files {
    ShiftFrom(files, dir, name, if limit == 0 then 0 else limit - 1)
  }

  predicate Among(p: Path, dir: string, name: string, last: nat) {
    p.dir == dir && p.name == name && p.slot <= last
  }

  lemma OneMove(files: Files, dir: string, name: string, i: nat)
    ensures var moved := RenameOver(files, Path(dir, name, i + 1), Path(dir, name, i));
            && Slot(moved, dir, name, i + 1) == Slot(files, dir, name, i) && Slot(moved, dir, name, i) == None
            && (forall p: Path | p != Path(dir, name, i) && p != Path(dir, name, i + 1) ::
                  (p in moved <==> p in files) && (p in moved ==> moved[p] == files[p]))
  {
  }

  lemma {:induction false} ShiftIsExact(files: Files, dir: string, name: string, i: nat)
    ensures var r := ShiftFrom(files, dir, name, i);
            && (forall k: nat | k <= i :: Slot(r, dir, name, k + 1) == Slot(files, dir, name, k))
            && Slot(r, dir, name, 0) == None
            && (forall p: Path | !Among(p, dir, name, i + 1) ::
                  (p in r <==> p in files) && (p in r ==> r[p] == files[p]))
    decreases i
  {
    hide RenameOver;
    var moved := RenameOver(files, Path(dir, name, i + 1), Path(dir, name, i));
    OneMove(files, dir, name, i);
    if i > 0 {
      ShiftIsExact(moved, dir, name, i - 1);
      var r := ShiftFrom(files, dir, name, i);
      assert r == ShiftFrom(moved, dir, name, i - 1);
      forall k: nat | k <= i
        ensures Slot(r, dir, name, k + 1) == Slot(files, dir, name, k)
      {
        if k < i {
          assert Slot(r, dir, name, k + 1) == Slot(moved, dir, name, k);
        } else {
          assert !Among(Path(dir, name, i + 1), dir, name, i);
        }
      }
    }
  }

  /** Rotation is an exact shift for every limit n >= 1, holes included: backup k + 1 is the old
      backup k, backup 1 is the old log, the log name is free, and no other path changes. */
  lemma RotationIsExactShift(files: Files, dir: string, name: string, limit: nat)
    requires limit >= 1
    ensures var r := Rotated(files, dir, name, limit);
            && (forall k: nat | 1 <= k < limit :: Slot(r, dir, name, k + 1) == Slot(files, dir, name, k))
            && Slot(r, dir, name, 1) == Slot(files, dir, name, 0)
            && Slot(r, dir, name, 0) == None
            && (forall p: Path | !Among(p, dir, name, limit) ::
                  (p in r <==> p in files) && (p in r ==> r[p] == files[p]))
  {
    ShiftIsExact(files, dir, name, limit - 1);
    assert Slot(Rotated(files, dir, name, limit), dir, name, 0 + 1) == Slot(files, dir, name, 0);
  }

  /** What an account does to the file system. */
  datatype Effect =
    | Fresh(dir: string, replay: seq<LogEntry>, millis: bool)  // rotate, create, sign, replay
    | Reopen(dir: string)                                      // open at the end, created if absent
    | Write(dir: string, entry: LogEntry, millis: bool)

  function Apply(files: Files, name: string, e: Effect): Files {
    var log := Path(e.dir, name, 0);
    match e
    case Fresh(dir, replay, millis) =>
      Rotated(files, dir, name, BACKUP_LIMIT)[log := [Signature] + Records(replay, millis)]
    case Reopen(dir) =>
      if log in files then files else files[log := []]
    case Write(dir, entry, millis) =>
      files[log := Slot(files, dir, name, 0).GetOr([]) + [Record(entry, millis)]]
  }

  function Replay(files: Files, name: string, trace: seq<Effect>): Files {
    if trace == [] then files
    else Apply(Replay(files, name, trace[..|trace| - 1]), name, trace[|trace| - 1])
  }

  lemma {:induction false} ReplayOfConcat(files: Files, name: string, a: seq<Effect>, b: seq<Effect>)
    ensures Replay(files, name, a + b) == Replay(Replay(files, name, a), name, b)
  {
    if b == [] {
      assert a + b == a;
    } else {
      assert (a + b)[..|a + b| - 1] == a + b[..|b| - 1];
      ReplayOfConcat(files, name, a, b[..|b| - 1]);
    }
  }

  /** The volume that holds the log directories. */
  class LogVolume {
    var files: Files

    constructor (files: Files)
      ensures this.files == files
    {
      this.files := files;
    }

    method RenameTo(target: Path, source: Path)
      modifies this
      ensures files == RenameOver(old(files), target, source)
    {
      files := files - {target};
      if source in files {
        files := (files - {source})[target := files[source]];
      }
    }

    method CreateBackup(dir: string, name: string, backupLimit: nat)
      modifies this
      ensures files == Rotated(old(files), dir, name, backupLimit)
    {
      var i: int := backupLimit - 1;
      while i > 0
        invariant i > 0 ==> ShiftFrom(files, dir, name, i) == Rotated(old(files), dir, name, backupLimit)
        invariant i <= 0 ==> ShiftFrom(files, dir, name, 0) == Rotated(old(files), dir, name, backupLimit)
      {
        RenameTo(Path(dir, name, i + 1), Path(dir, name, i));
        i := i - 1;
      }
      RenameTo(Path(dir, name, 1), Path(dir, name, 0));
    }
  }
}
