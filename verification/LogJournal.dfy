/** The journal of a log: every generation of every directory, none ever lost. The files show the
    last six generations of a directory; rotation and its limit of five backups disappear. */
module LogJournal {
  import opened Wrappers
  import opened LogRecords
  import opened LogFiles

  type Generations = seq<Option<Content>>

  /** Oldest first. A journal starts with the six slots that were on the volume, holes included. */
  function Journal(files: Files, name: string, trace: seq<Effect>, dir: string): (r: Generations)
    ensures |r| >= BACKUP_LIMIT + 1
  {
    if trace == [] then
      [Slot(files, dir, name, 5), Slot(files, dir, name, 4), Slot(files, dir, name, 3),
       Slot(files, dir, name, 2), Slot(files, dir, name, 1), Slot(files, dir, name, 0)]
    else
      var g := Journal(files, name, trace[..|trace| - 1], dir);
      var newest := g[|g| - 1].GetOr([]);
      match trace[|trace| - 1]
      case Fresh(d, replay, millis) => if d == dir then g + [Some([Signature] + Records(replay, millis))] else g
      case Reopen(d) => if d == dir then g[|g| - 1 := Some(newest)] else g
      case Write(d, entry, millis) => if d == dir then g[|g| - 1 := Some(newest + [Record(entry, millis)])] else g
  }

  predicate OfLog(p: Path, name: string) {
    p.name == name && p.slot <= BACKUP_LIMIT
  }

  /** Slot k of a directory is the k-th newest generation of a journal. */
  predicate Shows(files: Files, g: Generations, name: string, dir: string, k: nat)
    requires k < |g|
  {
    Slot(files, dir, name, k) == g[|g| - 1 - k]
  }

  lemma {:induction false} SlotShowsJournal(files: Files, name: string, trace: seq<Effect>, dir: string, k: nat)
    requires k <= BACKUP_LIMIT
    ensures Shows(Replay(files, name, trace), Journal(files, name, trace, dir), name, dir, k)
    decreases |trace|
  {
    if trace != [] {
      var init, last := trace[..|trace| - 1], trace[|trace| - 1];
      SlotShowsJournal(files, name, init, dir, k);
      if k > 0 {
        SlotShowsJournal(files, name, init, dir, k - 1);
      }
      SlotAfterOne(Replay(files, name, init), name, last, dir, k);
    }
  }

  /** What one effect does to slot k of a directory. */
  lemma SlotAfterOne(before: Files, name: string, last: Effect, dir: string, k: nat)
    requires k <= BACKUP_LIMIT
    ensures Slot(Apply(before, name, last), dir, name, k)
         == if last.dir != dir then Slot(before, dir, name, k)
            else if k > 0 then Slot(before, dir, name, if last.Fresh? then k - 1 else k)
            else match last
              case Fresh(_, replay, millis) => Some([Signature] + Records(replay, millis))
              case Reopen(_) => Some(Slot(before, dir, name, 0).GetOr([]))
              case Write(_, entry, millis) => Some(Slot(before, dir, name, 0).GetOr([]) + [Record(entry, millis)])
  {
    if last.Fresh? {
      RotationIsExactShift(before, last.dir, name, BACKUP_LIMIT);
      var r := Rotated(before, last.dir, name, BACKUP_LIMIT);
      if last.dir == dir && k > 1 {
        assert Slot(r, dir, name, k - 1 + 1) == Slot(before, dir, name, k - 1);
      }
    }
  }

  lemma {:induction false} OtherPathsUnchanged(files: Files, name: string, trace: seq<Effect>, p: Path)
    requires !OfLog(p, name)
    ensures var r := Replay(files, name, trace); (p in r <==> p in files) && (p in r ==> r[p] == files[p])
  {
    if trace != [] {
      var init, last := trace[..|trace| - 1], trace[|trace| - 1];
      OtherPathsUnchanged(files, name, init, p);
      if last.Fresh? {
        RotationIsExactShift(Replay(files, name, init), last.dir, name, BACKUP_LIMIT);
      }
    }
  }

  /** Whatever an account does, slot k of a directory is its k-th newest generation, and no other
      path changes. */
  lemma FilesShowTheJournal(files: Files, name: string, trace: seq<Effect>)
    ensures var r := Replay(files, name, trace);
            && (forall dir: string, k: nat | k <= BACKUP_LIMIT ::
                  Shows(r, Journal(files, name, trace, dir), name, dir, k))
            && (forall p: Path | !OfLog(p, name) :: (p in r <==> p in files) && (p in r ==> r[p] == files[p]))
  {
    forall dir: string, k: nat | k <= BACKUP_LIMIT
      ensures Shows(Replay(files, name, trace), Journal(files, name, trace, dir), name, dir, k)
    {
      SlotShowsJournal(files, name, trace, dir, k);
    }
    forall p: Path | !OfLog(p, name)
      ensures var r := Replay(files, name, trace); (p in r <==> p in files) && (p in r ==> r[p] == files[p])
    {
      OtherPathsUnchanged(files, name, trace, p);
    }
  }

  function FreshCount(trace: seq<Effect>, dir: string): nat {
    if trace == [] then 0
    else
      var last := trace[|trace| - 1];
      FreshCount(trace[..|trace| - 1], dir) + (if last.Fresh? && last.dir == dir then 1 else 0)
  }

  predicate Grown(old_: Option<Content>, new_: Option<Content>) {
    old_.Some? ==> new_.Some? && old_.value <= new_.value
  }

  lemma OneEffectGrows(files: Files, name: string, past: seq<Effect>, last: Effect, dir: string)
    ensures var g, h := Journal(files, name, past, dir), Journal(files, name, past + [last], dir);
            && |h| == |g| + (if last.Fresh? && last.dir == dir then 1 else 0)
            && (forall i | 0 <= i < |g| - 1 :: h[i] == g[i])
            && Grown(g[|g| - 1], h[|g| - 1])
  {
    hide Replay, Records;
    assert (past + [last])[..|past|] == past;
  }

  /** A journal only grows: closed generations are frozen, the newest is only appended to, and one
      generation is added by each fresh open. */
  lemma {:induction false} JournalOnlyGrows(files: Files, name: string, a: seq<Effect>, b: seq<Effect>, dir: string)
    ensures var g, h := Journal(files, name, a, dir), Journal(files, name, a + b, dir);
            && |h| == |g| + FreshCount(b, dir)
            && (forall i | 0 <= i < |g| - 1 :: h[i] == g[i])
            && Grown(g[|g| - 1], h[|g| - 1])
  {
    hide Journal;
    if b == [] {
      assert a + b == a;
    } else {
      var init := b[..|b| - 1];
      assert a + b == (a + init) + [b[|b| - 1]];
      JournalOnlyGrows(files, name, a, init, dir);
      OneEffectGrows(files, name, a + init, b[|b| - 1], dir);
    }
  }

  lemma WriteExtendsNewest(files: Files, name: string, past: seq<Effect>, dir: string, entry: LogEntry, millis: bool)
    ensures var g, h := Journal(files, name, past, dir), Journal(files, name, past + [Write(dir, entry, millis)], dir);
            && |h| == |g|
            && h[|g| - 1] == Some(Slot(Replay(files, name, past), dir, name, 0).GetOr([]) + [Record(entry, millis)])
  {
    var here := past + [Write(dir, entry, millis)];
    assert here[..|here| - 1] == past;
    SlotShowsJournal(files, name, past, dir, 0);
  }

  /** A line written to a directory stays in the generation it was written to: after n further
      fresh opens of that directory it is found in slot n, and only n > 5 takes it off the volume. */
  lemma WrittenLineSurvives(files: Files, name: string, past: seq<Effect>, dir: string, entry: LogEntry,
                            millis: bool, future: seq<Effect>)
    ensures var trace := past + [Write(dir, entry, millis)] + future;
            var n := FreshCount(future, dir);
            var at := |Slot(Replay(files, name, past), dir, name, 0).GetOr([])|;
            && (n <= BACKUP_LIMIT ==>
                  var kept := Slot(Replay(files, name, trace), dir, name, n);
                  && kept.Some? && at < |kept.value| && kept.value[at] == Record(entry, millis)
                  && kept.value[..at] == Slot(Replay(files, name, past), dir, name, 0).GetOr([]))
            && (n > BACKUP_LIMIT ==>
                  |Journal(files, name, past, dir)| - 1 < |Journal(files, name, trace, dir)| - 1 - BACKUP_LIMIT)
  {
    var here := past + [Write(dir, entry, millis)];
    WriteExtendsNewest(files, name, past, dir, entry, millis);
    JournalOnlyGrows(files, name, here, future, dir);
    var n := FreshCount(future, dir);
    if n <= BACKUP_LIMIT {
      SlotShowsJournal(files, name, here + future, dir, n);
      var g, h := Journal(files, name, here, dir), Journal(files, name, here + future, dir);
      assert Grown(g[|g| - 1], h[|h| - 1 - n]);
    }
  }
}
