/** A log account as a machine on values: a level, a directory, and the rules that open, rotate and
    close its file. */
module AccountModel {
  import opened Wrappers
  import opened LogRecords
  import opened LogFiles

  /** `file` is the directory of the log that is open, if one is. */
  datatype Account = Account(
    dir: string, level: u8, asFirstOpen: bool, file: Option<string>, buffers: Buffers)

  /** The account after an operation, with what the operation did to the file system. */
  datatype Outcome = Outcome(account: Account, effects: seq<Effect>)

  /** Times of the up to three messages a change of settings can print. */
  datatype Clock = Clock(first: Stamp, second: Stamp, third: Stamp)

  const SELF_MESSAGE_LEVEL: int := 1
  const MILLISECONDS_FROM_LEVEL: int := 9

  predicate WritesMillis(a: Account) {
    a.level >= MILLISECONDS_FROM_LEVEL
  }

  predicate PrintsLine(a: Account, level: int) {
    a.file.Some? && level <= a.level
  }

  predicate Accepts(a: Account, level: int) {
    a.buffers.DumpEnabled() || a.buffers.HeadEnabled() || PrintsLine(a, level)
  }

  function Print(a: Account, e: LogEntry): Outcome {
    Outcome(a.(buffers := a.buffers.Add(e)),
            if PrintsLine(a, e.level) then [Write(a.file.value, e, WritesMillis(a))] else [])
  }

  function PrintSelf(condition: bool, a: Account, stamp: Stamp, text: Text): Outcome {
    if condition then Print(a, LogEntry(stamp, SELF_MESSAGE_LEVEL, text)) else Outcome(a, [])
  }

  /** What a fresh log starts with: the dump if there is one, else the header if it is complete. */
  function ReplayLines(a: Account): seq<LogEntry> {
    Accepted(
      if a.buffers.dump != [] then a.buffers.dump
      else if a.buffers.headerStopped then a.buffers.header
      else [],
      a.level)
  }

  function OpenFile(a: Account): Outcome {
    Outcome(a.(file := Some(a.dir), asFirstOpen := false),
            if a.asFirstOpen then [Fresh(a.dir, ReplayLines(a), WritesMillis(a))] else [Reopen(a.dir)])
  }

  /** The messages printed before a change takes effect; none before the first open. */
  function Announce(a: Account, newLevel: u8, newDir: string, clock: Clock): Outcome {
    var o1 := PrintSelf(newLevel != a.level && !a.asFirstOpen, a, clock.first, LevelChanged(a.level, newLevel));
    var o2 := PrintSelf(newDir != a.dir && !a.asFirstOpen, o1.account, clock.second, DirectoryChanged(a.dir, newDir));
    Outcome(o2.account, o1.effects + o2.effects)
  }

  /** The file is brought into line with settings that are already changed. */
  function Settle(a: Account, raised: bool, dirChanged: bool, stamp: Stamp): Outcome {
    if a.level == 0 then Outcome(a.(file := None), [])
    else
      var b := a.(asFirstOpen := a.asFirstOpen || dirChanged);
      if b.file.Some? && !dirChanged then Outcome(b, [])
      else
        var o1 := OpenFile(b);
        var o2 := PrintSelf(raised && !b.asFirstOpen, o1.account, stamp, LevelRaised(a.level));
        Outcome(o2.account, o1.effects + o2.effects)
  }

  function SetNewFile(a: Account, newLevel: u8, newDir: string, clock: Clock): Outcome {
    if newLevel == a.level && newDir == a.dir then Outcome(a, [])
    else
      var o1 := Announce(a, newLevel, newDir, clock);
      var o2 := Settle(o1.account.(level := newLevel, dir := newDir),
                       newLevel != a.level && a.level == 0, newDir != a.dir, clock.third);
      Outcome(o2.account, o1.effects + o2.effects)
  }

  function Closed(headEnabled: bool, dumpEnabled: bool): Account {
    Account("", 0, true, None, NewBuffers(headEnabled, dumpEnabled))
  }

  /** The constructor that opens at once. */
  function Opened(dir: string, level: u8, headEnabled: bool, clock: Clock): Outcome {
    SetNewFile(Closed(headEnabled, false), level, dir, clock)
  }

  /** The constructor with postponed initialization, and the initialization. */
  function Deferred(headEnabled: bool): Account {
    Closed(headEnabled, true)
  }

  function Init(a: Account, dir: string, level: u8, clock: Clock): Outcome {
    var o := SetNewFile(a, level, dir, clock);
    Outcome(o.account.(buffers := o.account.buffers.TerminateDump()), o.effects)
  }

  function StoreHeader(a: Account): Account {
    a.(buffers := a.buffers.StoreHeader())
  }

  // ---- What an account says about itself ----

  /** The messages a change of settings prints before it takes effect, once the log has been opened: into
      the buffers, whether or not the file is open. */
  function Announced(begun: bool, level: u8, dir: string, newLevel: u8, newDir: string, clock: Clock): seq<LogEntry> {
    if !begun then []
    else
      (if newLevel != level then [LogEntry(clock.first, SELF_MESSAGE_LEVEL, LevelChanged(level, newLevel))] else [])
      + (if newDir != dir then [LogEntry(clock.second, SELF_MESSAGE_LEVEL, DirectoryChanged(dir, newDir))] else [])
  }

  /** And the one it prints afterwards, into a log that is continued. */
  function Welcome(begun: bool, level: u8, dir: string, newLevel: u8, newDir: string, clock: Clock): seq<LogEntry> {
    if begun && level == 0 && newLevel > 0 && newDir == dir
    then [LogEntry(clock.third, SELF_MESSAGE_LEVEL, LevelRaised(newLevel))] else []
  }

  function SelfEntries(a: Account, newLevel: u8, dir: string, clock: Clock): seq<LogEntry> {
    Announced(!a.asFirstOpen, a.level, a.dir, newLevel, dir, clock)
    + Welcome(!a.asFirstOpen, a.level, a.dir, newLevel, dir, clock)
  }
}
