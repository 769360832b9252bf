/** The whole story of a log account, told from its operations alone: what is in its buffers, what every
    fresh log starts with, and all that is done to the files. */
module AccountHistory {
  import opened Wrappers
  import opened LogRecords
  import opened LogFiles
  import opened AccountModel
  import opened AccountRuns

  // ---- What was printed ----

  /** Something was opened: the level was set to a positive one at some time. */
  predicate Begun(ops: seq<Op>) {
    Home(ops).Some?
  }

  /** Everything that was printed, the account's own messages included. */
  function Heard(ops: seq<Op>): seq<LogEntry> {
    if ops == [] then []
    else
      var init, last := ops[..|ops| - 1], ops[|ops| - 1];
      Heard(init) + match last
        case PrintLine(_, _, _) => [EntryOf(last)]
        case Change(newDir, newLevel, clock) =>
          var (level, dir) := SettingsAfter(init, 0, "");
          Announced(Begun(init), level, dir, newLevel, newDir, clock)
          + Welcome(Begun(init), level, dir, newLevel, newDir, clock)
        case _ => []
  }

  predicate HeaderCompleted(ops: seq<Op>) {
    CompleteHeader in ops
  }

  predicate DumpEnded(ops: seq<Op>) {
    EndDump in ops
  }

  /** The operations before the header was completed for the first time. */
  function UpToHeader(ops: seq<Op>): seq<Op> {
    if ops != [] && HeaderCompleted(ops) then UpToHeader(ops[..|ops| - 1]) else ops
  }

  /** What an account holds in its buffers after a run. */
  function Kept(headEnabled: bool, dumpEnabled: bool, ops: seq<Op>): Buffers {
    Buffers(if headEnabled then Take(Heard(UpToHeader(ops)), MAX_LOG_HEADER_SIZE) else [],
            !headEnabled || HeaderCompleted(ops),
            if dumpEnabled && !DumpEnded(ops) then Take(Heard(ops), MAX_LOG_DUMP_SIZE) else [],
            !dumpEnabled || DumpEnded(ops))
  }

  lemma {:induction false} FlagIsHistory(headEnabled: bool, dumpEnabled: bool, ops: seq<Op>)
    ensures var a := Run(Closed(headEnabled, dumpEnabled), ops).account;
            && Consistent(a) && (a.level, a.dir) == SettingsAfter(ops, 0, "") && (!a.asFirstOpen <==> Begun(ops))
            && (a.level > 0 ==> Begun(ops))
  {
    var a := Closed(headEnabled, dumpEnabled);
    RunKeepsConsistent(a, ops);
    LinesAreWrittenExactlyOnce(a, ops);
    FirstOpenMeansNeverOpened(a, ops);
    HomeIsWhereItWasOpened(a, ops);
  }

  /** What one operation prints. */
  function Says(a: Account, op: Op): seq<LogEntry> {
    match op
    case PrintLine(_, _, _) => [EntryOf(op)]
    case Change(dir, level, clock) => SelfEntries(a, level, dir, clock)
    case _ => []
  }

  lemma StepSays(a: Account, op: Op)
    requires Consistent(a)
    ensures var b := AddAll(a.buffers, Says(a, op));
            Step(a, op).account.buffers == match op
              case CompleteHeader => b.StoreHeader()
              case EndDump => b.TerminateDump()
              case _ => b
  {
    match op
    case PrintLine(_, _, _) => assert [EntryOf(op)][..0] == [];
    case Change(dir, level, clock) => BuffersAfterChange(a, level, dir, clock);
    case _ =>
  }

  lemma HeardOneMore(headEnabled: bool, dumpEnabled: bool, init: seq<Op>, last: Op)
    ensures Heard(init + [last]) == Heard(init) + Says(Run(Closed(headEnabled, dumpEnabled), init).account, last)
  {
    FlagIsHistory(headEnabled, dumpEnabled, init);
    hide SettingsAfter, Run, Home, Consistent;
    assert (init + [last])[..|init|] == init;
  }

  lemma TakeOfConcat(a: seq<LogEntry>, b: seq<LogEntry>, n: nat)
    ensures Take(Take(a, n) + b, n) == Take(a + b, n)
  {
    if |a| > n {
      assert (a[..n] + b)[..n] == (a + b)[..n];
    }
  }

  lemma KeptOneMore(headEnabled: bool, dumpEnabled: bool, init: seq<Op>, last: Op, says: seq<LogEntry>)
    requires Heard(init + [last]) == Heard(init) + says
    requires last.CompleteHeader? || last.EndDump? ==> says == []
    ensures var b := AddAll(Kept(headEnabled, dumpEnabled, init), says);
            Kept(headEnabled, dumpEnabled, init + [last]) == match last
              case CompleteHeader => b.StoreHeader()
              case EndDump => b.TerminateDump()
              case _ => b
  {
    var ops, k := init + [last], Kept(headEnabled, dumpEnabled, init);
    HeaderOneMore(init, last, says);
    assert Take(Heard(ops), MAX_LOG_DUMP_SIZE) == Take(Take(Heard(init), MAX_LOG_DUMP_SIZE) + says, MAX_LOG_DUMP_SIZE)
      by { TakeOfConcat(Heard(init), says, MAX_LOG_DUMP_SIZE); }
    assert DumpEnded(ops) <==> DumpEnded(init) || last.EndDump?;
    hide Heard, UpToHeader, HeaderCompleted, DumpEnded, Take;
    assert k.Bounded() by { TakeIsBounded(Heard(UpToHeader(init)), Heard(init)); }
    BuffersHoldTheFirstLines(k, says);
  }

  lemma TakeIsBounded(header: seq<LogEntry>, dump: seq<LogEntry>)
    ensures |Take(header, MAX_LOG_HEADER_SIZE)| <= MAX_LOG_HEADER_SIZE
    ensures |Take(dump, MAX_LOG_DUMP_SIZE)| <= MAX_LOG_DUMP_SIZE
  {
  }

  lemma HeaderOneMore(init: seq<Op>, last: Op, says: seq<LogEntry>)
    requires Heard(init + [last]) == Heard(init) + says
    ensures var ops := init + [last];
            var was := Take(Heard(UpToHeader(init)), MAX_LOG_HEADER_SIZE);
            && (HeaderCompleted(ops) <==> HeaderCompleted(init) || last.CompleteHeader?)
            && Take(Heard(UpToHeader(ops)), MAX_LOG_HEADER_SIZE)
               == if HeaderCompleted(ops) then was else Take(was + says, MAX_LOG_HEADER_SIZE)
  {
    var ops := init + [last];
    assert ops[..|init|] == init && ops[|init|] == last;
    TakeOfConcat(Heard(init), says, MAX_LOG_HEADER_SIZE);
    hide Heard, Take;
    assert !HeaderCompleted(ops) ==> UpToHeader(ops) == ops && UpToHeader(init) == init;
  }

  /** Over every run, however prints, changes and completions interleave: the header is the first up to 16
      entries printed before it was completed, the dump the first up to 1024 while there is one. */
  lemma {:induction false} BuffersOverRuns(headEnabled: bool, dumpEnabled: bool, ops: seq<Op>)
    ensures Run(Closed(headEnabled, dumpEnabled), ops).account.buffers == Kept(headEnabled, dumpEnabled, ops)
  {
    var start := Closed(headEnabled, dumpEnabled);
    if ops != [] {
      var init, last := ops[..|ops| - 1], ops[|ops| - 1];
      var a := Run(start, init).account;
      BuffersOverRuns(headEnabled, dumpEnabled, init);
      FlagIsHistory(headEnabled, dumpEnabled, init);
      assert ops == init + [last];
      assert Run(start, ops).account == Step(a, last).account;
      assert last.CompleteHeader? || last.EndDump? ==> Says(a, last) == [];
      hide *;
      StepSays(a, last);
      HeardOneMore(headEnabled, dumpEnabled, init, last);
      KeptOneMore(headEnabled, dumpEnabled, init, last, Says(a, last));
    }
  }

  // ---- What is done to the files ----

  /** What a log that is begun by a change starts with: the lines of the dump as long as there are any,
      what the change announces among them; else the header, once it is completed. Of these, those that
      the new level accepts. */
  function StartsWith(headEnabled: bool, dumpEnabled: bool, before: seq<Op>, announced: seq<LogEntry>, newLevel: u8)
    : seq<LogEntry>
  {
    var dumped := if dumpEnabled && !DumpEnded(before) then Heard(before) + announced else [];
    Accepted(if dumped != [] then Take(dumped, MAX_LOG_DUMP_SIZE)
             else if headEnabled && HeaderCompleted(before) then Take(Heard(UpToHeader(before)), MAX_LOG_HEADER_SIZE)
             else [],
             newLevel)
  }

  /** The file that a change opens, if any: a new one when nothing was opened before or the directory
      changes, else the old one, continued. */
  function OpeningTold(headEnabled: bool, dumpEnabled: bool, before: seq<Op>, newLevel: u8, newDir: string,
                       clock: Clock): seq<Effect>
  {
    var (level, dir) := SettingsAfter(before, 0, "");
    if newLevel == 0 || (level > 0 && newDir == dir) then []
    else if newDir == dir && Begun(before) then [Reopen(newDir)]
    else
      var announced := Announced(Begun(before), level, dir, newLevel, newDir, clock);
      [Fresh(newDir, StartsWith(headEnabled, dumpEnabled, before, announced, newLevel),
             newLevel >= MILLISECONDS_FROM_LEVEL)]
  }

  function ChangeTold(headEnabled: bool, dumpEnabled: bool, before: seq<Op>, newLevel: u8, newDir: string,
                      clock: Clock): seq<Effect>
  {
    var (level, dir) := SettingsAfter(before, 0, "");
    (if level > 0 then Writes(dir, Announced(true, level, dir, newLevel, newDir, clock),
                              level >= MILLISECONDS_FROM_LEVEL) else [])
    + OpeningTold(headEnabled, dumpEnabled, before, newLevel, newDir, clock)
    + Writes(newDir, Welcome(Begun(before), level, dir, newLevel, newDir, clock), newLevel >= MILLISECONDS_FROM_LEVEL)
  }

  /** All that a run does to the files. */
  function Told(headEnabled: bool, dumpEnabled: bool, ops: seq<Op>): seq<Effect> {
    if ops == [] then []
    else
      var init, last := ops[..|ops| - 1], ops[|ops| - 1];
      var (level, dir) := SettingsAfter(init, 0, "");
      Told(headEnabled, dumpEnabled, init) + match last
        case PrintLine(_, _, _) =>
          if level > 0 && last.level <= level then [Write(dir, EntryOf(last), level >= MILLISECONDS_FROM_LEVEL)] else []
        case Change(newDir, newLevel, clock) => ChangeTold(headEnabled, dumpEnabled, init, newLevel, newDir, clock)
        case _ => []
  }

  lemma FarewellTold(a: Account, newLevel: u8, newDir: string, clock: Clock)
    ensures Farewell(a, newLevel, newDir, clock)
         == if a.level > 0 then Writes(a.dir, Announced(true, a.level, a.dir, newLevel, newDir, clock),
                                       a.level >= MILLISECONDS_FROM_LEVEL) else []
  {
  }

  lemma GreetingTold(a: Account, opening: seq<Effect>, newLevel: u8, newDir: string, clock: Clock)
    requires opening == [Reopen(newDir)] <==> newLevel > 0 && a.level == 0 && newDir == a.dir && !a.asFirstOpen
    ensures Greeting(opening, newLevel, newDir, clock)
         == Writes(newDir, Welcome(!a.asFirstOpen, a.level, a.dir, newLevel, newDir, clock),
                   newLevel >= MILLISECONDS_FROM_LEVEL)
  {
  }

  /** The buffers when a change comes to open a file: what it announces is in them. */
  lemma AnnouncedBuffers(a: Account, newLevel: u8, newDir: string, clock: Clock)
    requires Consistent(a)
    ensures var b := Announce(a, newLevel, newDir, clock).account;
            && b == a.(buffers := b.buffers)
            && b.buffers == AddAll(a.buffers, Announced(!a.asFirstOpen, a.level, a.dir, newLevel, newDir, clock))
  {
    var entries := Announced(!a.asFirstOpen, a.level, a.dir, newLevel, newDir, clock);
    if entries != [] {
      var init := entries[..|entries| - 1];
      assert AddAll(a.buffers, entries) == AddAll(a.buffers, init).Add(entries[|entries| - 1]);
      if init != [] {
        assert init[..|init| - 1] == [];
        assert AddAll(a.buffers, init) == a.buffers.Add(init[0]);
      }
    }
  }

  lemma StartTold(headEnabled: bool, dumpEnabled: bool, before: seq<Op>, a: Account, newLevel: u8, newDir: string,
                  clock: Clock)
    requires Consistent(a) && a.buffers == Kept(headEnabled, dumpEnabled, before)
    ensures var b := Announce(a, newLevel, newDir, clock).account.(level := newLevel);
            var announced := Announced(!a.asFirstOpen, a.level, a.dir, newLevel, newDir, clock);
            ReplayLines(b) == StartsWith(headEnabled, dumpEnabled, before, announced, newLevel)
  {
    var announced := Announced(!a.asFirstOpen, a.level, a.dir, newLevel, newDir, clock);
    AnnouncedBuffers(a, newLevel, newDir, clock);
    BuffersHoldTheFirstLines(a.buffers, announced);
    TakeOfConcat(Heard(before), announced, MAX_LOG_DUMP_SIZE);
    hide Announced, Announce, Accepted, Heard, UpToHeader, AddAll, HeaderCompleted, DumpEnded;
  }

  lemma ChangeIsTold(headEnabled: bool, dumpEnabled: bool, before: seq<Op>, newLevel: u8, newDir: string, clock: Clock)
    ensures var a := Run(Closed(headEnabled, dumpEnabled), before).account;
            SetNewFile(a, newLevel, newDir, clock).effects
            == ChangeTold(headEnabled, dumpEnabled, before, newLevel, newDir, clock)
  {
    var a := Run(Closed(headEnabled, dumpEnabled), before).account;
    FlagIsHistory(headEnabled, dumpEnabled, before);
    BuffersOverRuns(headEnabled, dumpEnabled, before);
    EffectsOfChange(a, newLevel, newDir, clock);
    StartTold(headEnabled, dumpEnabled, before, a, newLevel, newDir, clock);
    hide Run, SetNewFile, StartsWith, ReplayLines, Announced, Announce, Kept, Consistent, SettingsAfter, Home;
    var opening := OpeningTold(headEnabled, dumpEnabled, before, newLevel, newDir, clock);
    assert Opening(a, newLevel, newDir, clock) == opening;
    FarewellTold(a, newLevel, newDir, clock);
    GreetingTold(a, opening, newLevel, newDir, clock);
  }

  /** Over every run, what an account does to the files is what its operations tell: nothing else about
      it matters. */
  lemma {:induction false} RunIsTold(headEnabled: bool, dumpEnabled: bool, ops: seq<Op>)
    ensures Run(Closed(headEnabled, dumpEnabled), ops).effects == Told(headEnabled, dumpEnabled, ops)
  {
    if ops != [] {
      var init, last := ops[..|ops| - 1], ops[|ops| - 1];
      RunIsTold(headEnabled, dumpEnabled, init);
      FlagIsHistory(headEnabled, dumpEnabled, init);
      if last.Change? {
        ChangeIsTold(headEnabled, dumpEnabled, init, last.newLevel, last.dir, last.clock);
      }
      hide ChangeTold, SetNewFile, SettingsAfter, Home;
    }
  }

  /** So an account that was opened with a header begins every new log - and only a new one - with the
      first up to 16 entries printed before the header was completed, as far as the new level accepts
      them, and with nothing while it is not completed. */
  lemma NewLogStartsWithTheHeader(dir: string, level: u8, clock: Clock, ops: seq<Op>, newLevel: u8, newDir: string,
                                  now: Clock)
    ensures var a := Run(Opened(dir, level, true, clock).account, ops).account;
            var all := [Change(dir, level, clock)] + ops;
            var header := if CompleteHeader in ops then Take(Heard(UpToHeader(all)), MAX_LOG_HEADER_SIZE) else [];
            var (currentLevel, currentDir) := SettingsAfter(all, 0, "");
            Opens(SetNewFile(a, newLevel, newDir, now).effects)
            == if newLevel == 0 || (currentLevel > 0 && newDir == currentDir) then []
               else if newDir == currentDir && Begun(all) then [Reopen(newDir)]
               else [Fresh(newDir, Accepted(header, newLevel), newLevel >= MILLISECONDS_FROM_LEVEL)]
  {
    var all, start := [Change(dir, level, clock)] + ops, Closed(true, false);
    var before := Run(start, all).account;
    OpenedFirst(true, dir, level, clock, ops);
    FlagIsHistory(true, false, all);
    BuffersOverRuns(true, false, all);
    StartTold(true, false, all, before, newLevel, newDir, now);
    ChangeOpensAndWritesNoLines(before, newLevel, newDir, now);
    assert HeaderCompleted(all) <==> CompleteHeader in ops;
    hide Run, SetNewFile, Opens, Announced, Announce, Kept, Consistent, SettingsAfter, Home, Accepted, Heard;
    hide Opened, UpToHeader;
  }

  /** To be opened at once is to have a change of settings for a first operation. */
  lemma OpenedFirst(headEnabled: bool, dir: string, level: u8, clock: Clock, ops: seq<Op>)
    ensures var o := Opened(dir, level, headEnabled, clock);
            Run(Closed(headEnabled, false), [Change(dir, level, clock)] + ops)
            == Outcome(Run(o.account, ops).account, o.effects + Run(o.account, ops).effects)
  {
    var all := [Change(dir, level, clock)] + ops;
    assert all[..1] == [Change(dir, level, clock)] && all[..1][..0] == [] && all[1..] == ops;
    assert Run(Closed(headEnabled, false), []) == Outcome(Closed(headEnabled, false), []);
    RunSplits(Closed(headEnabled, false), all, 1);
    hide SetNewFile;
    assert [] + Opened(dir, level, headEnabled, clock).effects == Opened(dir, level, headEnabled, clock).effects;
  }
}
