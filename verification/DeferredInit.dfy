/** Postponed initialization refines opening at once. */
module DeferredInit {
  import opened Wrappers
  import opened LogRecords
  import opened LogFiles
  import opened AccountModel
  import opened AccountRuns

  /** What can be done to an account whose log parameters are still unknown. */
  predicate Early(ops: seq<Op>) {
    forall i | 0 <= i < |ops| :: !ops[i].Change? && !ops[i].EndDump?
  }

  function Entries(ops: seq<Op>): seq<LogEntry> {
    if ops == [] then []
    else
      var last := ops[|ops| - 1];
      Entries(ops[..|ops| - 1]) + (if last.PrintLine? then [EntryOf(last)] else [])
  }

  /** The run without the prints after the first n. */
  function FirstPrints(ops: seq<Op>, n: nat): seq<Op> {
    if ops == [] then []
    else
      var init, last := ops[..|ops| - 1], ops[|ops| - 1];
      FirstPrints(init, n) + (if last.PrintLine? && |Entries(init)| >= n then [] else [last])
  }

  function Header(b: Buffers, ops: seq<Op>): (seq<LogEntry>, bool) {
    if ops == [] then (b.header, b.headerStopped)
    else
      var (h, stopped) := Header(b, ops[..|ops| - 1]);
      match ops[|ops| - 1]
      case PrintLine(_, _, _) =>
        (if !stopped && |h| < MAX_LOG_HEADER_SIZE then h + [EntryOf(ops[|ops| - 1])] else h, stopped)
      case CompleteHeader => (h, true)
      case _ => (h, stopped)
  }

  /** While the parameters are unknown, printing only fills the buffers. */
  lemma {:induction false} EarlyRunOfDeferred(headEnabled: bool, ops: seq<Op>)
    requires Early(ops)
    ensures var o := Run(Deferred(headEnabled), ops);
            var (h, stopped) := Header(NewBuffers(headEnabled, true), ops);
            && o.effects == []
            && o.account == Deferred(headEnabled).(
                 buffers := Buffers(h, stopped, Take(Entries(ops), MAX_LOG_DUMP_SIZE), false))
  {
    if ops != [] {
      EarlyRunOfDeferred(headEnabled, ops[..|ops| - 1]);
    }
  }

  /** One more print after the lines so far. */
  lemma PrintAfterOpened(a: Account, b: Account, lines: seq<LogEntry>, e: LogEntry)
    requires Consistent(a) && b == a.(buffers := b.buffers)
    ensures Writes(a.dir, if a.level == 0 then [] else Accepted(lines, a.level), WritesMillis(a)) + Print(b, e).effects
         == Writes(a.dir, if a.level == 0 then [] else Accepted(lines + [e], a.level), WritesMillis(a))
  {
    assert (lines + [e])[..|lines|] == lines;
  }

  /** An account that is open, or closed for good at level zero, writes the lines it accepts. */
  lemma {:induction false} EarlyRunOfOpened(a: Account, ops: seq<Op>)
    requires Early(ops) && Consistent(a) && a.buffers.dumpStopped
    ensures var o := Run(a, ops);
            var (h, stopped) := Header(a.buffers, ops);
            && o.effects == Writes(a.dir, if a.level == 0 then [] else Accepted(Entries(ops), a.level), WritesMillis(a))
            && o.account == a.(buffers := Buffers(h, stopped, a.buffers.dump, true))
  {
    if ops != [] {
      var init, last := ops[..|ops| - 1], ops[|ops| - 1];
      EarlyRunOfOpened(a, init);
      if last.PrintLine? {
        PrintAfterOpened(a, Run(a, init).account, Entries(init), EntryOf(last));
      } else {
        assert Run(a, ops).effects == Run(a, init).effects && Entries(ops) == Entries(init);
      }
    }
  }

  lemma {:induction false} FirstPrintsKeepTheFirst(ops: seq<Op>, n: nat)
    requires Early(ops)
    ensures Early(FirstPrints(ops, n)) && Entries(FirstPrints(ops, n)) == Take(Entries(ops), n)
  {
    if ops != [] {
      var init, last := ops[..|ops| - 1], ops[|ops| - 1];
      FirstPrintsKeepTheFirst(init, n);
      if last.PrintLine? && |Entries(init)| >= n {
        assert FirstPrints(ops, n) == FirstPrints(init, n);
        assert |Entries(init)| > n ==> Entries(ops)[..n] == Entries(init)[..n];
      } else {
        assert FirstPrints(ops, n)[..|FirstPrints(ops, n)| - 1] == FirstPrints(init, n);
      }
    }
  }

  lemma {:induction false} HeaderIsFullInTime(b: Buffers, ops: seq<Op>)
    requires Early(ops) && |b.header| <= MAX_LOG_HEADER_SIZE
    ensures var (h, stopped) := Header(b, ops);
            |h| <= MAX_LOG_HEADER_SIZE && (stopped || |h| >= MAX_LOG_HEADER_SIZE || |h| >= |Entries(ops)|)
  {
    if ops != [] {
      HeaderIsFullInTime(b, ops[..|ops| - 1]);
    }
  }

  /** The header limit is below the dump limit, so prints beyond the dump never reach the header. */
  lemma {:induction false} HeaderIgnoresLatePrints(b: Buffers, ops: seq<Op>)
    requires Early(ops) && |b.header| <= MAX_LOG_HEADER_SIZE
    ensures Header(b, FirstPrints(ops, MAX_LOG_DUMP_SIZE)) == Header(b, ops)
  {
    if ops != [] {
      var init, last := ops[..|ops| - 1], ops[|ops| - 1];
      HeaderIgnoresLatePrints(b, init);
      HeaderIsFullInTime(b, init);
      var f := FirstPrints(ops, MAX_LOG_DUMP_SIZE);
      if last.PrintLine? && |Entries(init)| >= MAX_LOG_DUMP_SIZE {
        assert f == FirstPrints(init, MAX_LOG_DUMP_SIZE);
      } else {
        assert f[..|f| - 1] == FirstPrints(init, MAX_LOG_DUMP_SIZE);
      }
    }
  }

  lemma {:induction false} HeaderDependsOnHeaderOnly(b: Buffers, c: Buffers, ops: seq<Op>)
    requires b.header == c.header && b.headerStopped == c.headerStopped
    ensures Header(b, ops) == Header(c, ops)
  {
    if ops != [] {
      HeaderDependsOnHeaderOnly(b, c, ops[..|ops| - 1]);
    }
  }

  lemma FreshAlone(files: Files, name: string, dir: string, lines: seq<LogEntry>, millis: bool)
    ensures Replay(files, name, [Fresh(dir, lines, millis)])
         == Rotated(files, dir, name, BACKUP_LIMIT)[Path(dir, name, 0) := [Signature] + Records(lines, millis)]
  {
    var whole := [Fresh(dir, lines, millis)];
    assert whole[..0] == [];
  }

  /** Replaying lines into a fresh log, or writing them right after it was opened, is the same. */
  lemma {:induction false} ReplayedOrWritten(files: Files, name: string, dir: string, lines: seq<LogEntry>,
                                             millis: bool)
    ensures Replay(files, name, [Fresh(dir, [], millis)] + Writes(dir, lines, millis))
         == Replay(files, name, [Fresh(dir, lines, millis)])
  {
    var open := [Fresh(dir, [], millis)];
    var trace := open + Writes(dir, lines, millis);
    if lines == [] {
      assert trace == open;
    } else {
      var init, last := lines[..|lines| - 1], lines[|lines| - 1];
      ReplayedOrWritten(files, name, dir, init, millis);
      assert trace[..|trace| - 1] == open + Writes(dir, init, millis);
      FreshAlone(files, name, dir, init, millis);
      FreshAlone(files, name, dir, lines, millis);
      assert [Signature] + Records(lines, millis) == [Signature] + Records(init, millis) + [Record(last, millis)];
    }
  }

  /** An empty dump leaves nothing to replay: the header is then empty as well. */
  lemma {:induction false} HeaderOfFewIsEmpty(headEnabled: bool, ops: seq<Op>)
    requires Early(ops)
    ensures |Header(NewBuffers(headEnabled, true), ops).0| <= |Entries(ops)|
  {
    if ops != [] {
      HeaderOfFewIsEmpty(headEnabled, ops[..|ops| - 1]);
    }
  }

  /** What initialization and what opening at once do, spelled out. */
  lemma LateInit(headEnabled: bool, ops: seq<Op>, dir: string, level: u8, clock: Clock)
    requires Early(ops)
    ensures var early := Run(Deferred(headEnabled), ops);
            var late := Init(early.account, dir, level, clock);
            var (h, stopped) := Header(NewBuffers(headEnabled, true), ops);
            && early.effects == []
            && late.effects == (if level == 0 then []
                 else [Fresh(dir, Accepted(Take(Entries(ops), MAX_LOG_DUMP_SIZE), level),
                             level >= MILLISECONDS_FROM_LEVEL)])
            && late.account == Account(dir, level, level == 0, if level == 0 then None else Some(dir),
                                       Buffers(h, stopped, [], true))
  {
    EarlyRunOfDeferred(headEnabled, ops);
    HeaderOfFewIsEmpty(headEnabled, ops);
  }

  lemma OpenAtOnce(headEnabled: bool, dir: string, level: u8, clock: Clock)
    ensures Opened(dir, level, headEnabled, clock)
         == Outcome(Account(dir, level, level == 0, if level == 0 then None else Some(dir),
                            NewBuffers(headEnabled, false)),
                    if level == 0 then [] else [Fresh(dir, [], level >= MILLISECONDS_FROM_LEVEL)])
  {
  }

  /** Whatever is printed before the parameters are known, and whenever the header is completed,
      initializing then reaches the files and the account - so all later behaviour - of an account
      opened with those parameters first, of which only the first 1024 lines were printed. Up to
      1024 lines nothing is lost (`FirstPrints` is then the run itself). */
  lemma DeferredRefinesOpened(files: Files, name: string, headEnabled: bool, ops: seq<Op>, dir: string, level: u8,
                              clock: Clock)
    requires Early(ops)
    ensures var early := Run(Deferred(headEnabled), ops);
            var late := Init(early.account, dir, level, clock);
            var atOnce := Opened(dir, level, headEnabled, clock);
            var eager := Run(atOnce.account, FirstPrints(ops, MAX_LOG_DUMP_SIZE));
            && late.account == eager.account
            && Replay(files, name, early.effects + late.effects) == Replay(files, name, atOnce.effects + eager.effects)
  {
    var first := FirstPrints(ops, MAX_LOG_DUMP_SIZE);
    LateInit(headEnabled, ops, dir, level, clock);
    OpenAtOnce(headEnabled, dir, level, clock);
    var a := Opened(dir, level, headEnabled, clock).account;
    FirstPrintsKeepTheFirst(ops, MAX_LOG_DUMP_SIZE);
    EarlyRunOfOpened(a, first);
    HeaderIgnoresLatePrints(NewBuffers(headEnabled, true), ops);
    HeaderDependsOnHeaderOnly(NewBuffers(headEnabled, true), a.buffers, first);
    ReplayedOrWritten(files, name, dir, Accepted(Entries(first), level), level >= MILLISECONDS_FROM_LEVEL);
  }

  /** A run of at most 1024 prints is its own beginning. */
  lemma {:induction false} ShortRunsLoseNothing(ops: seq<Op>, n: nat)
    requires |Entries(ops)| <= n
    ensures FirstPrints(ops, n) == ops
  {
    if ops != [] {
      ShortRunsLoseNothing(ops[..|ops| - 1], n);
    }
  }
}
