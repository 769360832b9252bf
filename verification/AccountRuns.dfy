/** Properties of a log account over whole runs. */
module AccountRuns {
  import opened Wrappers
  import opened LogRecords
  import opened LogFiles
  import opened AccountModel

  datatype Op =
    | PrintLine(stamp: Stamp, level: int, utf8: Utf8)
    | Change(dir: string, newLevel: u8, clock: Clock)
    | CompleteHeader
    | EndDump   // the last step of a postponed initialization

  function EntryOf(op: Op): LogEntry
    requires op.PrintLine?
  {
    LogEntry(op.stamp, op.level, Line(op.utf8))
  }

  function Step(a: Account, op: Op): Outcome {
    match op
    case PrintLine(_, _, _) => Print(a, EntryOf(op))
    case Change(dir, newLevel, clock) => SetNewFile(a, newLevel, dir, clock)
    case CompleteHeader => Outcome(StoreHeader(a), [])
    case EndDump => Outcome(a.(buffers := a.buffers.TerminateDump()), [])
  }

  function Run(a: Account, ops: seq<Op>): Outcome {
    if ops == [] then Outcome(a, [])
    else
      var before := Run(a, ops[..|ops| - 1]);
      var last := Step(before.account, ops[|ops| - 1]);
      Outcome(last.account, before.effects + last.effects)
  }

  lemma LastStep(a: Account, ops: seq<Op>)
    requires ops != []
    ensures var o := Run(a, ops[..|ops| - 1]);
            var s := Step(o.account, ops[|ops| - 1]);
            Run(a, ops) == Outcome(s.account, o.effects + s.effects)
  {
  }

  lemma Regroup(a: seq<Effect>, b: seq<Effect>, c: seq<Effect>)
    ensures a + (b + c) == a + b + c
  {
  }

  /** A run can be cut anywhere. */
  lemma {:induction false} RunSplits(a: Account, ops: seq<Op>, n: nat)
    requires n <= |ops|
    ensures var o := Run(a, ops[..n]);
            var rest := Run(o.account, ops[n..]);
            Run(a, ops) == Outcome(rest.account, o.effects + rest.effects)
    decreases |ops|
  {
    if n == |ops| {
      assert ops[..n] == ops;
      assert Run(a, ops).effects + [] == Run(a, ops).effects;
    } else {
      var init := ops[..|ops| - 1];
      var b := Run(a, ops[..n]).account;
      assert init[..n] == ops[..n] && ops[n..][..|ops| - n - 1] == init[n..];
      RunSplits(a, init, n);
      LastStep(a, ops);
      LastStep(b, ops[n..]);
      hide *;
      Regroup(Run(a, ops[..n]).effects, Run(b, init[n..]).effects,
              Step(Run(b, init[n..]).account, ops[|ops| - 1]).effects);
    }
  }

  /** The program asks whether a level is accepted before it formats a line: a line that is not accepted
      would leave no trace, in the buffers or on the volume, and every other one would. */
  lemma AcceptedIffItMatters(a: Account, e: LogEntry)
    ensures Print(a, e) == Outcome(a, []) <==> !Accepts(a, e.level)
  {
  }

  // ---- What every step keeps ----

  predicate Consistent(a: Account) {
    && (a.file.Some? <==> a.level > 0)
    && (a.file.Some? ==> a.file.value == a.dir && !a.asFirstOpen)
    && a.buffers.Bounded()
  }

  lemma ChangeKeepsConsistent(a: Account, newLevel: u8, dir: string, clock: Clock)
    requires Consistent(a)
    ensures var b := SetNewFile(a, newLevel, dir, clock).account;
            Consistent(b) && b.level == newLevel && b.dir == dir
  {
    if newLevel != a.level || dir != a.dir {
      var b := Announce(a, newLevel, dir, clock).account;
      assert b == a.(buffers := b.buffers) && b.buffers.Bounded();
      var raised := newLevel != a.level && a.level == 0;
      var c := Settle(b.(level := newLevel, dir := dir), raised, dir != a.dir, clock.third).account;
      assert c.buffers.Bounded() && c.level == newLevel && c.dir == dir;
    }
  }

  lemma StepKeepsConsistent(a: Account, op: Op)
    requires Consistent(a)
    ensures Consistent(Step(a, op).account)
  {
    if op.Change? {
      ChangeKeepsConsistent(a, op.newLevel, op.dir, op.clock);
    }
  }

  /** After any run of prints, changes and header completions the file is open exactly when the
      level is positive; an open file lies in the current directory and was opened before. */
  lemma {:induction false} RunKeepsConsistent(a: Account, ops: seq<Op>)
    requires Consistent(a)
    ensures Consistent(Run(a, ops).account)
  {
    if ops != [] {
      RunKeepsConsistent(a, ops[..|ops| - 1]);
      StepKeepsConsistent(Run(a, ops[..|ops| - 1]).account, ops[|ops| - 1]);
    }
  }

  // ---- Every accepted line is written exactly once, in order, to the then-current directory ----

  /** The settings a run has reached: the last change wins. */
  function SettingsAfter(ops: seq<Op>, level: u8, dir: string): (u8, string) {
    if ops == [] then (level, dir)
    else
      var last := ops[|ops| - 1];
      if last.Change? then (last.newLevel, last.dir) else SettingsAfter(ops[..|ops| - 1], level, dir)
  }

  /** The writes that the settings alone call for: a line is kept when the level is positive and
      the line's own level does not exceed it. */
  function Expected(ops: seq<Op>, level: u8, dir: string): seq<Effect> {
    if ops == [] then []
    else
      var init, last := ops[..|ops| - 1], ops[|ops| - 1];
      var (l, d) := SettingsAfter(init, level, dir);
      Expected(init, level, dir)
      + if last.PrintLine? && l > 0 && last.level <= l
        then [Write(d, EntryOf(last), l >= MILLISECONDS_FROM_LEVEL)] else []
  }

  /** The part of a trace that writes lines printed from outside. */
  function LineWrites(trace: seq<Effect>): seq<Effect> {
    if trace == [] then []
    else
      var last := trace[|trace| - 1];
      LineWrites(trace[..|trace| - 1]) + (if last.Write? && last.entry.text.Line? then [last] else [])
  }

  lemma {:induction false} LineWritesOfConcat(a: seq<Effect>, b: seq<Effect>)
    ensures LineWrites(a + b) == LineWrites(a) + LineWrites(b)
  {
    if b == [] {
      assert a + b == a;
    } else {
      assert (a + b)[..|a + b| - 1] == a + b[..|b| - 1];
      LineWritesOfConcat(a, b[..|b| - 1]);
    }
  }

  /** The part of a trace that opens files. */
  function Opens(trace: seq<Effect>): seq<Effect> {
    if trace == [] then []
    else Opens(trace[..|trace| - 1]) + (if trace[|trace| - 1].Write? then [] else [trace[|trace| - 1]])
  }

  lemma {:induction false} OpensOfConcat(a: seq<Effect>, b: seq<Effect>)
    ensures Opens(a + b) == Opens(a) + Opens(b)
  {
    if b == [] {
      assert a + b == a;
    } else {
      assert (a + b)[..|a + b| - 1] == a + b[..|b| - 1];
      OpensOfConcat(a, b[..|b| - 1]);
    }
  }

  /** Only messages that the account prints about itself. */
  predicate SelfOnly(trace: seq<Effect>) {
    forall i | 0 <= i < |trace| :: trace[i].Write? && !trace[i].entry.text.Line?
  }

  lemma {:induction false} SelfMessagesAreNeither(trace: seq<Effect>)
    requires SelfOnly(trace)
    ensures LineWrites(trace) == [] && Opens(trace) == []
  {
    if trace != [] {
      SelfMessagesAreNeither(trace[..|trace| - 1]);
    }
  }

  function Writes(dir: string, lines: seq<LogEntry>, millis: bool): seq<Effect> {
    seq(|lines|, i requires 0 <= i < |lines| => Write(dir, lines[i], millis))
  }

  function Optional(condition: bool, e: Effect): seq<Effect> {
    if condition then [e] else []
  }

  lemma BuffersAfterChange(a: Account, newLevel: u8, dir: string, clock: Clock)
    requires Consistent(a)
    ensures SetNewFile(a, newLevel, dir, clock).account.buffers
         == AddAll(a.buffers, SelfEntries(a, newLevel, dir, clock))
  {
    var entries := SelfEntries(a, newLevel, dir, clock);
    if entries != [] {
      var init := entries[..|entries| - 1];
      assert AddAll(a.buffers, entries) == AddAll(a.buffers, init).Add(entries[|entries| - 1]);
      if init != [] {
        assert init[..|init| - 1] == [];
        assert AddAll(a.buffers, init) == a.buffers.Add(init[0]);
      }
    }
  }

  /** The messages written to the old log before a change takes effect: only a log that is open. */
  function Farewell(a: Account, newLevel: u8, dir: string, clock: Clock): seq<Effect> {
    var self := (stamp, text) =>
                  Write(a.dir, LogEntry(stamp, SELF_MESSAGE_LEVEL, text), a.level >= MILLISECONDS_FROM_LEVEL);
    Optional(a.level > 0 && newLevel != a.level, self(clock.first, LevelChanged(a.level, newLevel)))
    + Optional(a.level > 0 && dir != a.dir, self(clock.second, DirectoryChanged(a.dir, dir)))
  }

  /** The file that a change opens, if any: afresh when the directory changes or nothing was opened
      before, at the end of the existing log when the level is only raised from zero. A fresh log
      starts with the dump, else with the completed header, filtered by the new level. */
  function Opening(a: Account, newLevel: u8, dir: string, clock: Clock): seq<Effect> {
    if newLevel == 0 || (a.level > 0 && dir == a.dir) then []
    else if dir == a.dir && !a.asFirstOpen then [Reopen(dir)]
    else [Fresh(dir, ReplayLines(Announce(a, newLevel, dir, clock).account.(level := newLevel)),
                newLevel >= MILLISECONDS_FROM_LEVEL)]
  }

  /** The message written to a log that is continued. */
  function Greeting(opening: seq<Effect>, newLevel: u8, dir: string, clock: Clock): seq<Effect> {
    Optional(opening == [Reopen(dir)],
             Write(dir, LogEntry(clock.third, SELF_MESSAGE_LEVEL, LevelRaised(newLevel)),
                   newLevel >= MILLISECONDS_FROM_LEVEL))
  }

  lemma EffectsOfSettling(a: Account, b: Account, newLevel: u8, dir: string, clock: Clock)
    requires Consistent(a) && (newLevel != a.level || dir != a.dir)
    requires b == Announce(a, newLevel, dir, clock).account.(level := newLevel, dir := dir)
    ensures var open := Opening(a, newLevel, dir, clock);
            Settle(b, newLevel != a.level && a.level == 0, dir != a.dir, clock.third).effects
            == open + Greeting(open, newLevel, dir, clock)
  {
    assert b.file == a.file && b.asFirstOpen == a.asFirstOpen;
  }

  /** Everything a change of settings does to the files. */
  lemma EffectsOfChange(a: Account, newLevel: u8, dir: string, clock: Clock)
    requires Consistent(a)
    ensures var open := Opening(a, newLevel, dir, clock);
            SetNewFile(a, newLevel, dir, clock).effects
            == Farewell(a, newLevel, dir, clock) + open + Greeting(open, newLevel, dir, clock)
  {
    if newLevel != a.level || dir != a.dir {
      var o1 := Announce(a, newLevel, dir, clock);
      assert o1.effects == Farewell(a, newLevel, dir, clock);
      var b := o1.account.(level := newLevel, dir := dir);
      EffectsOfSettling(a, b, newLevel, dir, clock);
      hide Settle, Announce, Opening, Greeting, Farewell;
    }
  }

  lemma OneOpen(open: seq<Effect>)
    requires |open| <= 1 && (open != [] ==> !open[0].Write?)
    ensures LineWrites(open) == [] && Opens(open) == open
  {
    if open != [] {
      assert open[..0] == [];
    }
  }

  lemma AmongSelfMessages(s1: seq<Effect>, open: seq<Effect>, s2: seq<Effect>)
    requires SelfOnly(s1) && SelfOnly(s2)
    requires |open| <= 1 && (open != [] ==> !open[0].Write?)
    ensures LineWrites(s1 + open + s2) == [] && Opens(s1 + open + s2) == open
  {
    hide LineWrites, Opens;
    SelfMessagesAreNeither(s1);
    SelfMessagesAreNeither(s2);
    OneOpen(open);
    OpensOfConcat(s1, open);
    OpensOfConcat(s1 + open, s2);
    LineWritesOfConcat(s1, open);
    LineWritesOfConcat(s1 + open, s2);
  }

  lemma MessagesAreSelf(a: Account, newLevel: u8, dir: string, clock: Clock, open: seq<Effect>)
    ensures SelfOnly(Farewell(a, newLevel, dir, clock)) && SelfOnly(Greeting(open, newLevel, dir, clock))
  {
  }

  /** No line printed from outside is written by a change, and it opens what `Opening` says. */
  lemma ChangeOpensAndWritesNoLines(a: Account, newLevel: u8, dir: string, clock: Clock)
    requires Consistent(a)
    ensures var effects := SetNewFile(a, newLevel, dir, clock).effects;
            LineWrites(effects) == [] && Opens(effects) == Opening(a, newLevel, dir, clock)
  {
    EffectsOfChange(a, newLevel, dir, clock);
    var open := Opening(a, newLevel, dir, clock);
    MessagesAreSelf(a, newLevel, dir, clock, open);
    AmongSelfMessages(Farewell(a, newLevel, dir, clock), open, Greeting(open, newLevel, dir, clock));
  }

  /** One step writes the line it is given if the settings keep it, and only a change of settings
      changes the settings. */
  lemma StepFollowsSettings(a: Account, op: Op)
    requires Consistent(a)
    ensures var o := Step(a, op);
            && LineWrites(o.effects) == Optional(op.PrintLine? && a.level > 0 && op.level <= a.level,
                 if op.PrintLine? then Write(a.dir, EntryOf(op), a.level >= MILLISECONDS_FROM_LEVEL) else Reopen(a.dir))
            && (o.account.level, o.account.dir) == (if op.Change? then (op.newLevel, op.dir) else (a.level, a.dir))
  {
    match op
    case PrintLine(_, _, _) =>
      assert Optional(true, Write(a.dir, EntryOf(op), a.level >= MILLISECONDS_FROM_LEVEL))[..0] == [];
    case Change(dir, newLevel, clock) =>
      ChangeOpensAndWritesNoLines(a, newLevel, dir, clock);
    case _ =>
  }

  /** Every line printed from outside that the settings keep is written exactly once, in order, to
      the directory that is current when it is printed - and no other line is. */
  lemma {:induction false} LinesAreWrittenExactlyOnce(a: Account, ops: seq<Op>)
    requires Consistent(a)
    ensures LineWrites(Run(a, ops).effects) == Expected(ops, a.level, a.dir)
    ensures (Run(a, ops).account.level, Run(a, ops).account.dir) == SettingsAfter(ops, a.level, a.dir)
  {
    if ops != [] {
      var init, last := ops[..|ops| - 1], ops[|ops| - 1];
      var before := Run(a, init);
      LinesAreWrittenExactlyOnce(a, init);
      RunKeepsConsistent(a, init);
      LineWritesOfConcat(before.effects, Step(before.account, last).effects);
      StepFollowsSettings(before.account, last);
    }
  }

  // ---- When a log is opened, and how ----

  lemma StepOpens(a: Account, op: Op)
    requires Consistent(a)
    ensures var o := Step(a, op);
            o.account.asFirstOpen <==> a.asFirstOpen && Opens(o.effects) == []
  {
    match op
    case PrintLine(_, _, _) =>
      var e := Step(a, op).effects;
      if e != [] {
        assert e[..0] == [];
      }
    case Change(dir, newLevel, clock) =>
      ChangeOpensAndWritesNoLines(a, newLevel, dir, clock);
    case _ =>
  }

  /** The first-open flag is history: it is set exactly while nothing has been opened. */
  lemma {:induction false} FirstOpenMeansNeverOpened(a: Account, ops: seq<Op>)
    requires Consistent(a) && a.asFirstOpen
    ensures Run(a, ops).account.asFirstOpen <==> Opens(Run(a, ops).effects) == []
  {
    if ops != [] {
      var init, last := ops[..|ops| - 1], ops[|ops| - 1];
      var before := Run(a, init);
      FirstOpenMeansNeverOpened(a, init);
      RunKeepsConsistent(a, init);
      StepOpens(before.account, last);
      OpensOfConcat(before.effects, Step(before.account, last).effects);
    }
  }

  /** Where the last change to a positive level put the log; none if the level never was positive. */
  function Home(ops: seq<Op>): Option<string> {
    if ops == [] then None
    else
      var last := ops[|ops| - 1];
      if last.Change? && last.newLevel > 0 then Some(last.dir) else Home(ops[..|ops| - 1])
  }

  /** How many operations there are up to that change, the change included. */
  function SinceHome(ops: seq<Op>): (n: nat)
    ensures n <= |ops|
  {
    if ops == [] then 0
    else
      var last := ops[|ops| - 1];
      if last.Change? && last.newLevel > 0 then |ops| else SinceHome(ops[..|ops| - 1])
  }

  /** The directory was changed since then: only possible by a change that sets, or leaves, the level at
      zero. */
  function Moved(ops: seq<Op>, dir: string): bool {
    if ops == [] then false
    else
      var init, last := ops[..|ops| - 1], ops[|ops| - 1];
      if !last.Change? then Moved(init, dir)
      else last.newLevel == 0 && (Moved(init, dir) || last.dir != SettingsAfter(init, 0, dir).1)
  }

  /** The directory of the last open in a trace. */
  function LastOpen(trace: seq<Effect>): Option<string> {
    var opens := Opens(trace);
    if opens == [] then None else Some(opens[|opens| - 1].dir)
  }

  lemma LastOpenOfConcat(a: seq<Effect>, b: seq<Effect>)
    ensures LastOpen(a + b) == if Opens(b) == [] then LastOpen(a) else LastOpen(b)
  {
    OpensOfConcat(a, b);
  }

  lemma PrintOpensNothing(a: Account, op: Op)
    requires !op.Change?
    ensures Opens(Step(a, op).effects) == []
  {
    var e := Step(a, op).effects;
    if e != [] {
      assert e[..0] == [];
    }
  }

  lemma StepOpensAtHome(a: Account, op: Op)
    requires Consistent(a)
    ensures var effects := Step(a, op).effects;
            if op.Change? && op.newLevel > 0 && (a.level == 0 || op.dir != a.dir)
            then LastOpen(effects) == Some(op.dir)
            else Opens(effects) == []
  {
    if op.Change? {
      ChangeOpensAndWritesNoLines(a, op.newLevel, op.dir, op.clock);
      assert Step(a, op) == SetNewFile(a, op.newLevel, op.dir, op.clock);
      hide Step, SetNewFile, Opens, Consistent, ReplayLines, Announce;
    } else {
      PrintOpensNothing(a, op);
    }
  }

  /** The operations alone tell where the log was opened last, if ever; and at a positive level that is
      still the directory. */
  lemma {:induction false} HomeIsWhereItWasOpened(a: Account, ops: seq<Op>)
    requires Consistent(a) && a.asFirstOpen && a.level == 0
    ensures LastOpen(Run(a, ops).effects) == Home(ops)
    ensures var (l, d) := SettingsAfter(ops, 0, a.dir); l > 0 ==> Home(ops) == Some(d)
  {
    if ops != [] {
      var init, last := ops[..|ops| - 1], ops[|ops| - 1];
      var before := Run(a, init);
      HomeIsWhereItWasOpened(a, init);
      RunKeepsConsistent(a, init);
      LinesAreWrittenExactlyOnce(a, init);
      StepOpensAtHome(before.account, last);
      LastOpenOfConcat(before.effects, Step(before.account, last).effects);
    }
  }

  /** To be moved is to have been, at some time since the log was last open, in another directory than
      the one it was opened in. */
  lemma {:induction false} MovedIsAwayFromHome(ops: seq<Op>, dir: string)
    requires Home(ops).Some?
    ensures Moved(ops, dir) <==>
              exists i :: SinceHome(ops) <= i <= |ops| && SettingsAfter(ops[..i], 0, dir).1 != Home(ops).value
  {
    var init, last := ops[..|ops| - 1], ops[|ops| - 1];
    assert ops[..|ops|] == ops;
    if last.Change? && last.newLevel > 0 {
      assert SettingsAfter(ops, 0, dir).1 == last.dir;
    } else {
      MovedIsAwayFromHome(init, dir);
      assert init[..|init|] == init;
      assert forall i | 0 <= i <= |init| :: init[..i] == ops[..i];
      if Moved(init, dir) {
        var i :| SinceHome(init) <= i <= |init| && SettingsAfter(init[..i], 0, dir).1 != Home(init).value;
        assert SettingsAfter(ops[..i], 0, dir).1 != Home(ops).value;
      } else {
        assert SettingsAfter(init[..|init|], 0, dir).1 == Home(init).value;
        if SettingsAfter(ops, 0, dir).1 != Home(ops).value {
          assert SettingsAfter(ops[..|ops|], 0, dir).1 != Home(ops).value;
        }
      }
    }
  }

  /** What the header comment promises of a raise from zero: a new log if the level never was positive, or
      if the directory changes with the raise or was changed since the log was last open. */
  predicate NewLogPromised(ops: seq<Op>, oldDir: string, newDir: string) {
    Home(ops).None? || newDir != SettingsAfter(ops, 0, oldDir).1 || Moved(ops, oldDir)
  }

  /** A raise from zero opens one log, and a new one exactly when the level never was positive or the
      directory changes with the raise. So the code keeps the promise exactly unless the log was open
      before, was moved while the level was, or became, zero, and is raised where it then is. */
  lemma RaiseKeepsThePromise(a: Account, ops: seq<Op>, newDir: string, newLevel: u8, clock: Clock)
    requires Consistent(a) && a.asFirstOpen && a.level == 0
    requires SettingsAfter(ops, 0, a.dir).0 == 0 && newLevel > 0
    ensures var opens := Opens(SetNewFile(Run(a, ops).account, newLevel, newDir, clock).effects);
            var stays := newDir == SettingsAfter(ops, 0, a.dir).1;
            && |opens| == 1 && opens[0].dir == newDir
            && (opens[0].Fresh? <==> Home(ops).None? || !stays)
            && ((opens[0].Fresh? <==> NewLogPromised(ops, a.dir, newDir)) <==>
                  !(Home(ops).Some? && stays && Moved(ops, a.dir)))
  {
    RunKeepsConsistent(a, ops);
    FirstOpenMeansNeverOpened(a, ops);
    HomeIsWhereItWasOpened(a, ops);
    LinesAreWrittenExactlyOnce(a, ops);
    ChangeOpensAndWritesNoLines(Run(a, ops).account, newLevel, newDir, clock);
  }

  /** A run that breaks the promise: the log of the new directory is appended to, not rotated. */
  lemma PromiseBroken(clock: Clock)
    ensures var ops := [Change("A", 5, clock), Change("B", 0, clock)];
            var before := Run(Closed(false, false), ops);
            && Moved(ops, "")
            && Opens(before.effects) != []
            && Opens(SetNewFile(before.account, 5, "B", clock).effects) == [Reopen("B")]
  {
    var a := Closed(false, false);
    var one, two := [Change("A", 5, clock)], [Change("A", 5, clock), Change("B", 0, clock)];
    assert one[..0] == [] && two[..1] == one;
    assert Run(a, []) == Outcome(a, []);
    assert Run(a, one).account == SetNewFile(a, 5, "A", clock).account;
    RunKeepsConsistent(a, one);
    ChangeOpensAndWritesNoLines(a, 5, "A", clock);
    OpensOfConcat([], SetNewFile(a, 5, "A", clock).effects);
    var b := Run(a, one).account;
    assert !b.asFirstOpen && b.dir == "A" && b.level == 5;
    OpensOfConcat(Run(a, one).effects, SetNewFile(b, 0, "B", clock).effects);
    var c := SetNewFile(b, 0, "B", clock).account;
    assert c.level == 0 && c.dir == "B" && !c.asFirstOpen && !c.file.Some?;
    RunKeepsConsistent(a, two);
    ChangeOpensAndWritesNoLines(c, 5, "B", clock);
    assert !Moved(one, "");
  }
}
