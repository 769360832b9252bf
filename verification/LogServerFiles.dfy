/** What the runs of the log server leave on the volume: every log holds its own lines, whatever is
    written to the others in between. */
module LogServerFiles {
  import opened Wrappers
  import opened LogRecords
  import opened LogFiles
  import opened AccountModel
  import opened LogServerModel
  import opened LogServers
  import LogJournal
  import LogServerRuns

  /** The files, step by step. */
  function Volume(files: Files, s: Server, steps: seq<Step>): Files
    requires Legal(s, steps)
    decreases |steps|
  {
    if steps == [] then files
    else Volume(ReplayNamed(files, Effects(s, steps[0])), Next(s, steps[0]), steps[1..])
  }

  /** All that a run does to the files, and the part of it that is done to the log of one name. */
  function RunEffects(s: Server, steps: seq<Step>): seq<NamedEffects>
    requires Legal(s, steps)
    decreases |steps|
  {
    if steps == [] then [] else Effects(s, steps[0]) + RunEffects(Next(s, steps[0]), steps[1..])
  }

  function Own(trace: seq<NamedEffects>, name: string): seq<Effect> {
    if trace == [] then []
    else
      var last := trace[|trace| - 1];
      Own(trace[..|trace| - 1], name) + if last.fileName == name then last.effects else []
  }

  lemma {:induction false} ReplayNamedOfConcat(files: Files, a: seq<NamedEffects>, b: seq<NamedEffects>)
    ensures ReplayNamed(files, a + b) == ReplayNamed(ReplayNamed(files, a), b)
  {
    if b == [] {
      assert a + b == a;
    } else {
      assert (a + b)[..|a + b| - 1] == a + b[..|b| - 1];
      ReplayNamedOfConcat(files, a, b[..|b| - 1]);
    }
  }

  lemma {:induction false} OwnOfConcat(a: seq<NamedEffects>, b: seq<NamedEffects>, name: string)
    ensures Own(a + b, name) == Own(a, name) + Own(b, name)
  {
    if b == [] {
      assert a + b == a;
    } else {
      assert (a + b)[..|a + b| - 1] == a + b[..|b| - 1];
      OwnOfConcat(a, b[..|b| - 1], name);
    }
  }

  lemma {:induction false} VolumeIsReplay(files: Files, s: Server, steps: seq<Step>)
    requires Legal(s, steps)
    ensures Volume(files, s, steps) == ReplayNamed(files, RunEffects(s, steps))
    decreases |steps|
  {
    if steps != [] {
      hide Effects, Next, Enabled, Replay;
      var first := Effects(s, steps[0]);
      VolumeIsReplay(ReplayNamed(files, first), Next(s, steps[0]), steps[1..]);
      ReplayNamedOfConcat(files, first, RunEffects(Next(s, steps[0]), steps[1..]));
    }
  }

  /** A run can be cut anywhere. */
  lemma {:induction false} ReachSplits(s: Server, steps: seq<Step>, n: nat)
    requires Legal(s, steps) && n <= |steps|
    ensures Legal(s, steps[..n]) && Legal(Reach(s, steps[..n]), steps[n..])
    ensures Reach(s, steps) == Reach(Reach(s, steps[..n]), steps[n..])
    decreases n
  {
    if n == 0 {
      assert steps[n..] == steps;
    } else {
      hide Next, Enabled;
      assert steps[..n][1..] == steps[1..][..n - 1] && steps[1..][n - 1..] == steps[n..];
      ReachSplits(Next(s, steps[0]), steps[1..], n - 1);
    }
  }

  lemma {:induction false} EffectsSplit(s: Server, steps: seq<Step>, n: nat)
    requires Legal(s, steps) && n <= |steps|
    requires Legal(s, steps[..n]) && Legal(Reach(s, steps[..n]), steps[n..])
    ensures RunEffects(s, steps) == RunEffects(s, steps[..n]) + RunEffects(Reach(s, steps[..n]), steps[n..])
    decreases n
  {
    if n == 0 {
      assert steps[n..] == steps;
    } else {
      var past, rest := steps[..n], steps[1..];
      assert past[1..] == rest[..n - 1] && rest[n - 1..] == steps[n..] && past[0] == steps[0];
      FirstStep(s, steps);
      FirstStep(s, past);
      hide *;
      var t := Next(s, steps[0]);
      EffectsSplit(t, rest, n - 1);
      Regroup(Effects(s, steps[0]), RunEffects(t, rest[..n - 1]), RunEffects(Reach(s, past), steps[n..]));
    }
  }

  lemma FirstStep(s: Server, steps: seq<Step>)
    requires steps != [] && Legal(s, steps)
    ensures Enabled(s, steps[0]) && Legal(Next(s, steps[0]), steps[1..])
    ensures Reach(s, steps) == Reach(Next(s, steps[0]), steps[1..])
    ensures RunEffects(s, steps) == Effects(s, steps[0]) + RunEffects(Next(s, steps[0]), steps[1..])
  {
    hide Effects, Next, Enabled;
  }

  lemma Regroup(a: seq<NamedEffects>, b: seq<NamedEffects>, c: seq<NamedEffects>)
    ensures a + (b + c) == (a + b) + c
  {
  }

  // ---- The logs do not disturb each other ----

  /** Two volumes agree on the logs of a name, in every directory. */
  ghost predicate SameLogs(f: Files, g: Files, name: string) {
    forall dir: string, k: nat | k <= BACKUP_LIMIT :: Slot(f, dir, name, k) == Slot(g, dir, name, k)
  }

  lemma OneEffectOnBoth(f: Files, g: Files, name: string, e: Effect)
    requires SameLogs(f, g, name)
    ensures SameLogs(Apply(f, name, e), Apply(g, name, e), name)
  {
    hide Apply, Slot;
    forall dir: string, k: nat | k <= BACKUP_LIMIT
      ensures Slot(Apply(f, name, e), dir, name, k) == Slot(Apply(g, name, e), dir, name, k)
    {
      LogJournal.SlotAfterOne(f, name, e, dir, k);
      LogJournal.SlotAfterOne(g, name, e, dir, k);
      assert k > 0 ==> Slot(f, dir, name, k - 1) == Slot(g, dir, name, k - 1);
    }
  }

  lemma {:induction false} ReplayOnBoth(f: Files, g: Files, name: string, trace: seq<Effect>)
    requires SameLogs(f, g, name)
    ensures SameLogs(Replay(f, name, trace), Replay(g, name, trace), name)
  {
    if trace != [] {
      hide SameLogs, Apply;
      var init := trace[..|trace| - 1];
      ReplayOnBoth(f, g, name, init);
      OneEffectOnBoth(Replay(f, name, init), Replay(g, name, init), name, trace[|trace| - 1]);
    }
  }

  lemma AnotherLog(files: Files, other: string, trace: seq<Effect>, name: string)
    requires other != name
    ensures SameLogs(Replay(files, other, trace), files, name)
  {
    hide Replay;
    forall dir: string, k: nat | k <= BACKUP_LIMIT
      ensures Slot(Replay(files, other, trace), dir, name, k) == Slot(files, dir, name, k)
    {
      LogJournal.OtherPathsUnchanged(files, other, trace, Path(dir, name, k));
    }
  }

  /** The logs of a name are those that its own effects alone would have left. */
  lemma {:induction false} LogsAreTheirOwn(files: Files, trace: seq<NamedEffects>, name: string)
    ensures SameLogs(ReplayNamed(files, trace), Replay(files, name, Own(trace, name)), name)
  {
    if trace != [] {
      hide SameLogs, Replay;
      var init, last := trace[..|trace| - 1], trace[|trace| - 1];
      var f, g := ReplayNamed(files, init), Replay(files, name, Own(init, name));
      LogsAreTheirOwn(files, init, name);
      if last.fileName == name {
        ReplayOnBoth(f, g, name, last.effects);
        ReplayOfConcat(files, name, Own(init, name), last.effects);
      } else {
        AnotherLog(f, last.fileName, last.effects, name);
        SameTwice(Replay(f, last.fileName, last.effects), f, g, name);
        assert Own(init, name) + [] == Own(init, name);
      }
    } else {
      assert SameLogs(files, files, name);
    }
  }

  lemma SameTwice(f: Files, g: Files, h: Files, name: string)
    requires SameLogs(f, g, name) && SameLogs(g, h, name)
    ensures SameLogs(f, h, name)
  {
  }

  // ---- A line on its way to the volume ----

  /** The lines of one connection, in the order in which they come in. */
  function LinesFrom(steps: seq<Step>, id: ConnId): seq<LogEntry> {
    if steps == [] then []
    else (if steps[0].Log? && steps[0].id == id then [steps[0].entry] else []) + LinesFrom(steps[1..], id)
  }

  /** Where in a run the connection's line with the given number comes in. */
  function LogAt(steps: seq<Step>, id: ConnId, j: nat): (at: nat)
    requires j < |LinesFrom(steps, id)|
    ensures at < |steps|
  {
    if steps[0].Log? && steps[0].id == id then if j == 0 then 0 else 1 + LogAt(steps[1..], id, j - 1)
    else 1 + LogAt(steps[1..], id, j)
  }

  lemma {:induction false} LogAtFinds(steps: seq<Step>, id: ConnId, j: nat)
    requires j < |LinesFrom(steps, id)|
    ensures var at := LogAt(steps, id, j);
            steps[at] == Log(id, LinesFrom(steps, id)[j]) && |LinesFrom(steps[..at], id)| == j
  {
    var own := steps[0].Log? && steps[0].id == id;
    if !(own && j == 0) {
      var k := if own then j - 1 else j;
      LogAtFinds(steps[1..], id, k);
      var at := LogAt(steps[1..], id, k);
      assert steps[..at + 1][1..] == steps[1..][..at];
    }
  }

  /** The connection names the log in its second section. */
  ghost predicate Names(steps: seq<Step>, id: ConnId, name: string) {
    forall i | 0 <= i < |steps| && steps[i].AuthSecond? && steps[i].id == id :: steps[i].fileName == name
  }

  ghost predicate Named(s: Server, id: ConnId, name: string) {
    id in s.connections && s.connections[id].phase.Authenticated? ==> s.connections[id].phase.fileName == name
  }

  lemma {:induction false} StaysNamed(s: Server, steps: seq<Step>, id: ConnId, name: string)
    requires Legal(s, steps) && Names(steps, id, name) && Named(s, id, name)
    ensures Named(Reach(s, steps), id, name)
    decreases |steps|
  {
    if steps != [] {
      assert steps[0].AuthSecond? && steps[0].id == id ==> steps[0].fileName == name;
      assert Named(Next(s, steps[0]), id, name);
      hide Next, Enabled, Named;
      StaysNamed(Next(s, steps[0]), steps[1..], id, name);
    }
  }

  /** A line with its place: the directory of the moment it came in, the contents of the log before it,
      and how many fresh logs were begun there since. */
  predicate InGeneration(files: Files, dir: string, name: string, n: nat, before: Content, entry: LogEntry,
                         millis: bool)
  {
    var kept := Slot(files, dir, name, n);
    && kept.Some? && |before| < |kept.value|
    && kept.value[..|before|] == before && kept.value[|before|] == Record(entry, millis)
  }

  /** The number of fresh logs that a run begins for a name in a directory. */
  function FreshLogs(s: Server, steps: seq<Step>, dir: string, name: string): nat
    requires Legal(s, steps)
  {
    LogJournal.FreshCount(Own(RunEffects(s, steps), name), dir)
  }

  lemma OwnOfLine(name: string, dir: string, entry: LogEntry, millis: bool)
    ensures Own([NamedEffects(name, [Write(dir, entry, millis)])], name) == [Write(dir, entry, millis)]
  {
    assert Own([], name) == [];
  }

  /** However the steps of a run interleave, a line that the server's level keeps when it comes in is put
      behind what its connection's log held in the server's directory. After n fresh logs of that name
      there it is still in that place in slot n, for every n up to the limit - whatever other logs were
      written, rotated or moved. */
  lemma LoggedLineSurvives(files: Files, logDir: string, logLevel: u8, headerLineCount: nat, steps: seq<Step>,
                           at: nat, id: ConnId, entry: LogEntry)
    requires Legal(Started(logDir, logLevel, headerLineCount), steps)
    requires at < |steps| && steps[at] == Log(id, entry)
    ensures var start := Started(logDir, logLevel, headerLineCount);
            && Legal(start, steps[..at])
            && var s := Reach(start, steps[..at]);
            && Enabled(s, Log(id, entry)) && Legal(Next(s, Log(id, entry)), steps[at + 1..])
            && var name, dir := s.connections[id].phase.fileName, s.logDir;
               var n := FreshLogs(Next(s, Log(id, entry)), steps[at + 1..], dir, name);
               s.logLevel > 0 && entry.level <= s.logLevel && n <= BACKUP_LIMIT ==>
                 InGeneration(Volume(files, start, steps), dir, name, n,
                              Slot(Volume(files, start, steps[..at]), dir, name, 0).GetOr([]), entry,
                              s.logLevel >= MILLISECONDS_FROM_LEVEL)
  {
    var start := Started(logDir, logLevel, headerLineCount);
    var past, rest, future := steps[..at], steps[at..], steps[at + 1..];
    ReachSplits(start, steps, at);
    var s := Reach(start, past);
    assert rest[0] == Log(id, entry) && rest[1..] == future;
    assert Enabled(s, rest[0]) && Legal(Next(s, Log(id, entry)), future);
    hide Enabled, Legal, Reach, Started, Slot, Volume, Effects;
    if s.logLevel > 0 && entry.level <= s.logLevel {
      LogServerRuns.LinesReachTheirOwnLog(logDir, logLevel, headerLineCount, past, id, entry);
      var name, dir, millis := s.connections[id].phase.fileName, s.logDir, s.logLevel >= MILLISECONDS_FROM_LEVEL;
      var t := Next(s, Log(id, entry));
      var a, b := RunEffects(start, past), RunEffects(t, future);
      var line := [NamedEffects(name, [Write(dir, entry, millis)])];
      assert RunEffects(s, rest) == line + b;
      hide RunEffects, Next;
      EffectsSplit(start, steps, at);
      OwnTrace(a, line, b, name);
      OwnOfLine(name, dir, entry, millis);
      VolumeIsReplay(files, start, past);
      VolumeIsReplay(files, start, steps);
      InOwnSlot(files, a, line + b, Own(a, name), Own(b, name), name, dir, entry, millis);
    }
  }

  lemma OwnTrace(a: seq<NamedEffects>, line: seq<NamedEffects>, b: seq<NamedEffects>, name: string)
    ensures Own(a + (line + b), name) == Own(a, name) + Own(line, name) + Own(b, name)
  {
    OwnOfConcat(line, b, name);
    OwnOfConcat(a, line + b, name);
  }

  lemma InOwnSlot(files: Files, a: seq<NamedEffects>, b: seq<NamedEffects>, past: seq<Effect>, future: seq<Effect>,
                  name: string, dir: string, entry: LogEntry, millis: bool)
    requires past == Own(a, name) && Own(a + b, name) == past + [Write(dir, entry, millis)] + future
    ensures var n := LogJournal.FreshCount(future, dir);
            n <= BACKUP_LIMIT ==>
              InGeneration(ReplayNamed(files, a + b), dir, name, n,
                           Slot(ReplayNamed(files, a), dir, name, 0).GetOr([]), entry, millis)
  {
    hide Own, Slot, Replay, ReplayNamed;
    LogsAreTheirOwn(files, a, name);
    LogsAreTheirOwn(files, a + b, name);
    LogJournal.WrittenLineSurvives(files, name, past, dir, entry, millis, future);
  }

  /** What became of the connection's line with the given number: it went to the log of the name, and if
      the level of the moment kept it, it is in its place in the generation it was written to. */
  ghost predicate Delivered(files: Files, start: Server, steps: seq<Step>, id: ConnId, j: nat, entry: LogEntry,
                            name: string)
    requires Legal(start, steps) && j < |LinesFrom(steps, id)|
  {
    var at := LogAt(steps, id, j);
    var past, future := steps[..at], steps[at + 1..];
    && steps[at] == Log(id, entry) && Legal(start, past)
    && var s := Reach(start, past);
    && Enabled(s, Log(id, entry)) && Legal(Next(s, Log(id, entry)), future)
    && s.connections[id].phase.fileName == name
    && var n := FreshLogs(Next(s, Log(id, entry)), future, s.logDir, name);
       (s.logLevel > 0 && entry.level <= s.logLevel && n <= BACKUP_LIMIT ==>
          InGeneration(Volume(files, start, steps), s.logDir, name, n,
                       Slot(Volume(files, start, past), s.logDir, name, 0).GetOr([]), entry,
                       s.logLevel >= MILLISECONDS_FROM_LEVEL))
  }

  lemma LogsUnderItsName(logDir: string, logLevel: u8, headerLineCount: nat, past: seq<Step>, id: ConnId,
                         entry: LogEntry, name: string)
    requires Legal(Started(logDir, logLevel, headerLineCount), past) && Names(past, id, name)
    requires Enabled(Reach(Started(logDir, logLevel, headerLineCount), past), Log(id, entry))
    ensures Reach(Started(logDir, logLevel, headerLineCount), past).connections[id].phase.fileName == name
  {
    var start := Started(logDir, logLevel, headerLineCount);
    assert Named(start, id, name);
    StaysNamed(start, past, id, name);
  }

  /** Every line of a connection is delivered to the log that the connection names. */
  lemma LineIsDelivered(files: Files, logDir: string, logLevel: u8, headerLineCount: nat, steps: seq<Step>,
                        id: ConnId, j: nat, name: string)
    requires Legal(Started(logDir, logLevel, headerLineCount), steps)
    requires Names(steps, id, name) && j < |LinesFrom(steps, id)|
    ensures Delivered(files, Started(logDir, logLevel, headerLineCount), steps, id, j, LinesFrom(steps, id)[j], name)
  {
    var start, at, entry := Started(logDir, logLevel, headerLineCount), LogAt(steps, id, j), LinesFrom(steps, id)[j];
    assert Names(steps[..at], id, name) by {
      assert forall i | 0 <= i < at :: steps[..at][i] == steps[i];
    }
    hide *;
    LogAtFinds(steps, id, j);
    LoggedLineSurvives(files, logDir, logLevel, headerLineCount, steps, at, id, entry);
    LogsUnderItsName(logDir, logLevel, headerLineCount, steps[..at], id, entry, name);
    DeliveredAt(files, start, steps, id, j, entry, name);
  }

  /** What it takes to be delivered. */
  lemma DeliveredAt(files: Files, start: Server, steps: seq<Step>, id: ConnId, j: nat, entry: LogEntry, name: string)
    requires Legal(start, steps) && j < |LinesFrom(steps, id)|
    requires var at := LogAt(steps, id, j);
             && steps[at] == Log(id, entry) && Legal(start, steps[..at])
             && var s := Reach(start, steps[..at]);
             && Enabled(s, Log(id, entry)) && Legal(Next(s, Log(id, entry)), steps[at + 1..])
             && s.connections[id].phase.fileName == name
             && var n := FreshLogs(Next(s, Log(id, entry)), steps[at + 1..], s.logDir, name);
                (s.logLevel > 0 && entry.level <= s.logLevel && n <= BACKUP_LIMIT ==>
                   InGeneration(Volume(files, start, steps), s.logDir, name, n,
                                Slot(Volume(files, start, steps[..at]), s.logDir, name, 0).GetOr([]), entry,
                                s.logLevel >= MILLISECONDS_FROM_LEVEL))
    ensures Delivered(files, start, steps, id, j, entry, name)
  {
    hide Legal, Reach, Next, Volume, Slot, InGeneration, LogAt, LinesFrom, FreshLogs;
  }
}
