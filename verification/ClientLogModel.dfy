/** The client end of a log session: what is dumped, what is sent, and how the server reads it. */
module ClientLogModel {
  import opened Wrappers
  import opened LogRecords
  import opened Codec

  /** The barrier that lets the dump through while it is sent. */
  const DUMP_BARRIER: int := 9

  /** `n & 0xf` of a two's complement integer. */
  function Mask(n: int): (r: u8)
    ensures 0 <= r <= 15
  {
    n % 16
  }

  /** The mask keeps exactly the levels it can represent; a line that passed a barrier is at most
      15, so only negative levels change on their way. */
  lemma MaskIsLossless(level: int, barrier: int)
    requires level <= Mask(barrier)
    ensures Mask(level) == level <==> level >= 0
  {
  }

  /** What goes over the log channel. */
  datatype Item = Name(name: Utf8) | Rec(entry: LogEntry)

  function Payload(t: Text): Utf8 {
    match t
    case Line(utf8) => utf8
    case _ => []   // messages of an account, which no client prints
  }

  function Fields(i: Item): seq<Field> {
    match i
    case Name(name) => [Str(name)]
    case Rec(e) =>
      [U32(e.stamp.processId), U32(e.stamp.threadId), U64(e.stamp.time), U8(Mask(e.level)), Str(Payload(e.text))]
  }

  function Bytes(items: seq<Item>): seq<byte> {
    if items == [] then [] else EncodeOnto(Fields(items[0]), Bytes(items[1..]))
  }

  function Recs(lines: seq<LogEntry>): seq<Item> {
    seq(|lines|, i requires 0 <= i < |lines| => Rec(lines[i]))
  }

  // ---- The client as a machine ----

  /** `Connect` is a sequence of atomic steps: other threads may print between any two of them. */
  datatype Stage = Offline | OutputSet | NameSent | LevelKnown | Raised | DumpSent | Restored | Online

  datatype Client = Client(
    buffers: Buffers, hasOutput: bool, barrier: u8, saved: u8, stage: Stage, sent: seq<Item>)

  function NewClient(): Client {
    Client(NewBuffers(false, true), false, 0, 0, Offline, [])
  }

  function Flushed(c: Client, lines: seq<LogEntry>): Client {
    if c.hasOutput then c.(sent := c.sent + Recs(Accepted(lines, c.barrier))) else c
  }

  function Print(c: Client, e: LogEntry): Client {
    Flushed(c.(buffers := c.buffers.(dump := c.buffers.Add(e).dump)), [e])
  }

  function ConnectStep(c: Client, name: Utf8, firstLevel: u8): Client
    requires !c.stage.Online?
  {
    match c.stage
    case Offline => c.(hasOutput := true, stage := OutputSet)
    case OutputSet => c.(sent := c.sent + [Name(name)], stage := NameSent)
    case NameSent => c.(barrier := Mask(firstLevel), stage := LevelKnown)
    case LevelKnown => c.(saved := c.barrier, barrier := Mask(DUMP_BARRIER), stage := Raised)
    case Raised => Flushed(c, c.buffers.dump).(stage := DumpSent)
    case DumpSent => c.(barrier := Mask(c.saved), stage := Restored)
    case Restored => c.(buffers := c.buffers.TerminateDump(), stage := Online)
  }

  function StepsLeft(stage: Stage): nat {
    match stage
    case Offline => 7 case OutputSet => 6 case NameSent => 5 case LevelKnown => 4
    case Raised => 3 case DumpSent => 2 case Restored => 1 case Online => 0
  }

  /** The rest of `Connect`, undisturbed. */
  function Connect(c: Client, name: Utf8, firstLevel: u8): Client
    decreases StepsLeft(c.stage)
  {
    if c.stage.Online? then c else Connect(ConnectStep(c, name, firstLevel), name, firstLevel)
  }

  function PrintAll(c: Client, lines: seq<LogEntry>): Client {
    if lines == [] then c else Print(PrintAll(c, lines[..|lines| - 1]), lines[|lines| - 1])
  }

  /** Life after `Connect`: lines are printed, and levels arrive on the other channel. */
  datatype Event = Printed(entry: LogEntry) | LevelArrived(level: u8)

  function Live(c: Client, events: seq<Event>): Client {
    if events == [] then c
    else
      var before := Live(c, events[..|events| - 1]);
      match events[|events| - 1]
      case Printed(e) => Print(before, e)
      case LevelArrived(level) => before.(barrier := Mask(level))
  }

  // ---- What is sent ----

  /** The lines that are within the barrier when they are printed; the last level to arrive counts. */
  function Passed(events: seq<Event>, barrier: u8): (seq<LogEntry>, u8) {
    if events == [] then ([], barrier)
    else
      var (lines, b) := Passed(events[..|events| - 1], barrier);
      match events[|events| - 1]
      case Printed(e) => (if e.level <= b then lines + [e] else lines, b)
      case LevelArrived(level) => (lines, Mask(level))
  }

  /** A line that is within the barrier when it is printed stays where it is among those that are. */
  lemma {:induction false} PassedInItsPlace(before: seq<Event>, e: LogEntry, after: seq<Event>, barrier: u8)
    requires e.level <= Passed(before, barrier).1
    ensures var lines := Passed(before + [Event.Printed(e)] + after, barrier).0;
            var j := |Passed(before, barrier).0|;
            j < |lines| && lines[j] == e
  {
    var events := before + [Event.Printed(e)] + after;
    if after == [] {
      assert events[..|events| - 1] == before;
    } else {
      assert events[..|events| - 1] == before + [Event.Printed(e)] + after[..|after| - 1];
      PassedInItsPlace(before, e, after[..|after| - 1], barrier);
    }
  }

  lemma {:induction false} OfflinePrintsFillTheDump(lines: seq<LogEntry>)
    ensures PrintAll(NewClient(), lines)
         == NewClient().(buffers := NewBuffers(false, true).(dump := Take(lines, MAX_LOG_DUMP_SIZE)))
  {
    if lines != [] {
      OfflinePrintsFillTheDump(lines[..|lines| - 1]);
    }
  }

  lemma ConnectUndisturbed(c: Client, name: Utf8, firstLevel: u8)
    requires c.stage.Offline?
    ensures var barrier := Mask(firstLevel);
            Connect(c, name, firstLevel)
            == Client(c.buffers.TerminateDump(), true, barrier, barrier, Online,
                      c.sent + [Name(name)] + Recs(Accepted(c.buffers.dump, DUMP_BARRIER)))
  {
    var c1 := ConnectStep(c, name, firstLevel);
    var c2 := ConnectStep(c1, name, firstLevel);
    var c3 := ConnectStep(c2, name, firstLevel);
    var c4 := ConnectStep(c3, name, firstLevel);
    var c5 := ConnectStep(c4, name, firstLevel);
    var c6 := ConnectStep(c5, name, firstLevel);
    var c7 := ConnectStep(c6, name, firstLevel);
    assert Connect(c7, name, firstLevel) == c7;
    assert Connect(c5, name, firstLevel) == c7;
    assert Connect(c3, name, firstLevel) == c7;
    assert Connect(c1, name, firstLevel) == c7;
  }

  lemma {:induction false} LiveLinesAreSent(c: Client, events: seq<Event>)
    requires c.hasOutput && c.buffers.dumpStopped
    ensures var (lines, barrier) := Passed(events, c.barrier);
            Live(c, events) == c.(barrier := barrier, sent := c.sent + Recs(lines))
  {
    if events == [] {
      assert c.sent + Recs([]) == c.sent;
    } else {
      var init, last := events[..|events| - 1], events[|events| - 1];
      LiveLinesAreSent(c, init);
      var (lines, barrier) := Passed(init, c.barrier);
      if last.Printed? {
        assert [last.entry][..0] == [];
        assert Accepted([last.entry], barrier) == if last.entry.level <= barrier then [last.entry] else [];
        assert Recs(lines + [last.entry]) == Recs(lines) + Recs([last.entry]);
        assert c.sent + Recs(lines) + Recs([]) == c.sent + Recs(lines);
      }
    }
  }

  // ---- How the server reads it ----

  /** One turn of the dispatch loop. */
  function TakeRecord(s: seq<byte>): Read<LogEntry> {
    var (processId, s1) :- TakeU32(s);
    var (threadId, s2) :- TakeU32(s1);
    var (time, s3) :- TakeU64(s2);
    var (level, s4) :- TakeU8(s3);
    var (text, rest) :- TakeStr(s4);
    Got(LogEntry(Stamp(processId, threadId, time), level, Line(text)), rest)
  }

  lemma RecordTakesBytes(s: seq<byte>)
    ensures TakeRecord(s).Got? ==> |TakeRecord(s).rest| < |s|
  {
  }

  /** The dispatch loop, as far as the bytes that have arrived carry it. */
  function Dispatch(s: seq<byte>): (seq<LogEntry>, seq<byte>)
    decreases |s|
  {
    RecordTakesBytes(s);
    match TakeRecord(s)
    case Short => ([], s)
    case Got(e, rest) => var (es, left) := Dispatch(rest); ([e] + es, left)
  }

  /** What a line looks like to the server: its level has been through the mask. */
  function Seen(e: LogEntry): LogEntry {
    LogEntry(e.stamp, Mask(e.level), Line(Payload(e.text)))
  }

  function SeenAll(lines: seq<LogEntry>): seq<LogEntry> {
    seq(|lines|, i requires 0 <= i < |lines| => Seen(lines[i]))
  }

  lemma RecordRoundTrip(e: LogEntry, rest: seq<byte>)
    ensures TakeRecord(EncodeOnto(Fields(Rec(e)), rest)) == Got(Seen(e), rest)
  {
    var f := Fields(Rec(e));
    assert f[1..][1..] == f[2..] && f[2..][1..] == f[3..] && f[3..][1..] == f[4..] && f[4..][1..] == [];
    U32ThenRest(e.stamp.processId, EncodeOnto(f[1..], rest));
    U32ThenRest(e.stamp.threadId, EncodeOnto(f[2..], rest));
    U64ThenRest(e.stamp.time, EncodeOnto(f[3..], rest));
    U8ThenRest(Mask(e.level), EncodeOnto(f[4..], rest));
    StrThenRest(Payload(e.text), rest);
    assert EncodeOnto(f[4..], rest) == Encode(f[4]) + rest;
  }

  lemma DispatchOne(s: seq<byte>, e: LogEntry, rest: seq<byte>)
    requires TakeRecord(s) == Got(e, rest)
    ensures Dispatch(s) == ([e] + Dispatch(rest).0, Dispatch(rest).1)
  {
    RecordTakesBytes(s);
  }

  lemma DispatchNothing()
    ensures Dispatch([]) == ([], [])
  {
    assert TakeU32([]).Short?;
    assert TakeRecord([]).Short?;
  }

  lemma DispatchAfterRecord(e: LogEntry, rest: seq<byte>)
    ensures Dispatch(EncodeOnto(Fields(Rec(e)), rest)) == ([Seen(e)] + Dispatch(rest).0, Dispatch(rest).1)
  {
    hide *;
    RecordRoundTrip(e, rest);
    DispatchOne(EncodeOnto(Fields(Rec(e)), rest), Seen(e), rest);
  }

  lemma BytesAfterRecord(lines: seq<LogEntry>)
    requires lines != []
    ensures Bytes(Recs(lines)) == EncodeOnto(Fields(Rec(lines[0])), Bytes(Recs(lines[1..])))
  {
    hide EncodeOnto, Fields;
    assert Recs(lines)[1..] == Recs(lines[1..]);
  }

  lemma SeenAfterFirst(lines: seq<LogEntry>)
    requires lines != []
    ensures SeenAll(lines) == [Seen(lines[0])] + SeenAll(lines[1..])
  {
    hide Seen;
  }

  lemma {:induction false} DispatchReadsAll(lines: seq<LogEntry>)
    ensures Dispatch(Bytes(Recs(lines))) == (SeenAll(lines), [])
  {
    if lines == [] {
      DispatchNothing();
      assert Recs([]) == [] && SeenAll([]) == [];
    } else {
      hide *;
      DispatchReadsAll(lines[1..]);
      BytesAfterRecord(lines);
      DispatchAfterRecord(lines[0], Bytes(Recs(lines[1..])));
      SeenAfterFirst(lines);
    }
  }

  /** The whole session as the server reads it: the file name, then the dispatch loop. */
  function ReadSession(s: seq<byte>): Read<(Utf8, seq<LogEntry>)> {
    var (name, rest) :- TakeStr(s);
    var (lines, left) := Dispatch(rest);
    Got((name, lines), left)
  }

  lemma ReadAfterName(s: seq<byte>, name: Utf8, rest: seq<byte>)
    requires TakeStr(s) == Got(name, rest)
    ensures ReadSession(s) == Got((name, Dispatch(rest).0), Dispatch(rest).1)
  {
  }

  lemma SessionReadsBack(name: Utf8, lines: seq<LogEntry>)
    ensures ReadSession(Bytes([Name(name)] + Recs(lines))) == Got((name, SeenAll(lines)), [])
  {
    var sent, rest := [Name(name)] + Recs(lines), Bytes(Recs(lines));
    assert sent[0] == Name(name) && sent[1..] == Recs(lines);
    assert Fields(Name(name))[1..] == [];
    assert EncodeOnto(Fields(Name(name)), rest) == Encode(Str(name)) + EncodeOnto([], rest);
    StrThenRest(name, rest);
    ReadAfterName(Bytes(sent), name, rest);
    DispatchReadsAll(lines);
  }

  lemma WhatIsSent(early: seq<LogEntry>, name: Utf8, firstLevel: u8, events: seq<Event>)
    ensures var connected := Connect(PrintAll(NewClient(), early), name, firstLevel);
            var dumped := Accepted(Take(early, MAX_LOG_DUMP_SIZE), DUMP_BARRIER);
            Live(connected, events).sent == [Name(name)] + Recs(dumped + Passed(events, Mask(firstLevel)).0)
  {
    OfflinePrintsFillTheDump(early);
    var offline := NewClient().(buffers := NewBuffers(false, true).(dump := Take(early, MAX_LOG_DUMP_SIZE)));
    ConnectUndisturbed(offline, name, firstLevel);
    var dumped := Accepted(Take(early, MAX_LOG_DUMP_SIZE), DUMP_BARRIER);
    AfterConnect(Connect(offline, name, firstLevel), dumped, name, events);
  }

  lemma AfterConnect(c: Client, dumped: seq<LogEntry>, name: Utf8, events: seq<Event>)
    requires c.hasOutput && c.buffers.dumpStopped && c.sent == [] + [Name(name)] + Recs(dumped)
    ensures Live(c, events).sent == [Name(name)] + Recs(dumped + Passed(events, c.barrier).0)
  {
    LiveLinesAreSent(c, events);
    var live := Passed(events, c.barrier).0;
    assert Recs(dumped + live) == Recs(dumped) + Recs(live);
  }

  /** With no print during `Connect`, the server reads the file name, then the dumped lines of level
      at most 9, of which the dump holds the first 1024 printed, then the live lines that were
      within the barrier - each once, in order, and nothing else. */
  lemma WireRoundTrip(early: seq<LogEntry>, name: Utf8, firstLevel: u8, events: seq<Event>)
    ensures var connected := Connect(PrintAll(NewClient(), early), name, firstLevel);
            var dumped := Accepted(Take(early, MAX_LOG_DUMP_SIZE), DUMP_BARRIER);
            ReadSession(Bytes(Live(connected, events).sent))
            == Got((name, SeenAll(dumped + Passed(events, Mask(firstLevel)).0)), [])
  {
    WhatIsSent(early, name, firstLevel, events);
    SessionReadsBack(name, Accepted(Take(early, MAX_LOG_DUMP_SIZE), DUMP_BARRIER) + Passed(events, Mask(firstLevel)).0);
  }

  // ---- A print that runs concurrently with Connect ----

  predicate DumpIsSent(stage: Stage) {
    stage.DumpSent? || stage.Restored? || stage.Online?
  }

  function SentSoFar(stage: Stage, name: Utf8, dumped: seq<Item>): seq<Item> {
    if stage.Offline? || stage.OutputSet? then []
    else if DumpIsSent(stage) then [Name(name)] + dumped
    else [Name(name)]
  }

  /** A client in the middle of `Connect`, at the given stage, with the lines of its dump. */
  function During(stage: Stage, dump: seq<LogEntry>, name: Utf8, firstLevel: u8): Client {
    var b := Mask(firstLevel);
    Client(if stage.Online? then Buffers([], true, [], true) else Buffers([], true, dump, false),
           !stage.Offline?,
           match stage
             case Offline => 0 case OutputSet => 0 case NameSent => 0
             case LevelKnown => b case Raised => 9 case DumpSent => 9 case Restored => b case Online => b,
           if stage.Raised? || DumpIsSent(stage) then b else 0,
           stage,
           SentSoFar(stage, name, Recs(Accepted(dump, DUMP_BARRIER))))
  }

  lemma DuringIsReached(stage: Stage, dump: seq<LogEntry>, name: Utf8, firstLevel: u8)
    requires !stage.Online?
    ensures var next := ConnectStep(During(stage, dump, name, firstLevel), name, firstLevel);
            next == During(next.stage, dump, name, firstLevel)
    ensures During(Offline, [], name, firstLevel) == NewClient()
  {
  }

  predicate AtOnce(stage: Stage, level: int, firstLevel: u8) {
    match stage
    case Offline => false
    case OutputSet => level <= 0
    case NameSent => level <= 0
    case LevelKnown => level <= Mask(firstLevel)
    case Raised => level <= DUMP_BARRIER
    case DumpSent => level <= DUMP_BARRIER
    case Restored => level <= Mask(firstLevel)
    case Online => level <= Mask(firstLevel)
  }

  predicate WithDump(stage: Stage, level: int) {
    !DumpIsSent(stage) && level <= DUMP_BARRIER
  }

  function Once(condition: bool, e: LogEntry): seq<Item> {
    if condition then [Rec(e)] else []
  }

  /** A line printed while `Connect` is at some stage is sent at once if the barrier of that moment
      lets it through, and again with the dump if that has room and is still to be sent: twice exactly
      when both hold. Between the first two steps it is even sent ahead of the file name. */
  lemma ConcurrentPrint(stage: Stage, dump: seq<LogEntry>, name: Utf8, firstLevel: u8, e: LogEntry)
    ensures var sent := Connect(Print(During(stage, dump, name, firstLevel), e), name, firstLevel).sent;
            var now := Once(AtOnce(stage, e.level, firstLevel), e);
            var later := Once(WithDump(stage, e.level) && |dump| < MAX_LOG_DUMP_SIZE, e);
            var dumped := Recs(Accepted(dump, DUMP_BARRIER));
            sent == if stage.OutputSet? then now + [Name(name)] + dumped + later
                    else if DumpIsSent(stage) then [Name(name)] + dumped + now
                    else [Name(name)] + now + dumped + later
  {
    var c := Print(During(stage, dump, name, firstLevel), e);
    var later := Once(WithDump(stage, e.level) && |dump| < MAX_LOG_DUMP_SIZE, e);
    assert !AtOnce(Offline, e.level, firstLevel);
    hide *;
    AddedByPrint(stage, dump, name, firstLevel, e);
    Arrange(stage, name, Recs(Accepted(dump, DUMP_BARRIER)), Once(AtOnce(stage, e.level, firstLevel), e), later,
            Connect(c, name, firstLevel).sent);
  }

  /** What was sent before, the line itself, the name if it is still to come, and the dump if it is. */
  lemma AddedByPrint(stage: Stage, dump: seq<LogEntry>, name: Utf8, firstLevel: u8, e: LogEntry)
    ensures var dumped := Recs(Accepted(dump, DUMP_BARRIER));
            var later := Once(WithDump(stage, e.level) && |dump| < MAX_LOG_DUMP_SIZE, e);
            Connect(Print(During(stage, dump, name, firstLevel), e), name, firstLevel).sent
            == SentSoFar(stage, name, dumped) + Once(AtOnce(stage, e.level, firstLevel), e)
               + (if stage.Offline? || stage.OutputSet? then [Name(name)] else [])
               + (if DumpIsSent(stage) then [] else dumped + later)
  {
    hide AtOnce, During, Connect, Print, Accepted, Recs, SentSoFar;
    var c := Print(During(stage, dump, name, firstLevel), e);
    PrintDuring(stage, dump, name, firstLevel, e);
    DuringShape(stage, dump, name, firstLevel);
    FinishFrom(c, name, firstLevel);
    if !DumpIsSent(stage) {
      DumpWithPrint(stage, dump, e, c.buffers.dump);
    }
  }

  lemma DumpWithPrint(stage: Stage, dump: seq<LogEntry>, e: LogEntry, longer: seq<LogEntry>)
    requires !DumpIsSent(stage) && longer == if |dump| < MAX_LOG_DUMP_SIZE then dump + [e] else dump
    ensures Recs(Accepted(longer, DUMP_BARRIER))
         == Recs(Accepted(dump, DUMP_BARRIER)) + Once(WithDump(stage, e.level) && |dump| < MAX_LOG_DUMP_SIZE, e)
  {
    OneMoreInTheDump(dump, e);
    assert Recs(Accepted(dump, DUMP_BARRIER)) + [] == Recs(Accepted(dump, DUMP_BARRIER));
  }

  lemma Arrange(stage: Stage, name: Utf8, dumped: seq<Item>, now: seq<Item>, later: seq<Item>, sent: seq<Item>)
    requires stage.Offline? ==> now == []
    requires sent == SentSoFar(stage, name, dumped) + now
                     + (if stage.Offline? || stage.OutputSet? then [Name(name)] else [])
                     + (if DumpIsSent(stage) then [] else dumped + later)
    ensures sent == if stage.OutputSet? then now + [Name(name)] + dumped + later
                    else if DumpIsSent(stage) then [Name(name)] + dumped + now
                    else [Name(name)] + now + dumped + later
  {
  }

  lemma OneLineAccepted(e: LogEntry, barrier: int)
    ensures Recs(Accepted([e], barrier)) == Once(e.level <= barrier, e)
  {
    assert [e][..0] == [];
  }

  lemma OneMoreInTheDump(dump: seq<LogEntry>, e: LogEntry)
    ensures Recs(Accepted(dump + [e], DUMP_BARRIER))
         == Recs(Accepted(dump, DUMP_BARRIER)) + Once(e.level <= DUMP_BARRIER, e)
  {
    AcceptedOfConcat(dump, [e], DUMP_BARRIER);
    OneLineAccepted(e, DUMP_BARRIER);
    var a, b := Accepted(dump, DUMP_BARRIER), Accepted([e], DUMP_BARRIER);
    assert Recs(a + b) == Recs(a) + Recs(b);
  }

  /** The line itself, when it is let through at once, and the longer dump. */
  lemma PrintDuring(stage: Stage, dump: seq<LogEntry>, name: Utf8, firstLevel: u8, e: LogEntry)
    ensures var d := During(stage, dump, name, firstLevel);
            var c := Print(d, e);
            && c.stage == stage && c.hasOutput == d.hasOutput && c.barrier == d.barrier
            && c.sent == d.sent + Once(AtOnce(stage, e.level, firstLevel), e)
            && (stage.Online? || c.buffers.dump == if |dump| < MAX_LOG_DUMP_SIZE then dump + [e] else dump)
  {
    OneLineAccepted(e, During(stage, dump, name, firstLevel).barrier);
    hide Accepted, Recs;
  }

  lemma DuringShape(stage: Stage, dump: seq<LogEntry>, name: Utf8, firstLevel: u8)
    ensures var d := During(stage, dump, name, firstLevel);
            && d.sent == SentSoFar(stage, name, Recs(Accepted(dump, DUMP_BARRIER)))
            && d.hasOutput == !stage.Offline? && (stage.Raised? ==> d.barrier == DUMP_BARRIER)
  {
    hide Accepted, Recs;
  }

  /** What the rest of `Connect` adds to what was sent. */
  lemma FinishFrom(c: Client, name: Utf8, firstLevel: u8)
    requires c.hasOutput || c.stage.Offline?
    requires c.stage.Raised? ==> c.barrier == DUMP_BARRIER
    ensures Connect(c, name, firstLevel).sent
         == c.sent + (if c.stage.Offline? || c.stage.OutputSet? then [Name(name)] else [])
            + (if DumpIsSent(c.stage) then []
               else Recs(Accepted(c.buffers.dump, DUMP_BARRIER)))
    decreases StepsLeft(c.stage)
  {
    if !c.stage.Online? {
      FinishFrom(ConnectStep(c, name, firstLevel), name, firstLevel);
    }
  }

  // ---- Any prints, interleaved with Connect in any way ----

  /** One turn of the client: some thread prints a line, or `Connect` takes its next step. */
  datatype Turn = Prints(entry: LogEntry) | Proceeds

  function TakeTurn(c: Client, turn: Turn, name: Utf8, firstLevel: u8): Client {
    match turn
    case Prints(e) => Print(c, e)
    case Proceeds => if c.stage.Online? then c else ConnectStep(c, name, firstLevel)
  }

  function Interleaved(turns: seq<Turn>, name: Utf8, firstLevel: u8): Client {
    if turns == [] then NewClient()
    else TakeTurn(Interleaved(turns[..|turns| - 1], name, firstLevel), turns[|turns| - 1], name, firstLevel)
  }

  function NextStage(stage: Stage): Stage {
    match stage
    case Offline => OutputSet case OutputSet => NameSent case NameSent => LevelKnown case LevelKnown => Raised
    case Raised => DumpSent case DumpSent => Restored case Restored => Online case Online => Online
  }

  /** The stage is a matter of how often `Connect` has proceeded. */
  function StageAfter(turns: seq<Turn>): Stage {
    if turns == [] then Offline
    else
      var stage := StageAfter(turns[..|turns| - 1]);
      if turns[|turns| - 1].Proceeds? then NextStage(stage) else stage
  }

  function Printed(turns: seq<Turn>): seq<LogEntry> {
    if turns == [] then []
    else
      Printed(turns[..|turns| - 1])
      + (if turns[|turns| - 1].Prints? then [turns[|turns| - 1].entry] else [])
  }

  /** What a turn puts on the stream, told from the stage and from the lines printed before. */
  function Adds(turn: Turn, stage: Stage, printed: seq<LogEntry>, name: Utf8, firstLevel: u8): seq<Item> {
    match turn
    case Prints(e) => Once(AtOnce(stage, e.level, firstLevel), e)
    case Proceeds =>
      if stage.OutputSet? then [Name(name)]
      else if stage.Raised? then Recs(Accepted(Take(printed, MAX_LOG_DUMP_SIZE), DUMP_BARRIER))
      else []
  }

  function OnTheStream(turns: seq<Turn>, name: Utf8, firstLevel: u8): seq<Item> {
    if turns == [] then []
    else
      var init := turns[..|turns| - 1];
      OnTheStream(init, name, firstLevel)
      + Adds(turns[|turns| - 1], StageAfter(init), Printed(init), name, firstLevel)
  }

  lemma PrintAtStage(c: Client, stage: Stage, dump: seq<LogEntry>, name: Utf8, firstLevel: u8, e: LogEntry)
    requires c == During(stage, dump, name, firstLevel).(sent := c.sent) && |dump| <= MAX_LOG_DUMP_SIZE
    ensures Print(c, e)
         == During(stage, if |dump| < MAX_LOG_DUMP_SIZE then dump + [e] else dump, name, firstLevel)
              .(sent := c.sent + Once(AtOnce(stage, e.level, firstLevel), e))
  {
    OneLineAccepted(e, c.barrier);
  }

  lemma ProceedAtStage(c: Client, stage: Stage, dump: seq<LogEntry>, name: Utf8, firstLevel: u8)
    requires c == During(stage, dump, name, firstLevel).(sent := c.sent) && !stage.Online?
    ensures ConnectStep(c, name, firstLevel)
         == During(NextStage(stage), dump, name, firstLevel)
              .(sent := c.sent + if stage.OutputSet? then [Name(name)]
                                 else if stage.Raised? then Recs(Accepted(dump, DUMP_BARRIER))
                                 else [])
  {
    assert c.sent + [] == c.sent;
  }

  lemma TurnAtStage(c: Client, turn: Turn, stage: Stage, printed: seq<LogEntry>, name: Utf8, firstLevel: u8)
    requires c == During(stage, Take(printed, MAX_LOG_DUMP_SIZE), name, firstLevel).(sent := c.sent)
    ensures var now := if turn.Prints? then printed + [turn.entry] else printed;
            var reached := if turn.Proceeds? then NextStage(stage) else stage;
            TakeTurn(c, turn, name, firstLevel)
            == During(reached, Take(now, MAX_LOG_DUMP_SIZE), name, firstLevel)
                 .(sent := c.sent + Adds(turn, stage, printed, name, firstLevel))
  {
    var dump := Take(printed, MAX_LOG_DUMP_SIZE);
    StageOfDuring(stage, dump, name, firstLevel);
    match turn
    case Prints(e) =>
      PrintAtStage(c, stage, dump, name, firstLevel, e);
      assert Take(printed + [e], MAX_LOG_DUMP_SIZE) == if |dump| < MAX_LOG_DUMP_SIZE then dump + [e] else dump;
      hide Print, During, AtOnce;
    case Proceeds =>
      hide ConnectStep, During, Accepted;
      if stage.Online? {
        assert c.sent + [] == c.sent;
      } else {
        ProceedAtStage(c, stage, dump, name, firstLevel);
      }
  }

  lemma {:induction false} InterleavedIsDuring(turns: seq<Turn>, name: Utf8, firstLevel: u8)
    ensures Interleaved(turns, name, firstLevel)
         == During(StageAfter(turns), Take(Printed(turns), MAX_LOG_DUMP_SIZE), name, firstLevel)
              .(sent := OnTheStream(turns, name, firstLevel))
  {
    if turns == [] {
      DuringIsReached(Offline, [], name, firstLevel);
      DuringStart(name, firstLevel);
    } else {
      hide TakeTurn, During, Adds, Take;
      var init, last := turns[..|turns| - 1], turns[|turns| - 1];
      var before := Interleaved(init, name, firstLevel);
      InterleavedIsDuring(init, name, firstLevel);
      TurnAtStage(before, last, StageAfter(init), Printed(init), name, firstLevel);
      assert Printed(init) + [] == Printed(init);
    }
  }

  lemma StageOfDuring(stage: Stage, dump: seq<LogEntry>, name: Utf8, firstLevel: u8)
    ensures During(stage, dump, name, firstLevel).stage == stage
  {
  }

  lemma DuringStart(name: Utf8, firstLevel: u8)
    ensures During(Offline, [], name, firstLevel).sent == []
  {
  }

  /** However prints and the steps of `Connect` interleave, the stream holds each line as often and in the
      place that the stage of its print says, the name between the second step and the third, and the dump
      - the first 1024 lines printed, as far as they are of level at most 9 - between the fifth and the
      sixth. */
  lemma AnyInterleaving(turns: seq<Turn>, name: Utf8, firstLevel: u8)
    ensures Interleaved(turns, name, firstLevel).sent == OnTheStream(turns, name, firstLevel)
  {
    InterleavedIsDuring(turns, name, firstLevel);
  }

  // ---- How often a line is sent ----

  function Count(condition: bool): nat {
    if condition then 1 else 0
  }

  /** The line printed after these turns goes into the dump, and out with it. */
  predicate Dumped(before: seq<Turn>, level: int) {
    WithDump(StageAfter(before), level) && |Printed(before)| < MAX_LOG_DUMP_SIZE
  }

  function TimesAtOnce(turns: seq<Turn>, firstLevel: u8, e: LogEntry): nat {
    if turns == [] then 0
    else
      var init := turns[..|turns| - 1];
      TimesAtOnce(init, firstLevel, e)
      + Count(turns[|turns| - 1] == Prints(e) && AtOnce(StageAfter(init), e.level, firstLevel))
  }

  function TimesDumped(turns: seq<Turn>, e: LogEntry): nat {
    if turns == [] then 0
    else
      var init := turns[..|turns| - 1];
      TimesDumped(init, e) + Count(turns[|turns| - 1] == Prints(e) && Dumped(init, e.level))
  }

  lemma StagesOnlyGrow(turns: seq<Turn>)
    requires turns != [] && DumpIsSent(StageAfter(turns[..|turns| - 1]))
    ensures DumpIsSent(StageAfter(turns))
  {
  }

  lemma CountInConcat(a: seq<Item>, b: seq<Item>, e: LogEntry)
    ensures multiset(a + b)[Rec(e)] == multiset(a)[Rec(e)] + multiset(b)[Rec(e)]
  {
  }

  lemma CountOnce(condition: bool, other: LogEntry, e: LogEntry)
    ensures multiset(Once(condition, other))[Rec(e)] == Count(condition && other == e)
  {
  }

  lemma {:induction false} DumpHoldsTheDumped(turns: seq<Turn>, e: LogEntry)
    requires !DumpIsSent(StageAfter(turns))
    ensures multiset(Recs(Accepted(Take(Printed(turns), MAX_LOG_DUMP_SIZE), DUMP_BARRIER)))[Rec(e)]
         == TimesDumped(turns, e)
  {
    if turns != [] {
      hide StageAfter, Accepted;
      var init := turns[..|turns| - 1];
      if DumpIsSent(StageAfter(init)) {
        StagesOnlyGrow(turns);
        assert false;
      }
      DumpHoldsTheDumped(init, e);
      if turns[|turns| - 1].Prints? && |Printed(init)| < MAX_LOG_DUMP_SIZE {
        var other := turns[|turns| - 1].entry;
        OneMoreInTheDump(Printed(init), other);
        var dumped := Recs(Accepted(Printed(init), DUMP_BARRIER));
        CountInConcat(dumped, Once(other.level <= DUMP_BARRIER, other), e);
        CountOnce(other.level <= DUMP_BARRIER, other, e);
      } else {
        assert Take(Printed(turns), MAX_LOG_DUMP_SIZE) == Take(Printed(init), MAX_LOG_DUMP_SIZE);
      }
    }
  }

  lemma AddsHolds(init: seq<Turn>, last: Turn, name: Utf8, firstLevel: u8, e: LogEntry)
    ensures var stage := StageAfter(init);
            multiset(Adds(last, stage, Printed(init), name, firstLevel))[Rec(e)]
            == Count(last == Prints(e) && AtOnce(stage, e.level, firstLevel))
               + (if last.Proceeds? && stage.Raised? then TimesDumped(init, e) else 0)
  {
    hide AtOnce, StageAfter, Accepted, TimesDumped;
    match last
    case Prints(other) => CountOnce(AtOnce(StageAfter(init), other.level, firstLevel), other, e);
    case Proceeds =>
      if StageAfter(init).Raised? {
        DumpHoldsTheDumped(init, e);
      }
  }

  function TimesOut(turns: seq<Turn>, e: LogEntry): nat {
    if DumpIsSent(StageAfter(turns)) then TimesDumped(turns, e) else 0
  }

  /** The dump goes out in one step, and nothing goes into it afterwards. */
  lemma DumpGoesOutOnce(turns: seq<Turn>, e: LogEntry)
    requires turns != []
    ensures var init, last := turns[..|turns| - 1], turns[|turns| - 1];
            TimesOut(turns, e)
            == TimesOut(init, e) + (if last.Proceeds? && StageAfter(init).Raised? then TimesDumped(init, e) else 0)
  {
  }

  lemma {:induction false} StreamHolds(turns: seq<Turn>, name: Utf8, firstLevel: u8, e: LogEntry)
    ensures multiset(OnTheStream(turns, name, firstLevel))[Rec(e)]
         == TimesAtOnce(turns, firstLevel, e) + TimesOut(turns, e)
  {
    if turns != [] {
      hide AtOnce, Adds, TimesOut, TimesDumped, StageAfter, Printed;
      var init, last := turns[..|turns| - 1], turns[|turns| - 1];
      StreamHolds(init, name, firstLevel, e);
      DumpGoesOutOnce(turns, e);
      AddsHolds(init, last, name, firstLevel, e);
      CountInConcat(OnTheStream(init, name, firstLevel),
                    Adds(last, StageAfter(init), Printed(init), name, firstLevel), e);
    }
  }

  lemma {:induction false} NothingElseCounts(a: seq<Turn>, b: seq<Turn>, firstLevel: u8, e: LogEntry)
    requires e !in Printed(b)
    ensures TimesAtOnce(a + b, firstLevel, e) == TimesAtOnce(a, firstLevel, e)
    ensures TimesDumped(a + b, e) == TimesDumped(a, e)
    decreases |b|
  {
    if b == [] {
      assert a + b == a;
    } else {
      assert (a + b)[..|a + b| - 1] == a + b[..|b| - 1];
      NothingElseCounts(a, b[..|b| - 1], firstLevel, e);
    }
  }

  /** In any interleaving that `Connect` comes to the end of, a line that is printed once is sent as often
      as the two ways say that are open at its stage: exactly once if and only if it is either let through
      at once or goes with the dump, and not both. */
  lemma SentExactlyOnceIff(a: seq<Turn>, e: LogEntry, b: seq<Turn>, name: Utf8, firstLevel: u8)
    requires e !in Printed(a) && e !in Printed(b)
    requires StageAfter(a + [Prints(e)] + b).Online?
    ensures var times := multiset(Interleaved(a + [Prints(e)] + b, name, firstLevel).sent)[Rec(e)];
            var now, later := AtOnce(StageAfter(a), e.level, firstLevel), Dumped(a, e.level);
            && times == Count(now) + Count(later)
            && (times == 1 <==> now != later)
  {
    var here := a + [Prints(e)];
    AnyInterleaving(here + b, name, firstLevel);
    StreamHolds(here + b, name, firstLevel, e);
    NothingElseCounts(here, b, firstLevel, e);
    assert here[..|here| - 1] == a;
    assert [] + a == a;
    NothingElseCounts([], a, firstLevel, e);
  }
}
