/** From the server's settings to the line that is, or is not, in the file: the three filters of a
    log line - the client's barrier, the mask of the wire, the account's level - where they agree, and the
    whole way of a line that passes them. */
module EndToEnd {
  import opened Wrappers
  import opened LogRecords
  import Sessions
  import C = ClientLogModel
  import opened AccountModel
  import opened LogFiles
  import AccountRuns
  import opened LogServerModel
  import LogServerRuns
  import opened LogServerFiles

  /** A line passes the client when it is within the barrier. */
  predicate Sends(barrier: u8, level: int) {
    level <= barrier
  }

  /** Of the lines of level 0 to 10 the file would keep, the client filters out exactly those of level 10
      that are printed, under a level of at least 10, while the dump is let through. And of the lines the
      client sends, the file does not keep exactly those above its level that are printed while the dump
      is let through, and at level zero all of them. No line changes its level on the way. */
  predicate DifferOnlyInTheDump(s: Sessions.Session, a: Account, entry: LogEntry) {
    var kept := PrintsLine(a, C.Seen(entry).level);
    var sent := Sends(s.barrier, entry.level);
    var dumping := Sessions.SendsDump(s.client);
    && C.Seen(entry).level == entry.level
    && (kept && !sent <==> dumping && a.level >= 10 && entry.level == 10)
    && (sent && !kept <==>
          if dumping then entry.level < 10 && (a.level == 0 || entry.level > a.level)
          else a.level == 0 && entry.level == 0)
  }

  /** When the level channel is at rest and the account has the connection's level, the filters
      differ only in that. */
  lemma FiltersAgree(first: u8, moves: seq<Sessions.Move>, a: Account, entry: LogEntry)
    requires Sessions.LegalMoves(Sessions.InitialSession(first), moves)
    requires var s := Sessions.Play(Sessions.InitialSession(first), moves);
             Sessions.AtRest(s) && a.level == s.sender.connectionLevel
    requires AccountRuns.Consistent(a)
    requires 0 <= entry.level <= 10
    ensures DifferOnlyInTheDump(Sessions.Play(Sessions.InitialSession(first), moves), a, entry)
  {
    Sessions.BarrierAtRest(first, moves);
  }

  /** The levels that a server's run gives a connection are those that come in over a session's moves. */
  ghost predicate GivesLevels(start: Server, steps: seq<Step>, id: ConnId, first: u8, moves: seq<Sessions.Move>)
    requires Legal(start, steps)
  {
    LogServerRuns.LevelsGiven(start, steps, id) == [first] + Sessions.LevelChangesIn(moves)
  }

  /** And they do over every run of the server and of the session of any authenticated connection, however
      each interleaves, as soon as the level channel is at rest - unless the last level the connection was
      given is not the server's, which takes a change of settings between the connection's own two
      sections. */
  lemma FiltersAgreeOnTheServer(logDir: string, logLevel: u8, headerLineCount: nat, steps: seq<Step>, id: ConnId,
                                first: u8, moves: seq<Sessions.Move>, entry: LogEntry)
    requires Legal(Started(logDir, logLevel, headerLineCount), steps)
    requires GivesLevels(Started(logDir, logLevel, headerLineCount), steps, id, first, moves)
    requires Sessions.LegalMoves(Sessions.InitialSession(first), moves)
    requires Sessions.AtRest(Sessions.Play(Sessions.InitialSession(first), moves))
    requires var start := Started(logDir, logLevel, headerLineCount);
             var t := Reach(start, steps);
             && id in t.connections && t.connections[id].phase.Authenticated?
             && (!LogServerRuns.MissedTheLast(start, steps, id, false)
                 || LogServerRuns.LastGiven(start, steps, id, 0) == t.logLevel)
    requires 0 <= entry.level <= 10
    ensures var t := Reach(Started(logDir, logLevel, headerLineCount), steps);
            var handle := t.connections[id].phase.handle;
            && handle in t.accounts && t.accounts[handle].fileName == t.connections[id].phase.fileName
            && DifferOnlyInTheDump(Sessions.Play(Sessions.InitialSession(first), moves),
                                   t.accounts[handle].account, entry)
  {
    var start := Started(logDir, logLevel, headerLineCount);
    var t := Reach(start, steps);
    LogServerRuns.RunKeepsRouting(start, steps);
    LogServerRuns.RunKeepsLists(start, steps);
    LogServerRuns.ListedConnectionsInSync(logDir, logLevel, headerLineCount, steps, id);
    LogServerRuns.LastGivenIsTheLast(start, steps, id, 0);
    Sessions.LevelOfLastChange(Sessions.InitialSession(first), moves);
    assert LogServerRuns.Listed(t, id);
    var account := t.accounts[t.connections[id].phase.handle].account;
    assert LogServerRuns.Follows(account, t.logDir, t.logLevel);
    FiltersAgree(first, moves, account, entry);
  }

  /** The line that is lost: from level 10 on there is a run, without any change of level, to a place
      where the channel is at rest and the account keeps lines of level 10, but one that is printed there
      is neither sent at once nor with the dump - whatever the dump holds. */
  lemma LineIsLostWhileDumping(level: u8, a: Account, entry: LogEntry, dump: seq<LogEntry>, name: Utf8)
    requires level >= 10 && a.level == level && AccountRuns.Consistent(a) && entry.level == 10
    ensures exists moves: seq<Sessions.Move> ::
              && Sessions.LegalMoves(Sessions.InitialSession(level), moves)
              && var s := Sessions.Play(Sessions.InitialSession(level), moves);
                 var c := C.During(Sessions.StageOf(s.client), dump, name, 10);
                 && Sessions.AtRest(s) && s.sender.connectionLevel == level && Sessions.SameConnect(s, c)
                 && PrintsLine(a, C.Seen(entry).level)
                 && C.Connect(C.Print(c, entry), name, 10).sent
                    == C.Connect(c, name, 10).sent
  {
    NeitherAtOnceNorWithTheDump(dump, name, entry);
    hide C.Connect, C.Print, Sessions.Play, Sessions.LegalMoves, Sessions.InitialSession;
    hide Sessions.AtRest, AccountRuns.Consistent;
    Sessions.DumpIsSentAtRest(level);
    var moves :| && Sessions.LegalMoves(Sessions.InitialSession(level), moves)
                 && var s := Sessions.Play(Sessions.InitialSession(level), moves);
                    s.client.BarrierRaised? && Sessions.AtRest(s) && s.sender.connectionLevel == level;
    Sessions.BarrierAtRest(level, moves);
    Sessions.SavedAtRest(level, moves);
    KeptAtLevelTen(a, entry);
  }

  lemma KeptAtLevelTen(a: Account, entry: LogEntry)
    requires AccountRuns.Consistent(a) && a.level >= 10 && entry.level == 10
    ensures PrintsLine(a, C.Seen(entry).level)
  {
  }

  lemma NeitherAtOnceNorWithTheDump(dump: seq<LogEntry>, name: Utf8, entry: LogEntry)
    requires entry.level == 10
    ensures var c := C.During(C.Raised, dump, name, 10);
            C.Connect(C.Print(c, entry), name, 10).sent
            == C.Connect(c, name, 10).sent
  {
    var c := C.During(C.Raised, dump, name, 10);
    var printed := C.Print(c, entry);
    NothingIsSent(c, entry);
    C.FinishFrom(printed, name, 10);
    C.FinishFrom(c, name, 10);
    OneMoreIsNotAccepted(c.buffers.dump, printed.buffers.dump, entry);
  }

  lemma NothingIsSent(c: C.Client, entry: LogEntry)
    requires entry.level > c.barrier
    ensures C.Print(c, entry).sent == c.sent
  {
    C.OneLineAccepted(entry, c.barrier);
  }

  lemma OneMoreIsNotAccepted(dump: seq<LogEntry>, longer: seq<LogEntry>, entry: LogEntry)
    requires longer == dump || longer == dump + [entry]
    requires entry.level > C.DUMP_BARRIER
    ensures Accepted(longer, C.DUMP_BARRIER) == Accepted(dump, C.DUMP_BARRIER)
  {
    AcceptedOfConcat(dump, [entry], C.DUMP_BARRIER);
    assert [entry][..0] == [];
  }

  // ---- From the print at the client to the file ----

  /** The server's thread names the log by the name it reads off the stream, and hands on the lines that
      it reads, as far as it has come. */
  ghost predicate Serves(steps: seq<Step>, id: ConnId, wire: seq<byte>, decode: Utf8 -> string) {
    match C.ReadSession(wire)
    case Short => LinesFrom(steps, id) == []
    case Got((name, lines), _) => Names(steps, id, decode(name)) && LinesFrom(steps, id) <= lines
  }

  /** Over any run of the server in which a connection is served what its client sent, the name and then
      these lines, each line that the server has come to is delivered, as it was sent up to the mask, to
      the log of the client's name. */
  lemma SentLineIsDelivered(name: Utf8, sent: seq<LogEntry>, decode: Utf8 -> string, files: Files, logDir: string,
                            logLevel: u8, headerLineCount: nat, steps: seq<Step>, id: ConnId, j: nat)
    requires Legal(Started(logDir, logLevel, headerLineCount), steps)
    requires Serves(steps, id, C.Bytes([C.Name(name)] + C.Recs(sent)), decode)
    requires j < |LinesFrom(steps, id)|
    ensures j < |sent|
            && Delivered(files, Started(logDir, logLevel, headerLineCount), steps, id, j,
                         C.Seen(sent[j]), decode(name))
  {
    hide C.Seen, C.Bytes, C.ReadSession, LinesFrom, Names, Delivered, Legal;
    C.SessionReadsBack(name, sent);
    LineIsDelivered(files, logDir, logLevel, headerLineCount, steps, id, j, decode(name));
    assert LinesFrom(steps, id)[j] == C.SeenAll(sent)[j];
  }

  /** All that a client puts on the stream that prints these lines, connects, and then lives through
      these events. */
  function Wire(early: seq<LogEntry>, name: Utf8, firstLevel: u8, events: seq<C.Event>): seq<byte> {
    C.Bytes(C.Live(C.Connect(C.PrintAll(C.NewClient(), early), name, firstLevel), events).sent)
  }

  function FromDump(early: seq<LogEntry>): seq<LogEntry> {
    Accepted(Take(early, MAX_LOG_DUMP_SIZE), C.DUMP_BARRIER)
  }

  function FromLife(events: seq<C.Event>, firstLevel: u8): seq<LogEntry> {
    C.Passed(events, C.Mask(firstLevel)).0
  }

  /** In particular a line that is printed while the client lives, within the barrier of the moment: from
      the print to its generation of the log with the client's name. */
  lemma LiveLineIsDelivered(early: seq<LogEntry>, name: Utf8, firstLevel: u8, before: seq<C.Event>,
                            entry: LogEntry, after: seq<C.Event>, decode: Utf8 -> string, files: Files,
                            logDir: string, logLevel: u8, headerLineCount: nat, steps: seq<Step>, id: ConnId)
    requires entry.level <= C.Passed(before, C.Mask(firstLevel)).1
    requires Legal(Started(logDir, logLevel, headerLineCount), steps)
    requires Serves(steps, id, Wire(early, name, firstLevel, before + [C.Event.Printed(entry)] + after), decode)
    requires |FromDump(early)| + |FromLife(before, firstLevel)| < |LinesFrom(steps, id)|
    ensures Delivered(files, Started(logDir, logLevel, headerLineCount), steps, id,
                      |FromDump(early)| + |FromLife(before, firstLevel)|, C.Seen(entry), decode(name))
  {
    hide C.Seen, C.Live, C.Connect, C.Bytes, Delivered, Legal, Serves, LinesFrom;
    var events := before + [C.Event.Printed(entry)] + after;
    var j := |FromDump(early)| + |FromLife(before, firstLevel)|;
    C.PassedInItsPlace(before, entry, after, C.Mask(firstLevel));
    C.WhatIsSent(early, name, firstLevel, events);
    SentLineIsDelivered(name, FromDump(early) + FromLife(events, firstLevel), decode, files, logDir, logLevel,
                        headerLineCount, steps, id, j);
  }

  /** And one that was printed before the client connected, among the first 1024 and of level at most 9. */
  lemma EarlyLineIsDelivered(early: seq<LogEntry>, i: nat, name: Utf8, firstLevel: u8,
                             events: seq<C.Event>, decode: Utf8 -> string, files: Files,
                             logDir: string, logLevel: u8, headerLineCount: nat, steps: seq<Step>, id: ConnId)
    requires i < |early| && i < MAX_LOG_DUMP_SIZE && early[i].level <= C.DUMP_BARRIER
    requires Legal(Started(logDir, logLevel, headerLineCount), steps)
    requires Serves(steps, id, Wire(early, name, firstLevel, events), decode)
    requires |FromDump(early[..i])| < |LinesFrom(steps, id)|
    ensures Delivered(files, Started(logDir, logLevel, headerLineCount), steps, id, |FromDump(early[..i])|,
                      C.Seen(early[i]), decode(name))
  {
    hide C.Seen, C.Live, C.Connect, C.Bytes, Delivered, Legal, Serves, LinesFrom;
    AcceptedInItsPlace(Take(early, MAX_LOG_DUMP_SIZE), i, C.DUMP_BARRIER);
    assert Take(early, MAX_LOG_DUMP_SIZE)[..i] == Take(early[..i], MAX_LOG_DUMP_SIZE);
    C.WhatIsSent(early, name, firstLevel, events);
    SentLineIsDelivered(name, FromDump(early) + FromLife(events, firstLevel), decode, files, logDir, logLevel,
                        headerLineCount, steps, id, |FromDump(early[..i])|);
  }

  lemma AcceptedInItsPlace(lines: seq<LogEntry>, i: nat, barrier: int)
    requires i < |lines| && lines[i].level <= barrier
    ensures var j := |Accepted(lines[..i], barrier)|;
            j < |Accepted(lines, barrier)| && Accepted(lines, barrier)[j] == lines[i]
  {
    assert lines == lines[..i + 1] + lines[i + 1..];
    AcceptedOfConcat(lines[..i + 1], lines[i + 1..], barrier);
    assert lines[..i + 1][..i] == lines[..i];
  }
}
