/** The two ends of a connecting log session, on the accepting path: the client's `connect`, the
    server's connection thread and its level sender, over a service channel and two pipes that the
    server makes on the way. Every channel is a FIFO queue; a read of an empty queue waits. */
module Sessions {
  import opened Wrappers
  import opened LevelSenders
  import opened ClientLogModel

  datatype Message = ProcessId | Handle(pipe: nat) | Acknowledgement | FileName

  /** Program counters of the client's `connect` and of the server's thread. The client is connected
      once the level listening thread runs: before, it sends its dump, with the barrier raised. */
  datatype Client =
    | SendId1 | ReadHandle1 | Ack1 | SendId2 | ReadHandle2 | Ack2 | SendName | ReadLevel
    | LevelRead | BarrierRaised | DumpWritten | BarrierRestored | Connected
  datatype Server =
    | ReadId1 | MakePipe1 | ReadAck1 | ReadId2 | MakePipe2 | ReadAck2 | AssignChannels | ReadName
    | HandOver | Announcing | Dispatching

  /** `pipes` holds what each pipe carries to the server; towards the client only the level pipe is
      used, and carries what the sender has written and the client not yet read. `confused` records
      a read that met something else than it expects. */
  datatype Session = Session(
    client: Client, server: Server, requests: seq<Message>, replies: seq<Message>, pipes: seq<seq<Message>>,
    clientLog: nat, clientLevel: nat, serverPipe1: nat, serverPipe2: nat, serverLog: nat, serverLevel: nat,
    sender: State, levelsRead: nat, barrier: u8, saved: u8, confused: bool)

  function InitialSession(level: u8): Session {
    Session(SendId1, ReadId1, [], [], [], 0, 0, 0, 0, 0, 0, Initial(level), 0, 0, 0, false)
  }

  datatype Move =
    | ClientMoves
    | ServerMoves
    | SenderMoves(step: Step)      // the sender thread: Wake, Snapshot or Send
    | LevelChanges(newLevel: u8)   // the log server, at any time

  function Put(s: Session, pipe: nat, m: Message): Session {
    if pipe < |s.pipes| then s.(pipes := s.pipes[pipe := s.pipes[pipe] + [m]]) else s.(confused := true)
  }

  predicate HasMail(s: Session, pipe: nat) {
    pipe < |s.pipes| && s.pipes[pipe] != []
  }

  function Receive(s: Session, pipe: nat, expected: Message): Session
    requires HasMail(s, pipe)
  {
    s.(pipes := s.pipes[pipe := s.pipes[pipe][1..]], confused := s.confused || s.pipes[pipe][0] != expected)
  }

  predicate ClientEnabled(s: Session) {
    match s.client
    case ReadHandle1 => s.replies != []
    case ReadHandle2 => s.replies != []
    case ReadLevel => s.levelsRead < |s.sender.written|
    case Connected => s.levelsRead < |s.sender.written|   // the level listening thread
    case _ => true
  }

  function ClientNext(s: Session): Session
    requires ClientEnabled(s)
  {
    match s.client
    case SendId1 => s.(requests := s.requests + [ProcessId], client := ReadHandle1)
    case ReadHandle1 =>
      if s.replies[0].Handle? then s.(replies := s.replies[1..], clientLog := s.replies[0].pipe, client := Ack1)
      else s.(confused := true)
    case Ack1 => Put(s, s.clientLog, Acknowledgement).(client := SendId2)
    case SendId2 => s.(requests := s.requests + [ProcessId], client := ReadHandle2)
    case ReadHandle2 =>
      if s.replies[0].Handle? then s.(replies := s.replies[1..], clientLevel := s.replies[0].pipe, client := Ack2)
      else s.(confused := true)
    case Ack2 => Put(s, s.clientLevel, Acknowledgement).(client := SendName)
    case SendName => Put(s, s.clientLog, FileName).(client := ReadLevel)
    case ReadLevel => ReadOneLevel(s).(client := LevelRead)
    case LevelRead => s.(saved := s.barrier, barrier := Mask(DUMP_BARRIER), client := BarrierRaised)
    case BarrierRaised => s.(client := DumpWritten)   // the records of the dump are not part of connecting
    case DumpWritten => s.(barrier := Mask(s.saved), client := BarrierRestored)
    case BarrierRestored => s.(client := Connected)
    case Connected => ReadOneLevel(s)
  }

  function ReadOneLevel(s: Session): Session
    requires s.levelsRead < |s.sender.written|
  {
    s.(barrier := Mask(s.sender.written[s.levelsRead]), levelsRead := s.levelsRead + 1)
  }

  predicate ServerEnabled(s: Session) {
    match s.server
    case ReadId1 => s.requests != []
    case ReadAck1 => HasMail(s, s.serverPipe1)
    case ReadId2 => s.requests != []
    case ReadAck2 => HasMail(s, s.serverPipe2)
    case ReadName => HasMail(s, s.serverLog)
    case HandOver => Enabled(s.sender, StartSender)
    case Announcing => Enabled(s.sender, AnnounceFirst)
    case Dispatching => false   // waits for log records, which are not part of connecting
    case _ => true
  }

  function TakeRequest(s: Session): Session
    requires s.requests != []
  {
    s.(requests := s.requests[1..], confused := s.confused || !s.requests[0].ProcessId?)
  }

  function ServerNext(s: Session): Session
    requires ServerEnabled(s)
  {
    match s.server
    case ReadId1 => TakeRequest(s).(server := MakePipe1)
    case MakePipe1 =>
      s.(pipes := s.pipes + [[]], serverPipe1 := |s.pipes|, replies := s.replies + [Handle(|s.pipes|)],
         server := ReadAck1)
    case ReadAck1 => Receive(s, s.serverPipe1, Acknowledgement).(server := ReadId2)
    case ReadId2 => TakeRequest(s).(server := MakePipe2)
    case MakePipe2 =>
      s.(pipes := s.pipes + [[]], serverPipe2 := |s.pipes|, replies := s.replies + [Handle(|s.pipes|)],
         server := ReadAck2)
    case ReadAck2 => Receive(s, s.serverPipe2, Acknowledgement).(server := AssignChannels)
    case AssignChannels => s.(serverLog := s.serverPipe1, serverLevel := s.serverPipe2, server := ReadName)
    case ReadName => Receive(s, s.serverLog, FileName).(server := HandOver)
    case HandOver => s.(sender := Next(s.sender, StartSender), server := Announcing)
    case Announcing => s.(sender := Next(s.sender, AnnounceFirst), server := Dispatching)
  }

  predicate Possible(s: Session, m: Move) {
    match m
    case ClientMoves => ClientEnabled(s)
    case ServerMoves => ServerEnabled(s)
    case SenderMoves(step) => (step.Wake? || step.Snapshot? || step.Send?) && Enabled(s.sender, step)
    case LevelChanges(_) => true
  }

  function After(s: Session, m: Move): Session
    requires Possible(s, m)
  {
    match m
    case ClientMoves => ClientNext(s)
    case ServerMoves => ServerNext(s)
    case SenderMoves(step) => s.(sender := Next(s.sender, step))
    case LevelChanges(newLevel) => s.(sender := Next(s.sender, ChangeLevel(newLevel)))
  }

  predicate LegalMoves(s: Session, moves: seq<Move>)
    decreases |moves|
  {
    moves == [] || (Possible(s, moves[0]) && LegalMoves(After(s, moves[0]), moves[1..]))
  }

  function Play(s: Session, moves: seq<Move>): Session
    requires LegalMoves(s, moves)
    decreases |moves|
  {
    if moves == [] then s else Play(After(s, moves[0]), moves[1..])
  }

  function LevelChangesIn(moves: seq<Move>): seq<u8> {
    if moves == [] then []
    else (if moves[0].LevelChanges? then [moves[0].newLevel] else []) + LevelChangesIn(moves[1..])
  }

  /** The level of the connection is the one of the last change, if there was any. */
  lemma {:induction false} LevelOfLastChange(s: Session, moves: seq<Move>)
    requires LegalMoves(s, moves)
    ensures var levels := [s.sender.connectionLevel] + LevelChangesIn(moves);
            Play(s, moves).sender.connectionLevel == levels[|levels| - 1]
    decreases |moves|
  {
    if moves != [] {
      MoveSetsLevel(s, moves[0]);
      hide After, Possible;
      LevelOfLastChange(After(s, moves[0]), moves[1..]);
    }
  }

  lemma MoveSetsLevel(s: Session, m: Move)
    requires Possible(s, m)
    ensures After(s, m).sender.connectionLevel == if m.LevelChanges? then m.newLevel else s.sender.connectionLevel
  {
  }

  // ---- How far the two ends can be apart ----

  function ClientAt(c: Client): nat {
    match c
    case SendId1 => 0 case ReadHandle1 => 1 case Ack1 => 2 case SendId2 => 3 case ReadHandle2 => 4
    case Ack2 => 5 case SendName => 6 case ReadLevel => 7 case LevelRead => 8 case BarrierRaised => 9
    case DumpWritten => 10 case BarrierRestored => 11 case Connected => 12
  }

  function ServerAt(p: Server): nat {
    match p
    case ReadId1 => 0 case MakePipe1 => 1 case ReadAck1 => 2 case ReadId2 => 3 case MakePipe2 => 4
    case ReadAck2 => 5 case AssignChannels => 6 case ReadName => 7 case HandOver => 8
    case Announcing => 9 case Dispatching => 10
  }

  function If(condition: bool, m: Message): seq<Message> {
    if condition then [m] else []
  }

  /** The queues are a function of the two program counters, and each end waits for the other. */
  predicate InStep(s: Session) {
    var c, p := ClientAt(s.client), ServerAt(s.server);
    && (p > 0 ==> c > 0) && (c > 1 ==> p > 1) && (p > 2 ==> c > 2)
    && (p > 3 ==> c > 3) && (c > 4 ==> p > 4) && (p > 5 ==> c > 5) && (p > 7 ==> c > 6)
    && (c > 7 ==> p >= 9)
    && !s.confused
    && s.requests == If(c > 0 && p == 0, ProcessId) + If(c > 3 && p <= 3, ProcessId)
    && s.replies == If(p > 1 && c <= 1, Handle(0)) + If(p > 4 && c <= 4, Handle(1))
    && |s.pipes| == (if p > 1 then 1 else 0) + (if p > 4 then 1 else 0)
    && (p > 1 ==> s.pipes[0] == If(c > 2 && p <= 2, Acknowledgement) + If(c > 6 && p <= 7, FileName))
    && (p > 4 ==> s.pipes[1] == If(c > 5 && p <= 5, Acknowledgement))
    && (p > 1 ==> s.serverPipe1 == 0) && (p > 4 ==> s.serverPipe2 == 1)
    && (p > 6 ==> s.serverLog == 0 && s.serverLevel == 1)
    && (c > 1 ==> s.clientLog == 0) && (c > 4 ==> s.clientLevel == 1)
    && (c <= 7 <==> s.levelsRead == 0)
  }

  /** Between the two settings of the barrier that let the dump through. */
  predicate SendsDump(c: Client) {
    c.BarrierRaised? || c.DumpWritten?
  }

  predicate LevelsInStep(s: Session) {
    Invariant(s.sender) && SenderInStep(s.server, s.sender, s.levelsRead) && BarrierInStep(s)
  }

  /** The sender is as far as the server's thread has brought it, and the client not further. */
  predicate SenderInStep(p: Server, sender: State, levelsRead: nat) {
    && (sender.phase.Connecting? <==> ServerAt(p) <= 8)
    && (sender.phase.Announced? <==> p.Dispatching?)
    && (p.Announcing? ==> sender.phase.Streaming?)
    && levelsRead <= |sender.written|
    && (sender.phase.Connecting? ==> sender.written == [] && !sender.worker.Writing?)
  }

  /** From the first level on, the client touches its barrier only. */
  lemma WhatTheClientTouches(s: Session)
    requires ClientEnabled(s) && ClientAt(s.client) >= ClientAt(ReadLevel)
    ensures var t := ClientNext(s);
            && t.(client := s.client, levelsRead := s.levelsRead, barrier := s.barrier, saved := s.saved) == s
            && ClientAt(t.client) > ClientAt(ReadLevel)
            && t.levelsRead == s.levelsRead + (if s.client.ReadLevel? || s.client.Connected? then 1 else 0)
  {
  }

  lemma ClientKeepsQueues(s: Session)
    requires InStep(s) && LevelsInStep(s) && ClientEnabled(s)
    ensures InStep(ClientNext(s))
  {
    if ClientAt(s.client) >= ClientAt(ReadLevel) {
      WhatTheClientTouches(s);
      hide ClientNext, Invariant;
    } else {
      hide InStep, LevelsInStep, ClientNext;
      if Puts(s.client) {
        ClientPuts(s);
      } else {
        ClientAsks(s);
      }
    }
  }

  predicate Puts(c: Client) {
    c.Ack1? || c.Ack2? || c.SendName?
  }

  lemma ClientPuts(s: Session)
    requires InStep(s) && Puts(s.client)
    ensures InStep(ClientNext(s))
  {
    hide ReadOneLevel;
  }

  lemma ClientAsks(s: Session)
    requires InStep(s) && ClientEnabled(s) && ClientAt(s.client) < ClientAt(ReadLevel) && !Puts(s.client)
    ensures InStep(ClientNext(s))
  {
    hide ReadOneLevel, Put;
  }

  lemma LevelsDuringHandshake(s: Session)
    requires ClientEnabled(s) && ClientAt(s.client) < ClientAt(ReadLevel)
    ensures var t := ClientNext(s);
            && (t.sender, t.server, t.levelsRead) == (s.sender, s.server, s.levelsRead)
  {
    hide ReadOneLevel;
  }

  lemma ClientKeepsLevels(s: Session)
    requires InStep(s) && LevelsInStep(s) && ClientEnabled(s)
    ensures LevelsInStep(ClientNext(s))
  {
    assert ClientAt(s.client) <= ClientAt(ReadLevel) <==> s.levelsRead == 0;
    hide InStep;
    if ClientAt(s.client) < ClientAt(ReadLevel) {
      LevelsDuringHandshake(s);
      hide ClientNext, Invariant, SenderInStep;
    } else {
      WhatTheClientTouches(s);
      BarrierKeepsInStep(s);
      hide ClientNext, Invariant, BarrierInStep;
    }
  }

  /** The barrier and the saved barrier are those of the last level that was read. */
  predicate BarrierInStep(s: Session) {
    0 < s.levelsRead <= |s.sender.written| ==>
      var level := Mask(s.sender.written[s.levelsRead - 1]);
      if SendsDump(s.client) then s.barrier == Mask(DUMP_BARRIER) && s.saved == level else s.barrier == level
  }

  lemma BarrierKeepsInStep(s: Session)
    requires BarrierInStep(s) && ClientEnabled(s) && ClientAt(s.client) >= ClientAt(ReadLevel)
    requires s.client.ReadLevel? || 0 < s.levelsRead <= |s.sender.written|
    ensures BarrierInStep(ClientNext(s))
  {
  }

  lemma ClientKeepsInStep(s: Session)
    requires InStep(s) && LevelsInStep(s) && ClientEnabled(s)
    ensures InStep(ClientNext(s)) && LevelsInStep(ClientNext(s))
  {
    hide InStep, LevelsInStep, ClientNext;
    ClientKeepsQueues(s);
    ClientKeepsLevels(s);
  }

  lemma ServerKeepsInStep(s: Session)
    requires InStep(s) && ServerEnabled(s)
    ensures InStep(ServerNext(s))
  {
  }

  /** Only the last two steps of the server's thread touch the sender. */
  lemma WhatTheServerTouches(s: Session)
    requires ServerEnabled(s)
    ensures var t := ServerNext(s);
            && ServerAt(t.server) == ServerAt(s.server) + 1
            && (t.client, t.levelsRead, t.barrier, t.saved) == (s.client, s.levelsRead, s.barrier, s.saved)
            && t.sender == match s.server
                           case HandOver => Next(s.sender, StartSender)
                           case Announcing => Next(s.sender, AnnounceFirst)
                           case _ => s.sender
  {
    hide Next;
  }

  lemma ServerKeepsInvariant(s: Session)
    requires Invariant(s.sender) && ServerEnabled(s)
    ensures Invariant(ServerNext(s).sender)
  {
    WhatTheServerTouches(s);
    hide ServerNext, Invariant, Next;
    if s.server.HandOver? {
      StepKeepsInvariant(s.sender, StartSender);
    } else if s.server.Announcing? {
      StepKeepsInvariant(s.sender, AnnounceFirst);
    }
  }

  lemma ServerKeepsSender(s: Session)
    requires SenderInStep(s.server, s.sender, s.levelsRead) && ServerEnabled(s)
    ensures var t := ServerNext(s);
            SenderInStep(t.server, t.sender, t.levelsRead) && t.sender.written == s.sender.written
  {
    WhatTheServerTouches(s);
    hide ServerNext, Next;
    if s.server.HandOver? {
      NothingIsWritten(s.sender, StartSender);
    } else if s.server.Announcing? {
      NothingIsWritten(s.sender, AnnounceFirst);
    }
  }

  lemma ServerKeepsLevels(s: Session)
    requires LevelsInStep(s) && ServerEnabled(s)
    ensures LevelsInStep(ServerNext(s))
  {
    hide ServerNext, Invariant, SenderInStep, Next;
    ServerKeepsInvariant(s);
    ServerKeepsSender(s);
    WhatTheServerTouches(s);
  }

  lemma NothingIsWritten(s: State, step: Step)
    requires (step.StartSender? || step.AnnounceFirst?) && Enabled(s, step)
    ensures Next(s, step).written == s.written && Next(s, step).worker == s.worker
    ensures Next(s, step).phase == if step.StartSender? then Streaming else Announced
  {
  }

  lemma SenderKeepsQueues(s: Session, step: Step, t: Session)
    requires InStep(s) && Enabled(s.sender, step)
    requires t == s.(sender := Next(s.sender, step))
    ensures InStep(t)
  {
    hide Next, Enabled;
  }

  lemma SenderKeepsLevels(s: Session, step: Step, t: Session)
    requires LevelsInStep(s)
    requires !step.StartSender? && !step.AnnounceFirst? && Enabled(s.sender, step)
    requires t == s.(sender := Next(s.sender, step))
    ensures LevelsInStep(t)
  {
    StepKeepsInvariant(s.sender, step);
    hide Invariant;
  }

  lemma SenderKeepsInStep(s: Session, step: Step, t: Session)
    requires InStep(s) && LevelsInStep(s)
    requires !step.StartSender? && !step.AnnounceFirst? && Enabled(s.sender, step)
    requires t == s.(sender := Next(s.sender, step))
    ensures InStep(t) && LevelsInStep(t)
  {
    hide InStep, LevelsInStep;
    SenderKeepsQueues(s, step, t);
    SenderKeepsLevels(s, step, t);
  }

  lemma MoveKeepsInStep(s: Session, m: Move)
    requires InStep(s) && LevelsInStep(s) && Possible(s, m)
    ensures InStep(After(s, m)) && LevelsInStep(After(s, m))
  {
    match m
    case ClientMoves => ClientKeepsInStep(s);
    case ServerMoves => ServerKeepsInStep(s); ServerKeepsLevels(s);
    case SenderMoves(step) => SenderKeepsInStep(s, step, After(s, m));
    case LevelChanges(newLevel) => SenderKeepsInStep(s, ChangeLevel(newLevel), After(s, m));
  }

  lemma {:induction false} PlayKeepsInStep(s: Session, moves: seq<Move>)
    requires InStep(s) && LevelsInStep(s) && LegalMoves(s, moves)
    ensures InStep(Play(s, moves)) && LevelsInStep(Play(s, moves))
    decreases |moves|
  {
    if moves != [] {
      MoveKeepsInStep(s, moves[0]);
      PlayKeepsInStep(After(s, moves[0]), moves[1..]);
    }
  }

  // ---- The results ----

  predicate Agreed(s: Session) {
    && !s.confused
    && (ClientAt(s.client) > 4 && ServerAt(s.server) > 6 ==>
          s.clientLog == s.serverLog && s.clientLevel == s.serverLevel && s.clientLog != s.clientLevel)
    && (s.server.ReadName? && HasMail(s, s.serverLog) ==> s.pipes[s.serverLog] == [FileName])
    && (s.server.HandOver? ==>
          |s.pipes| == 2 && s.serverLog < 2 && s.serverLevel < 2
          && s.pipes[s.serverLog] == [] && s.pipes[s.serverLevel] == [])
  }

  /** On every run both ends read only what they expect; once each has its channels they mean the
      same pipes by them; and when the server waits for the file name nothing is ahead of it. */
  lemma BothEndsAgree(level: u8, moves: seq<Move>)
    requires LegalMoves(InitialSession(level), moves)
    ensures Agreed(Play(InitialSession(level), moves))
  {
    PlayKeepsInStep(InitialSession(level), moves);
    InStepMeansAgreed(Play(InitialSession(level), moves));
  }

  lemma InStepMeansAgreed(s: Session)
    requires InStep(s)
    ensures Agreed(s)
  {
  }

  predicate Done(s: Session) {
    s.client.Connected? && s.server.Dispatching?
  }

  /** Steps of the two ends that remain. */
  function Distance(s: Session): int {
    (12 - ClientAt(s.client)) + (10 - ServerAt(s.server))
  }

  /** No run is stuck before both ends are through: the client, the server or the sender can move. */
  lemma NeverStuck(level: u8, moves: seq<Move>) returns (m: Move)
    requires LegalMoves(InitialSession(level), moves)
    requires !Done(Play(InitialSession(level), moves))
    ensures Possible(Play(InitialSession(level), moves), m) && !m.LevelChanges?
  {
    PlayKeepsInStep(InitialSession(level), moves);
    var s := Play(InitialSession(level), moves);
    LastWritten(s.sender);
    if ClientEnabled(s) && !s.client.Connected? {
      m := ClientMoves;
    } else if ServerEnabled(s) {
      m := ServerMoves;
    } else {
      assert s.client.ReadLevel? && s.server.Dispatching?;
      m := SenderMoves(if s.sender.worker.Writing? then Send else if s.sender.worker.Awake? then Snapshot else Wake);
    }
  }

  lemma ClientProgress(s: Session)
    requires InStep(s) && ClientEnabled(s)
    ensures var t := ClientNext(s);
            && t.server == s.server
            && ClientAt(t.client) == ClientAt(s.client) + (if s.client.Connected? then 0 else 1)
  {
  }

  lemma ServerProgress(s: Session)
    requires ServerEnabled(s)
    ensures var t := ServerNext(s);
            t.client == s.client && ServerAt(t.server) == ServerAt(s.server) + 1
  {
  }

  /** And the ends get there: a move of client or server while connecting shortens the distance, a
      move of the sender keeps it and uses up the sender's work, a level change keeps it. */
  lemma MovesMakeProgress(s: Session, m: Move)
    requires InStep(s) && Possible(s, m)
    ensures 0 <= Distance(s)
    ensures match m
      case ClientMoves => Distance(After(s, m)) == Distance(s) - (if s.client.Connected? then 0 else 1)
      case ServerMoves => Distance(After(s, m)) == Distance(s) - 1
      case SenderMoves(_) => Distance(After(s, m)) == Distance(s) && WorkLeft(After(s, m).sender) < WorkLeft(s.sender)
      case LevelChanges(_) => Distance(After(s, m)) == Distance(s)
  {
    match m
    case ClientMoves => ClientProgress(s);
    case ServerMoves => ServerProgress(s);
    case SenderMoves(step) =>
    case LevelChanges(_) =>
  }

  /** The level channel is at rest: the sender waits, and the client has read everything. */
  predicate AtRest(s: Session) {
    Quiescent(s.sender) && s.levelsRead == |s.sender.written|
  }

  /** At rest the client's barrier is the connection's level, clamped - except between the two settings
      of the barrier that let the dump through, where it is 9. */
  lemma BarrierAtRest(level: u8, moves: seq<Move>)
    requires LegalMoves(InitialSession(level), moves)
    requires AtRest(Play(InitialSession(level), moves))
    ensures var s := Play(InitialSession(level), moves);
            && ClientAt(s.client) > ClientAt(ReadLevel)
            && s.barrier == (if SendsDump(s.client) then DUMP_BARRIER else Clamp(s.sender.connectionLevel))
  {
    PlayKeepsInStep(InitialSession(level), moves);
    var s := Play(InitialSession(level), moves);
    LastWritten(s.sender);
  }

  /** What the client will restore, and then is its barrier, is the level. */
  lemma SavedAtRest(level: u8, moves: seq<Move>)
    requires LegalMoves(InitialSession(level), moves)
    requires AtRest(Play(InitialSession(level), moves))
    ensures var s := Play(InitialSession(level), moves);
            SendsDump(s.client) ==> s.saved == Clamp(s.sender.connectionLevel)
  {
    PlayKeepsInStep(InitialSession(level), moves);
    LastWritten(Play(InitialSession(level), moves).sender);
  }

  // ---- The client's `connect` is the one that sends the name, the dump and the lines ----

  function StageOf(c: Client): Stage {
    if ClientAt(c) <= ClientAt(Ack1) then Offline
    else if ClientAt(c) <= ClientAt(SendName) then OutputSet
    else
      match c
      case ReadLevel => NameSent
      case LevelRead => LevelKnown
      case BarrierRaised => Raised
      case DumpWritten => DumpSent
      case BarrierRestored => Restored
      case _ => Online
  }

  predicate SameConnect(s: Session, c: ClientLogModel.Client) {
    c.stage == StageOf(s.client) && c.barrier == s.barrier && c.saved == s.saved
  }

  /** A move of the client is a stage of that `connect`, or none of it. */
  predicate FollowsConnect(s: Session, c: ClientLogModel.Client, name: Utf8)
    requires ClientEnabled(s) && SameConnect(s, c) && !s.client.Connected?
  {
    var level := if s.client.ReadLevel? then s.sender.written[s.levelsRead] else 0;
    var t := ClientNext(s);
    SameConnect(t, if StageOf(t.client) == c.stage then c else ConnectStep(c, name, level))
  }

  lemma HandshakeIsTwoStages(s: Session, c: ClientLogModel.Client, name: Utf8)
    requires SameConnect(s, c) && ClientEnabled(s) && ClientAt(s.client) < ClientAt(ReadLevel)
    ensures FollowsConnect(s, c, name)
  {
    hide Mask, ReadOneLevel;
  }

  lemma TheRestIsFiveStages(s: Session, c: ClientLogModel.Client, name: Utf8)
    requires SameConnect(s, c) && ClientEnabled(s) && ClientAt(s.client) >= ClientAt(ReadLevel)
    requires !s.client.Connected?
    ensures FollowsConnect(s, c, name)
  {
    hide Put;
  }

  /** Each move of the client while it connects is a stage of the `connect` that sends the name, the dump
      and the lines, or none: the barriers are the same throughout. */
  lemma ConnectingIsOneConnect(s: Session, c: ClientLogModel.Client, name: Utf8)
    requires SameConnect(s, c) && ClientEnabled(s) && !s.client.Connected?
    ensures FollowsConnect(s, c, name)
    ensures SameConnect(InitialSession(s.sender.connectionLevel), NewClient())
  {
    hide FollowsConnect;
    if ClientAt(s.client) < ClientAt(ReadLevel) {
      HandshakeIsTwoStages(s, c, name);
    } else {
      TheRestIsFiveStages(s, c, name);
    }
  }

  // ---- The dump is sent while the channel is at rest ----

  predicate Announces(s: Session) {
    s.sender.updates == if s.server.Dispatching? then [Clamp(s.sender.connectionLevel)] else []
  }

  /** A move that is possible and leads on to the place where the barrier is raised and the channel at
      rest, without a change of level. */
  lemma TowardsTheDump(s: Session) returns (m: Move)
    requires InStep(s) && LevelsInStep(s) && Announces(s)
    requires ClientAt(s.client) <= ClientAt(BarrierRaised) && !(s.client.BarrierRaised? && AtRest(s))
    ensures Possible(s, m) && !m.LevelChanges? && (m.ClientMoves? ==> !s.client.BarrierRaised?)
  {
    LastWritten(s.sender);
    if ServerEnabled(s) {
      m := ServerMoves;
    } else if ClientEnabled(s) && !s.client.BarrierRaised? {
      m := ClientMoves;
    } else {
      assert s.server.Dispatching?;
      WrittenAlone(s.sender);
      OneOfOne(s.sender.written, s.sender.updates);
      m := SenderMoves(if s.sender.worker.Writing? then Send else if s.sender.worker.Awake? then Snapshot else Wake);
    }
  }

  lemma OneOfOne(a: seq<u8>, b: seq<u8>)
    requires Subsequence(a, b) && |b| <= 1
    ensures |a| <= 1
  {
    if a != [] {
      SubsequenceWithoutLast(a, b);
      assert b[..|b| - 1] == [];
    }
  }

  lemma TowardsStaysAnnounced(s: Session, m: Move)
    requires LevelsInStep(s) && Announces(s) && Possible(s, m) && !m.LevelChanges?
    ensures Announces(After(s, m)) && After(s, m).sender.connectionLevel == s.sender.connectionLevel
  {
    match m
    case ClientMoves => ClientLeavesTheServer(s);
    case ServerMoves => WhatTheServerTouches(s); hide ServerNext, Invariant;
    case _ => hide ClientNext, ServerNext, Invariant;
  }

  lemma ClientLeavesTheServer(s: Session)
    requires ClientEnabled(s)
    ensures ClientNext(s).server == s.server && ClientNext(s).sender == s.sender
  {
  }

  predicate OnTheWay(s: Session) {
    InStep(s) && LevelsInStep(s) && Announces(s) && ClientAt(s.client) <= ClientAt(BarrierRaised)
  }

  lemma OneMoveOn(s: Session) returns (m: Move)
    requires OnTheWay(s) && !(s.client.BarrierRaised? && AtRest(s))
    ensures Possible(s, m) && OnTheWay(After(s, m)) && After(s, m).sender.connectionLevel == s.sender.connectionLevel
    ensures 0 <= Distance(After(s, m)) <= Distance(s)
    ensures Distance(After(s, m)) < Distance(s) || WorkLeft(After(s, m).sender) < WorkLeft(s.sender)
  {
    hide InStep, LevelsInStep, Announces, ClientNext, ServerNext, AtRest;
    m := TowardsTheDump(s);
    MoveKeepsInStep(s, m);
    MovesMakeProgress(s, m);
    TowardsStaysAnnounced(s, m);
    ClientAdvances(s, m);
  }

  lemma {:induction false} ReachTheDump(s: Session) returns (moves: seq<Move>)
    requires OnTheWay(s)
    ensures LegalMoves(s, moves)
    ensures var t := Play(s, moves);
            t.client.BarrierRaised? && AtRest(t) && t.sender.connectionLevel == s.sender.connectionLevel
    decreases Distance(s), WorkLeft(s.sender)
  {
    hide OnTheWay, AtRest, Possible, After, WorkLeft;
    if s.client.BarrierRaised? && AtRest(s) {
      moves := [];
    } else {
      var m := OneMoveOn(s);
      var rest := ReachTheDump(After(s, m));
      moves := [m] + rest;
      assert moves[1..] == rest;
    }
  }

  lemma ClientAdvances(s: Session, m: Move)
    requires InStep(s) && Possible(s, m) && ClientAt(s.client) <= ClientAt(BarrierRaised)
    requires m.ClientMoves? ==> !s.client.BarrierRaised?
    ensures ClientAt(After(s, m).client) <= ClientAt(BarrierRaised)
  {
    match m
    case ClientMoves => ClientProgress(s);
    case ServerMoves => ServerProgress(s);
    case _ =>
  }

  /** For every level there is a run, without any change of level, that comes to the place where the
      dump is being sent with the level channel at rest: there the barrier is not the level. */
  lemma DumpIsSentAtRest(level: u8)
    ensures exists moves: seq<Move> ::
              && LegalMoves(InitialSession(level), moves)
              && var s := Play(InitialSession(level), moves);
                 s.client.BarrierRaised? && AtRest(s) && s.sender.connectionLevel == level
  {
    var moves := ReachTheDump(InitialSession(level));
  }
}
