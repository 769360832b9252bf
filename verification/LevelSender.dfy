/** The level channel of a log connection: the connection thread and any number of level changes
    on one side, the sender thread on the other, sharing a lock, an event and one coalescing slot.
    Each step below is one critical section, one wait or one write. */
module LevelSenders {
  import opened Wrappers

  const HIGHEST_SENT_LEVEL: u8 := 10

  function Clamp(level: u8): u8 {
    if level > HIGHEST_SENT_LEVEL then HIGHEST_SENT_LEVEL else level
  }

  /** The shared slot: the fields of the sender, and its auto-reset event. */
  datatype Slot = Slot(hasStream: bool, updateAvailable: bool, level: u8, signalled: bool)

  function NewSlot(): Slot {
    Slot(false, false, 0, false)
  }

  function Started(s: Slot): Slot {
    s.(hasStream := true)
  }

  function Updated(s: Slot, newLevel: u8): Slot {
    s.(updateAvailable := true, level := Clamp(newLevel), signalled := true)
  }

  datatype Worker = Waiting | Awake | Writing(level: u8)
  datatype Phase = Connecting | Streaming | Announced

  /** `updates` and `written` are the histories of clamped updates and of bytes on the channel. */
  datatype State = State(
    connectionLevel: u8, phase: Phase, slot: Slot, worker: Worker,
    updates: seq<u8>, written: seq<u8>)

  datatype Step =
    | ChangeLevel(newLevel: u8)   // changeLogLevel, by any thread at any time
    | StartSender                 // the connection thread, after authentication
    | AnnounceFirst               // the connection thread, after StartSender
    | Wake                        // the wait returns and resets the event
    | Snapshot                    // the critical section of the sender thread
    | Send                        // the write

  function Initial(level: u8): State {
    State(level, Connecting, NewSlot(), Waiting, [], [])
  }

  predicate Enabled(s: State, step: Step) {
    match step
    case ChangeLevel(_) => true
    case StartSender => s.phase.Connecting?
    case AnnounceFirst => s.phase.Streaming?
    case Wake => s.worker.Waiting? && s.slot.signalled
    case Snapshot => s.worker.Awake?
    case Send => s.worker.Writing?
  }

  function Next(s: State, step: Step): State
    requires Enabled(s, step)
  {
    match step
    case ChangeLevel(newLevel) =>
      s.(connectionLevel := newLevel, slot := Updated(s.slot, newLevel), updates := s.updates + [Clamp(newLevel)])
    case StartSender =>
      s.(slot := Started(s.slot), phase := Streaming)
    case AnnounceFirst =>
      s.(slot := Updated(s.slot, s.connectionLevel), phase := Announced,
         updates := s.updates + [Clamp(s.connectionLevel)])
    case Wake =>
      s.(slot := s.slot.(signalled := false), worker := Awake)
    case Snapshot =>
      s.(slot := s.slot.(updateAvailable := false),
         worker := if s.slot.hasStream && s.slot.updateAvailable then Writing(s.slot.level) else Waiting)
    case Send =>
      s.(worker := Waiting, written := s.written + [s.worker.level])
  }

  predicate Legal(s: State, steps: seq<Step>)
    decreases |steps|
  {
    steps == [] || (Enabled(s, steps[0]) && Legal(Next(s, steps[0]), steps[1..]))
  }

  function Reach(s: State, steps: seq<Step>): State
    requires Legal(s, steps)
    decreases |steps|
  {
    if steps == [] then s else Reach(Next(s, steps[0]), steps[1..])
  }

  // ---- Subsequences ----

  predicate Subsequence(a: seq<u8>, b: seq<u8>)
    decreases |b|
  {
    if a == [] then true
    else if b == [] then false
    else if a[|a| - 1] == b[|b| - 1] && Subsequence(a[..|a| - 1], b[..|b| - 1]) then true
    else Subsequence(a, b[..|b| - 1])
  }

  lemma {:induction false} SubsequenceGrows(a: seq<u8>, b: seq<u8>, x: u8)
    requires Subsequence(a, b)
    ensures Subsequence(a, b + [x]) && Subsequence(a + [x], b + [x])
  {
    assert (b + [x])[..|b|] == b && (a + [x])[..|a|] == a;
  }

  lemma {:induction false} SubsequenceWithoutLast(a: seq<u8>, b: seq<u8>)
    requires a != [] && Subsequence(a, b)
    ensures Subsequence(a[..|a| - 1], b)
    decreases |b|
  {
    var init := a[..|a| - 1];
    if a[|a| - 1] == b[|b| - 1] && Subsequence(init, b[..|b| - 1]) {
      SubsequenceGrows(init, b[..|b| - 1], b[|b| - 1]);
      assert b[..|b| - 1] + [b[|b| - 1]] == b;
    } else {
      SubsequenceWithoutLast(a, b[..|b| - 1]);
      SubsequenceGrows(init, b[..|b| - 1], b[|b| - 1]);
      assert b[..|b| - 1] + [b[|b| - 1]] == b;
    }
  }

  // ---- The invariant ----

  /** Levels taken out of the slot or still in it, in the order in which they may be written. */
  function InFlight(s: State): seq<u8> {
    (if s.worker.Writing? then [s.worker.level] else [])
    + (if s.slot.updateAvailable then [s.slot.level] else [])
  }

  predicate Invariant(s: State) {
    && (s.phase.Connecting? <==> !s.slot.hasStream)
    // an update that is available will be looked at
    && (s.slot.updateAvailable ==> s.slot.signalled || s.worker.Awake?)
    && Subsequence(s.written + InFlight(s), s.updates)
    // once announced, the slot holds the connection's level, and so does whatever left it last
    && (s.phase.Announced? ==>
          && s.slot.level == Clamp(s.connectionLevel)
          && (!s.slot.updateAvailable ==>
                var out := s.written + InFlight(s); out != [] && out[|out| - 1] == s.slot.level))
  }

  lemma UpdateKeepsInvariant(s: State, newLevel: u8, t: State)
    requires Invariant(s)
    requires t.slot == Updated(s.slot, newLevel) && t.updates == s.updates + [Clamp(newLevel)]
    requires t.worker == s.worker && t.written == s.written && t.connectionLevel == newLevel
    requires t.phase == s.phase || (s.phase.Streaming? && t.phase.Announced?)
    ensures Invariant(t)
  {
    var before := s.written + InFlight(s);
    var kept := s.written + (if s.worker.Writing? then [s.worker.level] else []);
    if s.slot.updateAvailable {
      assert before[..|before| - 1] == kept;
      SubsequenceWithoutLast(before, s.updates);
    } else {
      assert before == kept;
    }
    SubsequenceGrows(kept, s.updates, Clamp(newLevel));
    assert t.written + InFlight(t) == kept + [Clamp(newLevel)];
  }

  lemma StepKeepsInvariant(s: State, step: Step)
    requires Invariant(s) && Enabled(s, step)
    ensures Invariant(Next(s, step))
  {
    var t := Next(s, step);
    match step
    case ChangeLevel(newLevel) => UpdateKeepsInvariant(s, newLevel, t);
    case AnnounceFirst => UpdateKeepsInvariant(s, s.connectionLevel, t);
    case StartSender =>
    case Wake =>
    case Snapshot =>
      if s.slot.updateAvailable && !s.slot.hasStream {
        var before := s.written + InFlight(s);
        assert before[..|before| - 1] == t.written + InFlight(t);
        SubsequenceWithoutLast(before, s.updates);
      } else {
        assert t.written + InFlight(t) == s.written + InFlight(s);
      }
    case Send =>
      assert t.written + InFlight(t) == s.written + InFlight(s);
  }

  lemma {:induction false} RunKeepsInvariant(s: State, steps: seq<Step>)
    requires Invariant(s) && Legal(s, steps)
    ensures Invariant(Reach(s, steps))
    decreases |steps|
  {
    if steps != [] {
      StepKeepsInvariant(s, steps[0]);
      RunKeepsInvariant(Next(s, steps[0]), steps[1..]);
    }
  }

  // ---- The results ----

  predicate Quiescent(s: State) {
    s.phase.Announced? && s.worker.Waiting? && !s.slot.signalled
  }

  /** No update is lost: in every interleaving, once the first level is announced and the sender
      waits with no event pending, the last byte on the channel is the connection's level,
      clamped. What was written is always an in-order selection of the clamped updates. */
  lemma NoLostUpdate(level: u8, steps: seq<Step>)
    requires Legal(Initial(level), steps)
    ensures var s := Reach(Initial(level), steps);
            && Subsequence(s.written, s.updates)
            && (Quiescent(s) ==> s.written != [] && s.written[|s.written| - 1] == Clamp(s.connectionLevel))
  {
    RunKeepsInvariant(Initial(level), steps);
    var s := Reach(Initial(level), steps);
    WrittenAlone(s);
    LastWritten(s);
  }

  lemma LastWritten(s: State)
    requires Invariant(s)
    ensures Quiescent(s) ==> s.written != [] && s.written[|s.written| - 1] == Clamp(s.connectionLevel)
  {
    assert InFlight(s) == [] ==> s.written + InFlight(s) == s.written;
  }

  lemma WrittenAlone(s: State)
    requires Invariant(s)
    ensures Subsequence(s.written, s.updates)
  {
    var out := s.written + InFlight(s);
    if |InFlight(s)| == 2 {
      SubsequenceWithoutLast(out, s.updates);
      SubsequenceWithoutLast(out[..|out| - 1], s.updates);
      assert out[..|out| - 1][..|out| - 2] == s.written;
    } else if |InFlight(s)| == 1 {
      SubsequenceWithoutLast(out, s.updates);
      assert out[..|out| - 1] == s.written;
    } else {
      assert out == s.written;
    }
  }

  /** How many steps the sender thread can take on its own. */
  function WorkLeft(s: State): nat {
    (if s.slot.signalled then 3 else 0)
    + (match s.worker case Waiting => 0 case Awake => 2 case Writing(_) => 1)
  }

  /** The sender thread is stuck only when nothing is pending, and left alone it gets there. */
  lemma SenderReachesQuiescence(s: State, step: Step)
    requires s.phase.Announced?
    ensures Quiescent(s) <==> !Enabled(s, Wake) && !Enabled(s, Snapshot) && !Enabled(s, Send)
    ensures (step.Wake? || step.Snapshot? || step.Send?) && Enabled(s, step) ==> WorkLeft(Next(s, step)) < WorkLeft(s)
    ensures WorkLeft(s) <= 5
  {
  }

  // ---- The object ----

  /** The fields and critical sections of the sender; the channel is the history `written`. */
  class LogLevelSender {
    var outStream: bool
    var updateAvailable: bool
    var logLevel: u8
    var happening: bool
    var channel: seq<u8>

    ghost function Value(): Slot
      reads this
    {
      Slot(outStream, updateAvailable, logLevel, happening)
    }

    constructor ()
      ensures Value() == NewSlot() && channel == []
    {
      outStream, updateAvailable, logLevel, happening, channel := false, false, 0, false, [];
    }

    method StartSender()
      modifies this`outStream
      ensures Value() == Started(old(Value()))
    {
      outStream := true;
    }

    method UpdateLevel(newLevel: u8)
      modifies this`updateAvailable, this`logLevel, this`happening
      ensures Value() == Updated(old(Value()), newLevel)
    {
      updateAvailable := true;
      logLevel := newLevel;
      if logLevel > HIGHEST_SENT_LEVEL {
        logLevel := HIGHEST_SENT_LEVEL;
      }
      happening := true;
    }

    /** One turn of the sender thread, undisturbed: it waits on a signalled event, looks, writes. */
    method Turn()
      requires happening
      modifies this
      ensures forall s: State | s.worker.Waiting? && s.slot == old(Value()) && s.written == old(channel) ::
                var awake := Next(Next(s, Wake), Snapshot);
                var done := if awake.worker.Writing? then Next(awake, Send) else awake;
                Value() == done.slot && channel == done.written
    {
      happening := false;
      var stream, available, level := outStream, updateAvailable, logLevel;
      updateAvailable := false;
      if stream && available {
        channel := channel + [level];
      }
    }
  }

  /** The level side of a log connection: its own level, and the sender it feeds. */
  class LogConn {
    var logLevel: u8
    const levelSender: LogLevelSender

    constructor (logLevel: u8)
      ensures this.logLevel == logLevel && fresh(levelSender)
      ensures levelSender.Value() == NewSlot() && levelSender.channel == []
    {
      this.logLevel := logLevel;
      levelSender := new LogLevelSender();
    }

    method ChangeLogLevel(newLevel: u8)
      modifies this`logLevel, levelSender
      ensures logLevel == newLevel && levelSender.channel == old(levelSender.channel)
      ensures levelSender.Value() == Updated(old(levelSender.Value()), newLevel)
    {
      logLevel := newLevel;
      levelSender.UpdateLevel(logLevel);
    }

    /** After authentication: the channel is handed over, then the first level is announced. */
    method StartLevels()
      modifies levelSender
      ensures levelSender.channel == old(levelSender.channel)
      ensures levelSender.Value() == Updated(Started(old(levelSender.Value())), logLevel)
    {
      levelSender.StartSender();
      levelSender.UpdateLevel(logLevel);
    }
  }
}
