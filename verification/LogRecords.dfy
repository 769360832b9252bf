/** Log lines, and the in-memory header and dump buffers that every log writer keeps. */
module LogRecords {
  import opened Wrappers

  const MAX_LOG_HEADER_SIZE: nat := 16
  const MAX_LOG_DUMP_SIZE: nat := 1024

  /** Process id, thread id and time of a line: read from the system, so always a parameter. */
  datatype Stamp = Stamp(processId: u32, threadId: u32, time: u64)

  /** A line's text: what a client printed, or one of the messages an account prints into its own log. */
  datatype Text =
    | Line(utf8: Utf8)
    | LevelChanged(oldLevel: u8, newLevel: u8)
    | DirectoryChanged(oldDir: string, newDir: string)
    | LevelRaised(level: u8)

  datatype LogEntry = LogEntry(stamp: Stamp, level: int, text: Text)

  /** The lines of level at most `barrier`, in order. */
  function Accepted(lines: seq<LogEntry>, barrier: int): (r: seq<LogEntry>)
  {
    if lines == [] then []
    else
      Accepted(lines[..|lines| - 1], barrier)
      + if lines[|lines| - 1].level <= barrier then [lines[|lines| - 1]] else []
  }

  lemma {:induction false} AcceptedOfConcat(a: seq<LogEntry>, b: seq<LogEntry>, barrier: int)
    ensures Accepted(a + b, barrier) == Accepted(a, barrier) + Accepted(b, barrier)
  {
    if b == [] {
      assert a + b == a;
    } else {
      var init := b[..|b| - 1];
      assert (a + b)[..|a + b| - 1] == a + init;
      AcceptedOfConcat(a, init, barrier);
    }
  }

  /** The buffers as a value. */
  datatype Buffers = Buffers(
    header: seq<LogEntry>, headerStopped: bool,
    dump: seq<LogEntry>, dumpStopped: bool)
  {
    predicate HeadEnabled() {
      !headerStopped && |header| < MAX_LOG_HEADER_SIZE
    }

    predicate DumpEnabled() {
      !dumpStopped && |dump| < MAX_LOG_DUMP_SIZE
    }

    predicate Bounded() {
      |header| <= MAX_LOG_HEADER_SIZE && |dump| <= MAX_LOG_DUMP_SIZE
    }

    function Add(e: LogEntry): Buffers {
      this.(header := if HeadEnabled() then header + [e] else header,
            dump := if DumpEnabled() then dump + [e] else dump)
    }

    function StoreHeader(): Buffers {
      this.(headerStopped := true)
    }

    function TerminateDump(): Buffers {
      this.(dumpStopped := true, dump := [])
    }
  }

  function NewBuffers(headEnabled: bool, dumpEnabled: bool): Buffers {
    Buffers([], !headEnabled, [], !dumpEnabled)
  }

  function AddAll(b: Buffers, lines: seq<LogEntry>): Buffers {
    if lines == [] then b else AddAll(b, lines[..|lines| - 1]).Add(lines[|lines| - 1])
  }

  function Take<T>(s: seq<T>, n: nat): seq<T> {
    if |s| <= n then s else s[..n]
  }

  /** A buffer that is not stopped holds exactly the first lines ever offered to it, up to its
      limit; a stopped one never changes. */
  lemma {:induction false} BuffersHoldTheFirstLines(b: Buffers, lines: seq<LogEntry>)
    requires b.Bounded()
    ensures var r := AddAll(b, lines);
            && r.headerStopped == b.headerStopped && r.dumpStopped == b.dumpStopped && r.Bounded()
            && r.header == (if b.headerStopped then b.header else Take(b.header + lines, MAX_LOG_HEADER_SIZE))
            && r.dump == (if b.dumpStopped then b.dump else Take(b.dump + lines, MAX_LOG_DUMP_SIZE))
  {
    if lines == [] {
      assert b.header + lines == b.header && b.dump + lines == b.dump;
    } else {
      var init, last := lines[..|lines| - 1], lines[|lines| - 1];
      BuffersHoldTheFirstLines(b, init);
      assert b.header + lines == b.header + init + [last];
      assert b.dump + lines == b.dump + init + [last];
    }
  }

  /** The buffers as the object that every log writer owns. */
  class LogDump {
    var logHeaderStopped: bool
    var logHeaderLines: seq<LogEntry>
    var logDumpStopped: bool
    var logDumpLines: seq<LogEntry>

    ghost function Value(): Buffers
      reads this
    {
      Buffers(logHeaderLines, logHeaderStopped, logDumpLines, logDumpStopped)
    }

    constructor (headEnabled: bool, dumpEnabled: bool)
      ensures Value() == NewBuffers(headEnabled, dumpEnabled)
    {
      logHeaderStopped, logHeaderLines := !headEnabled, [];
      logDumpStopped, logDumpLines := !dumpEnabled, [];
    }

    method StoreHeader()
      modifies this
      ensures Value() == old(Value()).StoreHeader()
    {
      logHeaderStopped := true;
    }

    method TerminateLogDumping()
      modifies this
      ensures Value() == old(Value()).TerminateDump()
    {
      logDumpStopped := true;
      logDumpLines := [];
    }

    method UpdateLogHeaderLines(e: LogEntry)
      modifies this`logHeaderLines
      ensures Value() == old(Value()).(header := old(Value()).Add(e).header)
    {
      if !logHeaderStopped && |logHeaderLines| < MAX_LOG_HEADER_SIZE {
        logHeaderLines := logHeaderLines + [e];
      }
    }

    method UpdateLogDumpLines(e: LogEntry)
      modifies this`logDumpLines
      ensures Value() == old(Value()).(dump := old(Value()).Add(e).dump)
    {
      if !logDumpStopped && |logDumpLines| < MAX_LOG_DUMP_SIZE {
        logDumpLines := logDumpLines + [e];
      }
    }
  }
}
