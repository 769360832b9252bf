/** The client log writer as an object, proved against the machine. */
module ClientLogs {
  import opened Wrappers
  import opened LogRecords
  import opened ClientLogModel
  import Model = ClientLogModel

  class ClientLogWriter {
    const dump: LogDump
    var logOutput: bool
    var logBarrier: u8
    var sent: seq<Item>
    const logFileName: Utf8

    ghost predicate Shows(c: Client)
      reads this, dump
    {
      dump.Value() == c.buffers && logOutput == c.hasOutput && logBarrier == c.barrier && sent == c.sent
    }

    constructor (logFileName: Utf8)
      ensures this.logFileName == logFileName && fresh(dump)
      ensures Shows(NewClient())
    {
      dump := new LogDump(false, true);
      this.logFileName := logFileName;
      logOutput, logBarrier, sent := false, 0, [];
    }

    method Print(e: LogEntry)
      modifies this`sent, dump
      ensures forall c: Client | old(Shows(c)) :: Shows(Model.Print(c, e))
    {
      dump.UpdateLogDumpLines(e);
      Flush(e);
    }

    method Flush(e: LogEntry)
      modifies this`sent
      ensures sent == old(sent) + if logOutput then Recs(Accepted([e], logBarrier)) else []
    {
      if e.level <= GetLogBarrier() {
        if logOutput {
          sent := sent + [Rec(e)];
        }
      }
      assert [e][..0] == [];
    }

    function GetLogBarrier(): u8
      reads this
    {
      logBarrier
    }

    method SetLogBarrier(newLogBar: int)
      modifies this`logBarrier
      ensures logBarrier == Mask(newLogBar)
    {
      logBarrier := newLogBar % 16;
    }

    method Connect(firstLevel: u8)
      modifies this, dump
      ensures forall c: Client | old(Shows(c)) && c.stage.Offline? :: Shows(Model.Connect(c, logFileName, firstLevel))
    {
      ghost var before := sent;
      logOutput := true;
      sent := sent + [Name(logFileName)];
      SetLogBarrier(firstLevel);

      var logLevel := GetLogBarrier();
      SetLogBarrier(DUMP_BARRIER);
      WriteLogDump();
      SetLogBarrier(logLevel);
      dump.TerminateLogDumping();
      forall c: Client | old(Shows(c)) && c.stage.Offline?
        ensures Shows(Model.Connect(c, logFileName, firstLevel))
      {
        ConnectUndisturbed(c, logFileName, firstLevel);
      }
    }

    method WriteLogDump()
      requires logOutput
      modifies this`sent
      ensures sent == old(sent) + Recs(Accepted(dump.logDumpLines, logBarrier))
    {
      var i := 0;
      while i < |dump.logDumpLines|
        invariant 0 <= i <= |dump.logDumpLines|
        invariant sent == old(sent) + Recs(Accepted(dump.logDumpLines[..i], logBarrier))
      {
        Flush(dump.logDumpLines[i]);
        AcceptedOfConcat(dump.logDumpLines[..i], [dump.logDumpLines[i]], logBarrier);
        assert dump.logDumpLines[..i + 1] == dump.logDumpLines[..i] + [dump.logDumpLines[i]];
        i := i + 1;
      }
      assert dump.logDumpLines[..i] == dump.logDumpLines;
    }
  }
}
