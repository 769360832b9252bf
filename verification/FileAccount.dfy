/** The log account as an object on a shared volume, proved against the machine. */
module FileAccounts {
  import opened Wrappers
  import opened LogRecords
  import opened LogFiles
  import opened AccountModel
  import Model = AccountModel

  class FileAccount {
    const volume: LogVolume
    const buffers: LogDump
    var fileName: string
    var logDir: string
    var level: u8
    var asFirstOpen: bool
    var file: Option<string>

    ghost function Value(): Account
      reads this, buffers
    {
      Account(logDir, level, asFirstOpen, file, buffers.Value())
    }

    constructor (volume: LogVolume, logDir: string, fileName: string, logLevel: u8, headEnabled: bool, clock: Clock)
      modifies volume
      ensures this.volume == volume && this.fileName == fileName && fresh(buffers)
      ensures var o := Opened(logDir, logLevel, headEnabled, clock);
              Value() == o.account && volume.files == Replay(old(volume.files), fileName, o.effects)
    {
      var dump := new LogDump(headEnabled, false);
      this.volume, this.buffers, this.fileName := volume, dump, fileName;
      this.logDir, this.level, this.asFirstOpen, this.file := "", 0, true, None;
      new;
      SetNewFile(logLevel, logDir, clock);
    }

    constructor Postponed(volume: LogVolume, headEnabled: bool)
      ensures this.volume == volume && fresh(buffers)
      ensures Value() == Deferred(headEnabled)
    {
      var dump := new LogDump(headEnabled, true);
      this.volume, this.buffers, this.fileName := volume, dump, "";
      this.logDir, this.level, this.asFirstOpen, this.file := "", 0, true, None;
    }

    method Init(logDir: string, fileName: string, logLevel: u8, clock: Clock)
      modifies this, buffers, volume
      ensures this.fileName == fileName
      ensures var o := Model.Init(old(Value()), logDir, logLevel, clock);
              Value() == o.account && volume.files == Replay(old(volume.files), fileName, o.effects)
    {
      this.fileName := fileName;
      SetNewFile(logLevel, logDir, clock);
      buffers.TerminateLogDumping();
    }

    method ChangeLogProps(newLogDir: string, newLevel: u8, clock: Clock)
      modifies this, buffers, volume
      ensures fileName == old(fileName)
      ensures var o := Model.SetNewFile(old(Value()), newLevel, newLogDir, clock);
              Value() == o.account && volume.files == Replay(old(volume.files), fileName, o.effects)
    {
      SetNewFile(newLevel, newLogDir, clock);
    }

    method AcceptsLevel(logLevel: int) returns (r: bool)
      ensures r == Accepts(Value(), logLevel)
    {
      r := (!buffers.logDumpStopped && |buffers.logDumpLines| < MAX_LOG_DUMP_SIZE)
        || (!buffers.logHeaderStopped && |buffers.logHeaderLines| < MAX_LOG_HEADER_SIZE)
        || (file.Some? && logLevel <= level);
    }

    method Print(e: LogEntry)
      modifies buffers, volume
      ensures var o := Model.Print(old(Value()), e);
              Value() == o.account && volume.files == Replay(old(volume.files), fileName, o.effects)
    {
      buffers.UpdateLogHeaderLines(e);
      buffers.UpdateLogDumpLines(e);
      Flush(e);
      assert Replay(old(volume.files), fileName, []) == old(volume.files);
    }

    method Flush(e: LogEntry)
      modifies volume
      ensures volume.files
           == if PrintsLine(Value(), e.level)
              then Apply(old(volume.files), fileName, Write(file.value, e, WritesMillis(Value())))
              else old(volume.files)
    {
      if file.Some? && e.level <= level {
        var log := Path(file.value, fileName, 0);
        var content := if log in volume.files then volume.files[log] else [];
        volume.files := volume.files[log := content + [Record(e, level >= MILLISECONDS_FROM_LEVEL)]];
      }
    }

    method SetNewFile(newLevel: u8, newDir: string, clock: Clock)
      modifies this, buffers, volume
      ensures fileName == old(fileName)
      ensures var o := Model.SetNewFile(old(Value()), newLevel, newDir, clock);
              Value() == o.account && volume.files == Replay(old(volume.files), fileName, o.effects)
    {
      var levelChanged := newLevel != level;
      var levelChangedFromZero := levelChanged && level == 0;
      var logDirChanged := logDir != newDir;
      if !levelChanged && !logDirChanged {
        return;
      }
      ghost var a, f := Value(), volume.files;
      Announce(newLevel, newDir, clock);
      level := newLevel;
      logDir := newDir;
      ghost var b := Value();
      Settle(levelChangedFromZero, logDirChanged, clock.third);
      ReplayOfConcat(f, fileName, Model.Announce(a, newLevel, newDir, clock).effects,
                     Model.Settle(b, levelChangedFromZero, logDirChanged, clock.third).effects);
    }

    /** Prints a message of the account's own, if there is something to say. */
    method PrintSelf(condition: bool, stamp: Stamp, text: Text)
      modifies buffers, volume
      ensures var o := Model.PrintSelf(condition, old(Value()), stamp, text);
              Value() == o.account && volume.files == Replay(old(volume.files), fileName, o.effects)
    {
      if condition {
        Print(LogEntry(stamp, SELF_MESSAGE_LEVEL, text));
      }
    }

    method Announce(newLevel: u8, newDir: string, clock: Clock)
      modifies buffers, volume
      ensures var o := Model.Announce(old(Value()), newLevel, newDir, clock);
              Value() == o.account && volume.files == Replay(old(volume.files), fileName, o.effects)
    {
      ghost var a, f := Value(), volume.files;
      ghost var o1 := Model.PrintSelf(newLevel != level && !asFirstOpen, a, clock.first, LevelChanged(level, newLevel));
      PrintSelf(newLevel != level && !asFirstOpen, clock.first, LevelChanged(level, newLevel));
      ghost var o2 := Model.PrintSelf(logDir != newDir && !asFirstOpen, o1.account, clock.second,
                                      DirectoryChanged(logDir, newDir));
      PrintSelf(logDir != newDir && !asFirstOpen, clock.second, DirectoryChanged(logDir, newDir));
      ReplayOfConcat(f, fileName, o1.effects, o2.effects);
    }

    method Settle(levelChangedFromZero: bool, logDirChanged: bool, stamp: Stamp)
      modifies this, buffers, volume
      ensures fileName == old(fileName)
      ensures var o := Model.Settle(old(Value()), levelChangedFromZero, logDirChanged, stamp);
              Value() == o.account && volume.files == Replay(old(volume.files), fileName, o.effects)
    {
      if level == 0 {
        CloseFile();
        return;
      }
      var fileAlreadyOpen := file.Some?;
      var openingIsNeeded := !fileAlreadyOpen || logDirChanged;
      var firstOpen := asFirstOpen || logDirChanged;
      asFirstOpen := firstOpen;
      if openingIsNeeded {
        ghost var b, f := Value(), volume.files;
        if fileAlreadyOpen {
          CloseFile();
        }
        OpenFile();
        ghost var o1 := Model.OpenFile(b);
        ghost var o2 := Model.PrintSelf(levelChangedFromZero && !firstOpen, o1.account, stamp, LevelRaised(level));
        PrintSelf(levelChangedFromZero && !firstOpen, stamp, LevelRaised(level));
        ReplayOfConcat(f, fileName, o1.effects, o2.effects);
      }
    }

    method OpenFile()
      modifies this`file, this`asFirstOpen, volume
      ensures var o := Model.OpenFile(old(Value()));
              Value() == o.account && volume.files == Replay(old(volume.files), fileName, o.effects)
    {
      CloseFile();
      ghost var a, f0 := Value(), volume.files;
      var log := Path(logDir, fileName, 0);
      if asFirstOpen {
        asFirstOpen := false;
        volume.CreateBackup(logDir, fileName, BACKUP_LIMIT);
        ghost var f1 := volume.files;
        volume.files := volume.files[log := []];
        file := Some(logDir);
        AddUnicodeSignature();
        assert [Signature] + Records([], WritesMillis(Value())) == [Signature];
        assert volume.files == f1[log := [Signature]];
        if |buffers.logDumpLines| != 0 {
          WriteLines(buffers.logDumpLines, f1);
        } else if buffers.logHeaderStopped {
          WriteLines(buffers.logHeaderLines, f1);
        }
        ghost var e := Fresh(logDir, ReplayLines(a), WritesMillis(a));
        assert volume.files == Apply(f0, fileName, e);
        assert Replay(f0, fileName, [e]) == Apply(Replay(f0, fileName, []), fileName, e);
      } else {
        if log !in volume.files {
          volume.files := volume.files[log := []];
        }
        file := Some(logDir);
        ghost var e := Reopen(logDir);
        assert Replay(f0, fileName, [e]) == Apply(Replay(f0, fileName, []), fileName, e);
      }
    }

    /** A log that is still empty gets the signature; one that already starts with it is left alone. */
    method AddUnicodeSignature()
      requires file.Some? && Path(file.value, fileName, 0) in volume.files
      requires var content := volume.files[Path(file.value, fileName, 0)]; content == [] || content[0] == Signature
      modifies volume
      ensures var log := Path(file.value, fileName, 0);
              var was := old(volume.files)[log];
              volume.files == old(volume.files)[log := if was == [] then [Signature] else was]
    {
      var log := Path(file.value, fileName, 0);
      if |volume.files[log]| == 0 || volume.files[log][0] != Signature {
        volume.files := volume.files[log := volume.files[log] + [Signature]];
        assert volume.files[log] == [Signature];
      }
    }

    /** The replay loops of the dump and of the header. */
    method WriteLines(lines: seq<LogEntry>, ghost rotated: Files)
      requires file.Some?
      requires volume.files
            == rotated[Path(file.value, fileName, 0) := [Signature] + Records([], WritesMillis(Value()))]
      modifies volume
      ensures volume.files
           == rotated[Path(file.value, fileName, 0) :=
                        [Signature] + Records(Accepted(lines, level), WritesMillis(Value()))]
    {
      var i := 0;
      while i < |lines|
        invariant 0 <= i <= |lines|
        invariant volume.files
               == rotated[Path(file.value, fileName, 0) :=
                            [Signature] + Records(Accepted(lines[..i], level), WritesMillis(Value()))]
      {
        ghost var before := [Signature] + Records(Accepted(lines[..i], level), WritesMillis(Value()));
        Flush(lines[i]);
        assert lines[..i + 1][..i] == lines[..i];
        assert PrintsLine(Value(), lines[i].level) ==>
            [Signature] + Records(Accepted(lines[..i + 1], level), WritesMillis(Value()))
            == before + [Record(lines[i], WritesMillis(Value()))];
        assert !PrintsLine(Value(), lines[i].level) ==> Accepted(lines[..i + 1], level) == Accepted(lines[..i], level);
        i := i + 1;
      }
      assert lines[..i] == lines;
    }

    method CloseFile()
      modifies this`file
      ensures file == None
    {
      if file.Some? {
        file := None;
      }
    }
  }
}
