/** The log server as an object, with the loops over its lists, proved against the machine. Each
    method is one critical section; the accounts and connections are held by value. */
module LogServers {
  import opened Wrappers
  import opened LogRecords
  import opened LogFiles
  import opened AccountModel
  import opened LogServerModel

  function ReplayNamed(files: Files, trace: seq<NamedEffects>): Files {
    if trace == [] then files
    else
      var last := trace[|trace| - 1];
      Replay(ReplayNamed(files, trace[..|trace| - 1]), last.fileName, last.effects)
  }

  lemma ReplayNoneNamed(files: Files)
    ensures ReplayNamed(files, []) == files
  {
  }

  lemma ReplayOneNamed(files: Files, e: NamedEffects)
    ensures ReplayNamed(files, [e]) == Replay(files, e.fileName, e.effects)
  {
    assert [e][..0] == [];
  }

  lemma ReplayOneMore(files: Files, accounts: map<AccountHandle, NamedAccount>, h: AccountHandle,
                      dir: string, level: u8, clock: Clock)
    requires h in accounts
    ensures ReplayNamed(files, ChangeEffects(accounts, h + 1, dir, level, clock))
         == Replay(ReplayNamed(files, ChangeEffects(accounts, h, dir, level, clock)), accounts[h].fileName,
                   SetNewFile(accounts[h].account, level, dir, clock).effects)
  {
    var trace := ChangeEffects(accounts, h + 1, dir, level, clock);
    assert trace[..|trace| - 1] == ChangeEffects(accounts, h, dir, level, clock);
  }

  /** The accounts below h have the new settings. */
  function ChangedBelow(accounts: map<AccountHandle, NamedAccount>, h: nat, dir: string, level: u8, clock: Clock)
    : map<AccountHandle, NamedAccount>
  {
    map k | k in accounts :: if k < h then Changed(accounts[k], dir, level, clock) else accounts[k]
  }

  lemma ChangedOneMore(accounts: map<AccountHandle, NamedAccount>, h: AccountHandle, dir: string, level: u8,
                       clock: Clock)
    requires h in accounts
    ensures h in ChangedBelow(accounts, h, dir, level, clock)
    ensures ChangedBelow(accounts, h, dir, level, clock)[h] == accounts[h]
    ensures ChangedBelow(accounts, h + 1, dir, level, clock)
         == ChangedBelow(accounts, h, dir, level, clock)[h := Changed(accounts[h], dir, level, clock)]
  {
  }

  lemma ChangedNoneAndAll(files: Files, accounts: map<AccountHandle, NamedAccount>, n: nat, dir: string, level: u8,
                          clock: Clock)
    requires forall h | h in accounts :: h < n
    ensures ChangedBelow(accounts, 0, dir, level, clock) == accounts
    ensures ReplayNamed(files, ChangeEffects(accounts, 0, dir, level, clock)) == files
    ensures ChangedBelow(accounts, n, dir, level, clock)
         == map h | h in accounts :: Changed(accounts[h], dir, level, clock)
  {
  }

  // A step is known by its parts.

  lemma ChangePropsByParts(s: Server, t: Server, dir: string, level: u8, clock: Clock)
    requires t.logDir == dir && t.logLevel == level
    requires t == s.(logDir := dir, logLevel := level, accounts := t.accounts, connections := t.connections,
                     heard := t.heard)
    requires t.accounts == map h | h in s.accounts :: Changed(s.accounts[h], dir, level, clock)
    requires t.connections == map id | id in s.connections ::
               if id in s.authenticated || id in s.notAuthenticated
               then s.connections[id].(level := level) else s.connections[id]
    requires t.heard == if 0 in s.accounts && !s.frozen
                        then s.heard + SelfEntries(s.accounts[0].account, level, dir, clock) else s.heard
    ensures t == Next(s, ChangeProps(dir, level, clock))
  {
  }

  lemma LogByParts(s: Server, t: Server, id: ConnId, entry: LogEntry)
    requires Enabled(s, Log(id, entry)) && s.connections[id].phase.handle in s.accounts
    requires var h := s.connections[id].phase.handle;
             var printed := s.accounts[h :=
               s.accounts[h].(account := AccountModel.Print(s.accounts[h].account, entry).account)];
             var full := s.totalLogLines + 1 == s.headerLineCount;
             t == s.(accounts := if full then StoreServerHeader(printed) else printed,
                     totalLogLines := s.totalLogLines + 1,
                     heard := if h == 0 && !s.frozen then s.heard + [entry] else s.heard,
                     frozen := s.frozen || full)
    ensures t == Next(s, Log(id, entry))
    ensures var na := s.accounts[s.connections[id].phase.handle];
            Effects(s, Log(id, entry)) == [NamedEffects(na.fileName, AccountModel.Print(na.account, entry).effects)]
  {
  }

  lemma UnhandledLog(s: Server, id: ConnId, entry: LogEntry)
    requires Enabled(s, Log(id, entry)) && s.connections[id].phase.handle !in s.accounts
    ensures Next(s, Log(id, entry)) == s && Effects(s, Log(id, entry)) == []
  {
  }

  lemma SecondByParts(s: Server, t: Server, id: ConnId, fileName: string, clock: Clock)
    requires In(s, id, Between)
    requires var h := FindAccount(s.accounts, fileName, 0);
             && t == s.(authenticated := s.authenticated + [id], connections := Move(s, id, Authenticated(h, fileName)),
                        accounts := t.accounts)
             && t.accounts == if h in s.accounts then s.accounts
                  else s.accounts[h := NamedAccount(fileName,
                                                    Opened(s.logDir, s.logLevel, |s.accounts| == 0, clock).account)]
    ensures t == Next(s, AuthSecond(id, fileName, clock))
  {
  }

  lemma {:induction false} WithoutSplit(s: seq<ConnId>, i: nat)
    requires i < |s| && s[i] !in s[..i]
    ensures Without(s, s[i]) == s[..i] + s[i + 1..]
  {
    if i > 0 {
      assert s[0] == s[..i][0];
      assert s[1..][..i - 1] == s[..i][1..];
      WithoutSplit(s[1..], i - 1);
    }
  }

  lemma {:induction false} WithoutNothing(s: seq<ConnId>, id: ConnId)
    requires id !in s
    ensures Without(s, id) == s
  {
    if s != [] {
      WithoutNothing(s[1..], id);
    }
  }

  class LogServer {
    var logDir: string
    var logLevel: u8
    var headerLineCount: nat
    var totalLogLines: nat
    var notAuthConnList: seq<ConnId>
    var connList: seq<ConnId>
    var connections: map<ConnId, Connection>
    var fileAccountList: map<AccountHandle, NamedAccount>
    var files: Files
    ghost var heard: seq<LogEntry>
    ghost var frozen: bool

    ghost function Value(): Server
      reads this
    {
      Server(logDir, logLevel, headerLineCount, totalLogLines, notAuthConnList, connList, connections,
             fileAccountList, heard, frozen)
    }

    ghost predicate Valid()
      reads this
    {
      && (forall h :: h in fileAccountList <==> 0 <= h < |fileAccountList|)
      && (forall id | id in notAuthConnList || id in connList :: id in connections)
    }

    constructor (files: Files, logDir: string, logLevel: u8, headerLineCount: nat)
      ensures Valid() && Value() == Started(logDir, logLevel, headerLineCount) && this.files == files
    {
      this.files, this.logDir, this.logLevel, this.headerLineCount := files, logDir, logLevel, headerLineCount;
      totalLogLines, notAuthConnList, connList := 0, [], [];
      connections, fileAccountList := map[], map[];
      heard, frozen := [], false;
    }

    method OnNewConnection(id: ConnId)
      requires Valid() && Enabled(Value(), NewConnection(id))
      modifies this`notAuthConnList, this`connections
      ensures Valid() && Value() == Next(old(Value()), NewConnection(id))
    {
      notAuthConnList := notAuthConnList + [id];
      connections := connections[id := Connection(logLevel, Connecting)];
    }

    method Erase(list: seq<ConnId>, id: ConnId) returns (r: seq<ConnId>, found: bool)
      ensures r == Without(list, id) && (found <==> id in list)
      ensures forall x | x in r :: x in list
    {
      var i := 0;
      while i < |list|
        invariant 0 <= i <= |list|
        invariant id !in list[..i]
      {
        if list[i] == id {
          WithoutSplit(list, i);
          return list[..i] + list[i + 1..], true;
        }
        i := i + 1;
      }
      WithoutNothing(list, id);
      return list, false;
    }

    /** The first critical section of an authentication. */
    method OnLogConnAuthFirst(id: ConnId, success: bool)
      requires Valid() && Enabled(Value(), AuthFirst(id))
      modifies this`notAuthConnList, this`connections
      ensures Valid() && Value() == Next(old(Value()), if success then AuthFirst(id) else AuthFailed(id))
    {
      var list, found := Erase(notAuthConnList, id);
      notAuthConnList := list;
      connections := connections[id := connections[id].(phase := if success then Between else Refused)];
    }

    /** The second one; the lock is held across the search for the account. */
    method OnLogConnAuthSecond(id: ConnId, fileName: string, clock: Clock) returns (handle: AccountHandle)
      requires Valid() && Enabled(Value(), AuthSecond(id, fileName, clock))
      modifies this
      ensures Valid() && Value() == Next(old(Value()), AuthSecond(id, fileName, clock))
      ensures handle == connections[id].phase.handle
      ensures files == ReplayNamed(old(files), Effects(old(Value()), AuthSecond(id, fileName, clock)))
    {
      hide ReplayNamed, Replay, Without, FindAccount, Opened;
      ReplayNoneNamed(files);
      connList := connList + [id];
      handle := AddConnection(fileName, clock);
      connections := connections[id := connections[id].(phase := Authenticated(handle, fileName))];
      SecondByParts(old(Value()), Value(), id, fileName, clock);
    }

    method AddConnection(fileName: string, clock: Clock) returns (handle: AccountHandle)
      requires Valid()
      modifies this`fileAccountList, this`files
      ensures Valid() && handle == FindAccount(old(fileAccountList), fileName, 0)
      ensures var o := Opened(logDir, logLevel, |old(fileAccountList)| == 0, clock);
              if handle in old(fileAccountList) then
                fileAccountList == old(fileAccountList) && files == old(files)
              else
                && fileAccountList == old(fileAccountList)[handle := NamedAccount(fileName, o.account)]
                && files == ReplayNamed(old(files), [NamedEffects(fileName, o.effects)])
    {
      handle := FindHandle(fileName);
      if handle !in fileAccountList {
        var count := |fileAccountList|;
        var logHeadEnabled := count == 0;
        var o := Opened(logDir, logLevel, logHeadEnabled, clock);
        ReplayOneNamed(files, NamedEffects(fileName, o.effects));
        fileAccountList := fileAccountList[count := NamedAccount(fileName, o.account)];
        files := Replay(files, fileName, o.effects);
      }
    }

    method FindHandle(fileName: string) returns (handle: AccountHandle)
      requires Valid()
      ensures handle == FindAccount(fileAccountList, fileName, 0)
      ensures handle in fileAccountList || handle == |fileAccountList|
    {
      handle := 0;
      while handle < |fileAccountList|
        invariant handle <= |fileAccountList|
        invariant FindAccount(fileAccountList, fileName, handle) == FindAccount(fileAccountList, fileName, 0)
      {
        if fileAccountList[handle].fileName == fileName {
          return;
        }
        handle := handle + 1;
      }
    }

    method OnDisconnect(id: ConnId)
      requires Valid() && Enabled(Value(), Disconnect(id))
      modifies this`notAuthConnList, this`connList, this`connections
      ensures Valid() && Value() == Next(old(Value()), Disconnect(id))
    {
      connections := connections[id := connections[id].(phase := Gone)];
      var list, found := Erase(notAuthConnList, id);
      if found {
        notAuthConnList := list;
        return;
      }
      list, found := Erase(connList, id);
      connList := list;
    }

    method OnLog(id: ConnId, entry: LogEntry)
      requires Valid() && Enabled(Value(), Log(id, entry))
      modifies this
      ensures Valid() && Value() == Next(old(Value()), Log(id, entry))
      ensures files == ReplayNamed(old(files), Effects(old(Value()), Log(id, entry)))
    {
      hide AccountModel.Print, ReplayNamed, Replay, Without, FindAccount, StoreServerHeader, Next, Effects;
      var handle := connections[id].phase.handle;
      ReplayNoneNamed(files);
      if handle !in fileAccountList {
        UnhandledLog(Value(), id, entry);
        return;
      }
      PrintInto(handle, entry);
      CountLine(handle, entry);
      LogByParts(old(Value()), Value(), id, entry);
    }

    /** The line that makes the count complete ends the header. */
    method CountLine(handle: AccountHandle, entry: LogEntry)
      requires Valid()
      modifies this`fileAccountList, this`totalLogLines, this`heard, this`frozen
      ensures Valid() && totalLogLines == old(totalLogLines) + 1
      ensures heard == if handle == 0 && !old(frozen) then old(heard) + [entry] else old(heard)
      ensures var full := totalLogLines == headerLineCount;
              && frozen == (old(frozen) || full)
              && fileAccountList == if full then StoreServerHeader(old(fileAccountList)) else old(fileAccountList)
    {
      hide StoreServerHeader;
      heard := if handle == 0 && !frozen then heard + [entry] else heard;
      totalLogLines := totalLogLines + 1;
      if totalLogLines == headerLineCount {
        StoreHeader();
        frozen := true;
      }
    }

    method PrintInto(handle: AccountHandle, entry: LogEntry)
      requires Valid() && handle in fileAccountList
      modifies this`fileAccountList, this`files
      ensures Valid()
      ensures var a := old(fileAccountList)[handle];
              var o := AccountModel.Print(a.account, entry);
              && fileAccountList == old(fileAccountList)[handle := a.(account := o.account)]
              && files == ReplayNamed(old(files), [NamedEffects(a.fileName, o.effects)])
    {
      var a := fileAccountList[handle];
      var o := AccountModel.Print(a.account, entry);
      ReplayOneNamed(files, NamedEffects(a.fileName, o.effects));
      fileAccountList := fileAccountList[handle := a.(account := o.account)];
      files := Replay(files, a.fileName, o.effects);
    }

    method StoreHeader()
      requires Valid()
      modifies this`fileAccountList
      ensures Valid() && fileAccountList == StoreServerHeader(old(fileAccountList))
    {
      if |fileAccountList| >= 1 {
        var first := fileAccountList[0];
        fileAccountList := fileAccountList[0 := first.(account := AccountModel.StoreHeader(first.account))];
      }
    }

    method ChangeLogProps(newLogDir: string, newLevel: u8, clock: Clock)
      requires Valid()
      modifies this
      ensures Valid() && Value() == Next(old(Value()), ChangeProps(newLogDir, newLevel, clock))
      ensures files == ReplayNamed(old(files), Effects(old(Value()), ChangeProps(newLogDir, newLevel, clock)))
    {
      hide SetNewFile, Changed, ReplayNamed, ChangeEffects, Replay, SelfEntries, ChangedBelow;
      UpdateEverything(newLogDir, newLevel, clock);
      ChangedNoneAndAll(files, old(fileAccountList), |old(fileAccountList)|, newLogDir, newLevel, clock);
      ChangePropsByParts(old(Value()), Value(), newLogDir, newLevel, clock);
    }

    /** The settings, the accounts, the authenticated and the other connections, in this order. */
    method UpdateEverything(newLogDir: string, newLevel: u8, clock: Clock)
      requires Valid()
      modifies this`logDir, this`logLevel, this`heard, this`fileAccountList, this`files, this`connections
      ensures Valid() && logLevel == newLevel && logDir == newLogDir
      ensures heard == if 0 in old(fileAccountList) && !frozen
                       then old(heard) + SelfEntries(old(fileAccountList)[0].account, newLevel, newLogDir, clock)
                       else old(heard)
      ensures fileAccountList == ChangedBelow(old(fileAccountList), |old(fileAccountList)|, newLogDir, newLevel, clock)
      ensures files == ReplayNamed(old(files), ChangeEffects(old(fileAccountList), |old(fileAccountList)|,
                                                             newLogDir, newLevel, clock))
      ensures connections == map id | id in old(connections) ::
                if id in connList || id in notAuthConnList
                then old(connections)[id].(level := newLevel) else old(connections)[id]
    {
      hide SetNewFile, Changed, ChangedBelow, ReplayNamed, ChangeEffects, Replay, SelfEntries;
      logLevel := newLevel;
      logDir := newLogDir;
      heard := if 0 in fileAccountList && !frozen
               then heard + SelfEntries(fileAccountList[0].account, newLevel, newLogDir, clock) else heard;
      ChangeAccounts(newLogDir, newLevel, clock);
      ChangeLevels(connList, newLevel);
      ChangeLevels(notAuthConnList, newLevel);
    }

    method ChangeAccounts(newLogDir: string, newLevel: u8, clock: Clock)
      requires Valid()
      modifies this`fileAccountList, this`files
      ensures Valid()
      ensures fileAccountList == ChangedBelow(old(fileAccountList), |old(fileAccountList)|, newLogDir, newLevel, clock)
      ensures files == ReplayNamed(old(files), ChangeEffects(old(fileAccountList), |old(fileAccountList)|,
                                                             newLogDir, newLevel, clock))
    {
      hide SetNewFile, Changed, ChangedBelow, ReplayNamed, ChangeEffects, Replay;
      ghost var was := fileAccountList;
      assert fileAccountList.Keys == was.Keys;
      ChangedNoneAndAll(files, was, |was|, newLogDir, newLevel, clock);
      var h := 0;
      while h < |fileAccountList|
        invariant 0 <= h <= |fileAccountList| == |was| && fileAccountList.Keys == was.Keys
        invariant fileAccountList == ChangedBelow(was, h, newLogDir, newLevel, clock)
        invariant files == ReplayNamed(old(files), ChangeEffects(was, h, newLogDir, newLevel, clock))
      {
        ReplayOneMore(old(files), was, h, newLogDir, newLevel, clock);
        ChangedOneMore(was, h, newLogDir, newLevel, clock);
        ChangeAccount(h, newLogDir, newLevel, clock, was[h]);
        h := h + 1;
      }
    }

    method ChangeAccount(h: AccountHandle, newLogDir: string, newLevel: u8, clock: Clock, ghost was: NamedAccount)
      requires h in fileAccountList && fileAccountList[h] == was
      modifies this`fileAccountList, this`files
      ensures fileAccountList == old(fileAccountList)[h := Changed(was, newLogDir, newLevel, clock)]
      ensures files == Replay(old(files), was.fileName, SetNewFile(was.account, newLevel, newLogDir, clock).effects)
    {
      var a := fileAccountList[h];
      files := Replay(files, a.fileName, SetNewFile(a.account, newLevel, newLogDir, clock).effects);
      fileAccountList := fileAccountList[h := Changed(a, newLogDir, newLevel, clock)];
    }

    method ChangeLevels(list: seq<ConnId>, newLevel: u8)
      requires forall id | id in list :: id in connections
      modifies this`connections
      ensures connections == map id | id in old(connections) ::
                if id in list then old(connections)[id].(level := newLevel) else old(connections)[id]
    {
      var i := 0;
      while i < |list|
        invariant 0 <= i <= |list| && connections.Keys == old(connections.Keys)
        invariant forall id | id in connections ::
                    connections[id] == if id in list[..i]
                                       then old(connections)[id].(level := newLevel) else old(connections)[id]
      {
        connections := connections[list[i] := connections[list[i]].(level := newLevel)];
        i := i + 1;
      }
      assert list[..i] == list;
    }
  }
}
