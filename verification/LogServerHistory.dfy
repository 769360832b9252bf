/** What the log server does to each log, told from the steps of a run alone: the trace of every name is
    that of one account, over the operations that the run has for it. */
module LogServerHistory {
  import opened Wrappers
  import opened LogRecords
  import opened LogFiles
  import opened AccountModel
  import opened LogServerModel
  import opened LogServerFiles
  import AccountRuns
  import AccountHistory
  import opened LogServerRuns

  // ---- What the steps tell ----

  /** The settings: those of the last change. */
  function Settings(steps: seq<Step>, dir: string, level: u8): (u8, string) {
    if steps == [] then (level, dir)
    else
      var last := steps[|steps| - 1];
      if last.ChangeProps? then (last.level, last.dir) else Settings(steps[..|steps| - 1], dir, level)
  }

  /** The name that a connection gave. */
  function NameOf(steps: seq<Step>, id: ConnId): Option<string> {
    if steps == [] then None
    else
      var last := steps[|steps| - 1];
      if last.AuthSecond? && last.id == id then Some(last.fileName) else NameOf(steps[..|steps| - 1], id)
  }

  /** The name that was given first of all: its log has the header. */
  function FirstName(steps: seq<Step>): Option<string> {
    if steps == [] then None else FirstAfter(FirstName(steps[..|steps| - 1]), steps[|steps| - 1])
  }

  function FirstAfter(before: Option<string>, last: Step): Option<string> {
    if before.None? && last.AuthSecond? then Some(last.fileName) else before
  }

  function LinesSoFar(steps: seq<Step>): nat {
    if steps == [] then 0 else LinesSoFar(steps[..|steps| - 1]) + if steps[|steps| - 1].Log? then 1 else 0
  }

  function PrintOf(e: LogEntry): AccountRuns.Op {
    AccountRuns.PrintLine(e.stamp, e.level, match e.text case Line(utf8) => utf8 case _ => [])
  }

  /** What one more step has for the log of a name. */
  function OpsOfLast(init: seq<Step>, last: Step, dir: string, level: u8, headerLineCount: nat, name: string,
                     begun: bool): seq<AccountRuns.Op>
  {
    match last
    case AuthSecond(_, fileName, clock) =>
      var (currentLevel, currentDir) := Settings(init, dir, level);
      if fileName == name && !begun then [AccountRuns.Change(currentDir, currentLevel, clock)] else []
    case ChangeProps(newDir, newLevel, clock) =>
      if begun then [AccountRuns.Change(newDir, newLevel, clock)] else []
    case Log(id, entry) =>
      (if NameOf(init, id) == Some(name) then [PrintOf(entry)] else [])
      + (if FirstName(init) == Some(name) && LinesSoFar(init) + 1 == headerLineCount
         then [AccountRuns.CompleteHeader] else [])
    case _ => []
  }

  /** What a run has for the log of a name: it is opened, with the settings of the moment, when the name is
      given for the first time; from then on it follows every change, and is given the lines of all
      connections that gave the name; and the line that makes the count of all lines complete, whoever it
      is from, completes the header of the first log. */
  function OpsOf(steps: seq<Step>, dir: string, level: u8, headerLineCount: nat, name: string): seq<AccountRuns.Op> {
    if steps == [] then []
    else
      var init, last := steps[..|steps| - 1], steps[|steps| - 1];
      var before := OpsOf(init, dir, level, headerLineCount, name);
      before + OpsOfLast(init, last, dir, level, headerLineCount, name, before != [])
  }

  /** The account of a name, closed at first; only the first one has a header. */
  function AtFirst(first: Option<string>, name: string): Account {
    Closed(first == Some(name), false)
  }

  // ---- One step ----

  ghost predicate SettingsKnown(s: Server, steps: seq<Step>, dir: string, level: u8, headerLineCount: nat) {
    && (s.logLevel, s.logDir) == Settings(steps, dir, level)
    && s.totalLogLines == LinesSoFar(steps) && s.headerLineCount == headerLineCount
  }

  ghost predicate NamesKnown(s: Server, steps: seq<Step>) {
    forall id | id in s.connections && s.connections[id].phase.Authenticated? ::
      NameOf(steps, id) == Some(s.connections[id].phase.fileName)
  }

  ghost predicate FirstKnown(accounts: map<AccountHandle, NamedAccount>, steps: seq<Step>) {
    match FirstName(steps)
    case None => 0 !in accounts
    case Some(name) => 0 in accounts && accounts[0].fileName == name
  }

  /** What the server knows is what the steps tell. */
  ghost predicate Knows(s: Server, steps: seq<Step>, dir: string, level: u8, headerLineCount: nat) {
    SettingsKnown(s, steps, dir, level, headerLineCount) && NamesKnown(s, steps) && FirstKnown(s.accounts, steps)
  }

  /** The account of a name, if there is one, is what its operations made of it. */
  ghost predicate Lives(accounts: map<AccountHandle, NamedAccount>, name: string, start: Account,
                        ops: seq<AccountRuns.Op>) {
    && (forall h | h in accounts && accounts[h].fileName == name ::
          ops != [] && accounts[h].account == AccountRuns.Run(start, ops).account)
    && (ops != [] ==> exists h :: h in accounts && accounts[h].fileName == name)
  }

  lemma SettingsStayKnown(s: Server, steps: seq<Step>, dir: string, level: u8, headerLineCount: nat)
    requires steps != [] && WellRouted(s) && Enabled(s, steps[|steps| - 1])
    requires SettingsKnown(s, steps[..|steps| - 1], dir, level, headerLineCount)
    ensures SettingsKnown(Next(s, steps[|steps| - 1]), steps, dir, level, headerLineCount)
  {
    hide AccountRuns.Consistent, SetNewFile, Print, Opened, FindAccount, Without, StoreServerHeader, SelfEntries;
    hide Changed;
  }

  lemma NamesStayKnown(s: Server, steps: seq<Step>)
    requires steps != [] && Enabled(s, steps[|steps| - 1]) && NamesKnown(s, steps[..|steps| - 1])
    ensures NamesKnown(Next(s, steps[|steps| - 1]), steps)
  {
    hide SetNewFile, Print, Opened, FindAccount, Without;
  }

  lemma FirstStaysKnown(s: Server, steps: seq<Step>)
    requires steps != [] && WellRouted(s) && Enabled(s, steps[|steps| - 1])
    requires FirstKnown(s.accounts, steps[..|steps| - 1])
    ensures FirstKnown(Next(s, steps[|steps| - 1]).accounts, steps)
  {
    var last := steps[|steps| - 1];
    StepKeepsNames(s, last);
    if last.AuthSecond? {
      FindAccountFinds(s.accounts, last.fileName, 0);
    }
    hide AccountRuns.Consistent, SetNewFile, Print, Opened, FindAccount, Without;
  }

  lemma StepIsKnown(s: Server, steps: seq<Step>, dir: string, level: u8, headerLineCount: nat)
    requires steps != [] && WellRouted(s) && Enabled(s, steps[|steps| - 1])
    requires Knows(s, steps[..|steps| - 1], dir, level, headerLineCount)
    ensures Knows(Next(s, steps[|steps| - 1]), steps, dir, level, headerLineCount)
  {
    hide Next, WellRouted, SettingsKnown, NamesKnown, FirstKnown;
    SettingsStayKnown(s, steps, dir, level, headerLineCount);
    NamesStayKnown(s, steps);
    FirstStaysKnown(s, steps);
  }

  lemma RunOfOne(a: Account, op: AccountRuns.Op)
    ensures AccountRuns.Run(a, [op]) == AccountRuns.Step(a, op)
  {
    AccountRuns.LastStep(a, [op]);
    assert [op][..0] == [];
    hide AccountRuns.Step;
  }

  lemma RunOfMore(start: Account, before: seq<AccountRuns.Op>, more: seq<AccountRuns.Op>)
    ensures AccountRuns.Run(start, before + more).account
         == AccountRuns.Run(AccountRuns.Run(start, before).account, more).account
  {
    AccountRuns.RunSplits(start, before + more, |before|);
    assert (before + more)[..|before|] == before && (before + more)[|before|..] == more;
  }

  lemma OwnOfOne(e: NamedEffects, name: string)
    ensures Own([e], name) == if e.fileName == name then e.effects else []
  {
    assert [e][..0] == [];
    assert Own([], name) == [];
  }

  /** One step for the log of one name: its account goes on by the operations that the step has for it,
      and what the step does to its files is what these operations do. */
  ghost predicate GoesOn(t: Server, effects: seq<NamedEffects>, name: string, start: Account,
                         before: seq<AccountRuns.Op>, more: seq<AccountRuns.Op>)
  {
    && Lives(t.accounts, name, start, before + more)
    && Own(effects, name) == AccountRuns.Run(AccountRuns.Run(start, before).account, more).effects
  }

  // ---- A connection gives a name ----

  lemma NothingToDo(s: Server, t: Server, name: string, was: Account, start: Account, before: seq<AccountRuns.Op>)
    requires t.accounts == s.accounts && Lives(s.accounts, name, was, before) && (before != [] ==> start == was)
    ensures GoesOn(t, [], name, start, before, [])
  {
    assert before + [] == before;
  }

  /** A new account is put behind the others: one of the name, which there was not, or another one. */
  lemma NewOwnAccount(accounts: map<AccountHandle, NamedAccount>, na: NamedAccount, name: string, was: Account,
                      start: Account, before: seq<AccountRuns.Op>, more: seq<AccountRuns.Op>)
    requires HandlesAreDense(accounts) && Lives(accounts, name, was, before)
    requires name == na.fileName && forall h | h in accounts :: accounts[h].fileName != name
    requires more != [] && na.account == AccountRuns.Run(start, more).account
    ensures before == [] && Lives(accounts[|accounts| := na], name, start, before + more)
  {
    NewHandleIsNext(accounts, na);
    hide HandlesAreDense, AccountRuns.Run;
    assert before == [];
    assert before + more == more;
    assert accounts[|accounts| := na][|accounts|].fileName == name;
  }

  lemma NewOtherAccount(accounts: map<AccountHandle, NamedAccount>, na: NamedAccount, name: string, was: Account,
                        start: Account, before: seq<AccountRuns.Op>)
    requires HandlesAreDense(accounts) && Lives(accounts, name, was, before)
    requires name != na.fileName && (before != [] ==> start == was)
    ensures Lives(accounts[|accounts| := na], name, start, before)
  {
    NewHandleIsNext(accounts, na);
    hide HandlesAreDense, AccountRuns.Run;
    var t := accounts[|accounts| := na];
    if before != [] {
      var h :| h in accounts && accounts[h].fileName == name;
      assert t[h].fileName == name;
    }
  }

  lemma NewName(s: Server, fileName: string, clock: Clock, t: Server, name: string, was: Account, start: Account,
                before: seq<AccountRuns.Op>)
    requires WellRouted(s) && FindAccount(s.accounts, fileName, 0) !in s.accounts
    requires var o := Opened(s.logDir, s.logLevel, |s.accounts| == 0, clock);
             t.accounts == s.accounts[|s.accounts| := NamedAccount(fileName, o.account)]
    requires Lives(s.accounts, name, was, before) && (before != [] ==> start == was)
    requires name == fileName ==> start == Closed(|s.accounts| == 0, false)
    ensures var o := Opened(s.logDir, s.logLevel, |s.accounts| == 0, clock);
            GoesOn(t, [NamedEffects(fileName, o.effects)], name, start, before,
                   if fileName == name && before == [] then [AccountRuns.Change(s.logDir, s.logLevel, clock)] else [])
  {
    var o := Opened(s.logDir, s.logLevel, |s.accounts| == 0, clock);
    var first := AccountRuns.Change(s.logDir, s.logLevel, clock);
    FindAccountFinds(s.accounts, fileName, 0);
    OwnOfOne(NamedEffects(fileName, o.effects), name);
    RunOfOne(start, first);
    RunOfNone(start);
    RunOfNone(AccountRuns.Run(start, before).account);
    assert name == fileName ==> AccountRuns.Step(start, first) == o;
    hide AccountRuns.Step, Opened, SetNewFile, AccountRuns.Consistent, FindAccount, Own, AccountRuns.Run, Lives;
    if fileName == name {
      NewOwnAccount(s.accounts, NamedAccount(fileName, o.account), name, was, start, before, [first]);
    } else {
      NewOtherAccount(s.accounts, NamedAccount(fileName, o.account), name, was, start, before);
      assert before + [] == before;
    }
  }

  lemma RunOfNone(a: Account)
    ensures AccountRuns.Run(a, []) == Outcome(a, [])
  {
  }

  lemma FirstIsFirst(s: Server, init: seq<Step>, dir: string, level: u8, headerLineCount: nat, name: string)
    requires OnTheWay(s, init, dir, level, headerLineCount, name)
    ensures FirstName(init).None? <==> |s.accounts| == 0
    ensures OpsOf(init, dir, level, headerLineCount, name) != [] ==> FirstName(init).Some?
    ensures FirstName(init).Some? ==> 0 in s.accounts && s.accounts[0].fileName == FirstName(init).value
    ensures (s.logLevel, s.logDir) == Settings(init, dir, level)
  {
    assert 0 in s.accounts <==> |s.accounts| != 0;
    hide AccountRuns.Run, AccountRuns.Consistent, OpsOf, FirstName, NamesKnown, NamesAreDistinct;
  }

  lemma SecondGoesOn(s: Server, init: seq<Step>, last: Step, dir: string, level: u8, headerLineCount: nat, name: string)
    requires last.AuthSecond? && Enabled(s, last)
    requires OnTheWay(s, init, dir, level, headerLineCount, name)
    ensures StepGoesOn(s, init, last, dir, level, headerLineCount, name)
  {
    var first := FirstName(init);
    var was, start := AtFirst(first, name), AtFirst(FirstAfter(first, last), name);
    var before := OpsOf(init, dir, level, headerLineCount, name);
    FirstIsFirst(s, init, dir, level, headerLineCount, name);
    FindAccountFinds(s.accounts, last.fileName, 0);
    hide GoesOn, OpsOf, Opened, AccountRuns.Consistent, FindAccount, AccountRuns.Run, FirstName, Knows, Lives;
    hide NamesAreDistinct, HandlesAreHeld, AccountsFollow, Settings;
    if FindAccount(s.accounts, last.fileName, 0) in s.accounts {
      NothingToDo(s, Next(s, last), name, was, start, before);
    } else {
      NewName(s, last.fileName, last.clock, Next(s, last), name, was, start, before);
    }
  }

  // ---- A change of settings ----

  lemma {:induction false} OwnOfNone(accounts: map<AccountHandle, NamedAccount>, n: nat, dir: string, level: u8,
                                     clock: Clock, name: string)
    requires forall h | 0 <= h < n :: h in accounts && accounts[h].fileName != name
    ensures Own(ChangeEffects(accounts, n, dir, level, clock), name) == []
  {
    if n > 0 {
      OwnOfNone(accounts, n - 1, dir, level, clock, name);
      OwnOfLast(accounts, n, dir, level, clock, name);
      hide SetNewFile, Own, ChangeEffects;
    }
  }

  lemma {:induction false} OwnOfChanges(accounts: map<AccountHandle, NamedAccount>, n: nat, k: nat, dir: string,
                                        level: u8, clock: Clock, name: string)
    requires k < n && forall h | 0 <= h < n :: h in accounts && (accounts[h].fileName == name <==> h == k)
    ensures Own(ChangeEffects(accounts, n, dir, level, clock), name)
         == SetNewFile(accounts[k].account, level, dir, clock).effects
  {
    hide *;
    OwnOfLast(accounts, n, dir, level, clock, name);
    if k == n - 1 {
      OwnOfNone(accounts, k, dir, level, clock, name);
      NothingBefore(SetNewFile(accounts[k].account, level, dir, clock).effects);
    } else {
      assert accounts[n - 1].fileName != name;
      OwnOfChanges(accounts, n - 1, k, dir, level, clock, name);
    }
  }

  lemma NothingBefore(effects: seq<Effect>)
    ensures [] + effects == effects
  {
  }

  lemma OwnOfLast(accounts: map<AccountHandle, NamedAccount>, n: nat, dir: string, level: u8, clock: Clock,
                  name: string)
    requires n > 0 && n - 1 in accounts
    ensures var own := Own(ChangeEffects(accounts, n - 1, dir, level, clock), name);
            var effects := SetNewFile(accounts[n - 1].account, level, dir, clock).effects;
            Own(ChangeEffects(accounts, n, dir, level, clock), name)
            == if accounts[n - 1].fileName == name then own + effects else own
  {
    var last := NamedEffects(accounts[n - 1].fileName, SetNewFile(accounts[n - 1].account, level, dir, clock).effects);
    var before := ChangeEffects(accounts, n - 1, dir, level, clock);
    assert ChangeEffects(accounts, n, dir, level, clock) == before + [last];
    hide SetNewFile, Own, ChangeEffects;
    OwnOfConcat(before, [last], name);
    OwnOfOne(last, name);
    assert Own(before, name) + [] == Own(before, name);
  }

  /** The names stay, and an account of the name goes on. */
  lemma LivesOn(accounts: map<AccountHandle, NamedAccount>, t: map<AccountHandle, NamedAccount>, name: string,
                start: Account, before: seq<AccountRuns.Op>, more: seq<AccountRuns.Op>)
    requires Lives(accounts, name, start, before) && SameNames(accounts, t) && (more != [] ==> before != [])
    requires forall h | h in accounts && accounts[h].fileName == name ::
               t[h].account == AccountRuns.Run(AccountRuns.Run(start, before).account, more).account
    ensures Lives(t, name, start, before + more)
  {
    RunOfMore(start, before, more);
    hide AccountRuns.Run;
    if before != [] {
      var h :| h in accounts && accounts[h].fileName == name;
      assert t[h].fileName == name;
    } else {
      assert before + more == [];
    }
  }

  lemma OwnChange(accounts: map<AccountHandle, NamedAccount>, dir: string, level: u8, clock: Clock, name: string,
                  start: Account, before: seq<AccountRuns.Op>)
    requires HandlesAreDense(accounts) && NamesAreDistinct(accounts) && Lives(accounts, name, start, before)
    ensures Own(ChangeEffects(accounts, |accounts|, dir, level, clock), name)
         == if before == [] then []
            else SetNewFile(AccountRuns.Run(start, before).account, level, dir, clock).effects
  {
    hide SetNewFile, AccountRuns.Run, Own, ChangeEffects;
    if before == [] {
      OwnOfNone(accounts, |accounts|, dir, level, clock, name);
    } else {
      var k :| k in accounts && accounts[k].fileName == name;
      OwnOfChanges(accounts, |accounts|, k, dir, level, clock, name);
    }
  }

  /** Every account changes, and so the one of the name. */
  lemma AllChange(accounts: map<AccountHandle, NamedAccount>, dir: string, level: u8, clock: Clock, name: string,
                  start: Account, before: seq<AccountRuns.Op>)
    requires HandlesAreDense(accounts) && NamesAreDistinct(accounts) && Lives(accounts, name, start, before)
    ensures var t := map h | h in accounts :: Changed(accounts[h], dir, level, clock);
            var more := if before != [] then [AccountRuns.Change(dir, level, clock)] else [];
            && Lives(t, name, start, before + more)
            && Own(ChangeEffects(accounts, |accounts|, dir, level, clock), name)
               == AccountRuns.Run(AccountRuns.Run(start, before).account, more).effects
  {
    var t := map h | h in accounts :: Changed(accounts[h], dir, level, clock);
    var op := AccountRuns.Change(dir, level, clock);
    var a := AccountRuns.Run(start, before).account;
    OwnChange(accounts, dir, level, clock, name, start, before);
    RunOfOne(a, op);
    RunOfNone(a);
    hide SetNewFile, AccountRuns.Run, Own, ChangeEffects;
    LivesOn(accounts, t, name, start, before, if before != [] then [op] else []);
  }

  lemma ChangeGoesOn(s: Server, init: seq<Step>, last: Step, dir: string, level: u8, headerLineCount: nat, name: string)
    requires last.ChangeProps?
    requires OnTheWay(s, init, dir, level, headerLineCount, name)
    ensures StepGoesOn(s, init, last, dir, level, headerLineCount, name)
  {
    hide OpsOf, SetNewFile, AccountRuns.Consistent, AccountRuns.Run, Own, ChangeEffects, Lives, Knows, FirstName;
    AllChange(s.accounts, last.dir, last.level, last.clock, name, AtFirst(FirstName(init), name),
              OpsOf(init, dir, level, headerLineCount, name));
  }

  // ---- A line ----

  lemma RunOfLine(a: Account, own: bool, entry: LogEntry, complete: bool)
    requires entry.text.Line?
    ensures var more := (if own then [PrintOf(entry)] else [])
                        + (if complete then [AccountRuns.CompleteHeader] else []);
            var o := if own then Print(a, entry) else Outcome(a, []);
            AccountRuns.Run(a, more) == Outcome(if complete then StoreHeader(o.account) else o.account, o.effects)
  {
    var first, second := if own then [PrintOf(entry)] else [], if complete then [AccountRuns.CompleteHeader] else [];
    assert AccountRuns.EntryOf(PrintOf(entry)) == entry;
    RunOfNone(a);
    if own {
      RunOfOne(a, PrintOf(entry));
    }
    var o := AccountRuns.Run(a, first);
    RunOfNone(o.account);
    if complete {
      RunOfOne(o.account, AccountRuns.CompleteHeader);
    }
    AccountRuns.RunSplits(a, first + second, |first|);
    assert (first + second)[..|first|] == first && (first + second)[|first|..] == second;
    hide Print, AccountRuns.Run;
  }

  /** What a line makes of the accounts: the one it is for prints it, and the first one may complete its
      header. */
  function AfterLine(accounts: map<AccountHandle, NamedAccount>, handle: AccountHandle, entry: LogEntry, full: bool)
    : map<AccountHandle, NamedAccount>
    requires handle in accounts
  {
    var printed := accounts[handle := accounts[handle].(account := Print(accounts[handle].account, entry).account)];
    if full then StoreServerHeader(printed) else printed
  }

  lemma AccountAfterLine(accounts: map<AccountHandle, NamedAccount>, handle: AccountHandle, entry: LogEntry,
                         full: bool)
    requires handle in accounts && 0 in accounts
    ensures var t := AfterLine(accounts, handle, entry, full);
            && SameNames(accounts, t)
            && forall h | h in accounts ::
                 var a := accounts[h].account;
                 var o := if h == handle then Print(a, entry).account else a;
                 t[h].account == if full && h == 0 then StoreHeader(o) else o
  {
    hide Print, StoreHeader;
  }

  lemma OnePrints(accounts: map<AccountHandle, NamedAccount>, handle: AccountHandle, entry: LogEntry, full: bool,
                  name: string, start: Account, before: seq<AccountRuns.Op>)
    requires handle in accounts && 0 in accounts && NamesAreDistinct(accounts) && entry.text.Line?
    requires Lives(accounts, name, start, before)
    ensures var own := accounts[handle].fileName == name;
            var more := (if own then [PrintOf(entry)] else [])
                        + (if full && accounts[0].fileName == name then [AccountRuns.CompleteHeader] else []);
            && Lives(AfterLine(accounts, handle, entry, full), name, start, before + more)
            && (if own then Print(accounts[handle].account, entry).effects else [])
               == AccountRuns.Run(AccountRuns.Run(start, before).account, more).effects
  {
    var own, complete := accounts[handle].fileName == name, full && accounts[0].fileName == name;
    var a := AccountRuns.Run(start, before).account;
    var more := (if own then [PrintOf(entry)] else []) + (if complete then [AccountRuns.CompleteHeader] else []);
    var t := AfterLine(accounts, handle, entry, full);
    RunOfLine(a, own, entry, complete);
    AccountAfterLine(accounts, handle, entry, full);
    assert own || complete ==> before != [];
    hide Print, StoreHeader, AccountRuns.Run, AfterLine;
    LivesOn(accounts, t, name, start, before, more);
  }

  /** What a line does to the server. */
  lemma WhoseLine(s: Server, init: seq<Step>, last: Step, dir: string, level: u8, headerLineCount: nat)
    requires last.Log? && Enabled(s, last) && WellRouted(s) && Knows(s, init, dir, level, headerLineCount)
    ensures var handle := s.connections[last.id].phase.handle;
            && handle in s.accounts && 0 in s.accounts && NamesAreDistinct(s.accounts)
            && NameOf(init, last.id) == Some(s.accounts[handle].fileName)
            && FirstName(init) == Some(s.accounts[0].fileName)
            && Next(s, last).accounts
               == AfterLine(s.accounts, handle, last.entry, LinesSoFar(init) + 1 == headerLineCount)
            && Effects(s, last) == [NamedEffects(s.accounts[handle].fileName,
                                                 Print(s.accounts[handle].account, last.entry).effects)]
  {
    hide Print, StoreServerHeader, AccountRuns.Consistent, NamesAreDistinct;
  }

  lemma LogGoesOn(s: Server, init: seq<Step>, last: Step, dir: string, level: u8, headerLineCount: nat, name: string)
    requires last.Log? && Enabled(s, last)
    requires OnTheWay(s, init, dir, level, headerLineCount, name)
    ensures StepGoesOn(s, init, last, dir, level, headerLineCount, name)
  {
    hide WellRouted, Knows, OpsOf, Print, AccountRuns.Run, Own, Lives, AfterLine, Next, Effects, NameOf;
    hide FirstName, LinesSoFar, NamesAreDistinct;
    WhoseLine(s, init, last, dir, level, headerLineCount);
    var handle := s.connections[last.id].phase.handle;
    OnePrints(s.accounts, handle, last.entry, LinesSoFar(init) + 1 == headerLineCount, name,
              AtFirst(FirstName(init), name), OpsOf(init, dir, level, headerLineCount, name));
    OwnOfOne(NamedEffects(s.accounts[handle].fileName, Print(s.accounts[handle].account, last.entry).effects), name);
  }

  lemma OtherGoesOn(s: Server, init: seq<Step>, last: Step, dir: string, level: u8, headerLineCount: nat, name: string)
    requires !last.AuthSecond? && !last.ChangeProps? && !last.Log? && Enabled(s, last)
    requires OnTheWay(s, init, dir, level, headerLineCount, name)
    ensures StepGoesOn(s, init, last, dir, level, headerLineCount, name)
  {
    var start := AtFirst(FirstName(init), name);
    hide OpsOf, Lives, GoesOn, WellRouted, Knows, Without, FirstName;
    NothingToDo(s, Next(s, last), name, start, start, OpsOf(init, dir, level, headerLineCount, name));
  }

  // ---- Runs ----

  ghost predicate OnTheWay(s: Server, steps: seq<Step>, dir: string, level: u8, headerLineCount: nat, name: string) {
    && WellRouted(s) && Knows(s, steps, dir, level, headerLineCount)
    && Lives(s.accounts, name, AtFirst(FirstName(steps), name), OpsOf(steps, dir, level, headerLineCount, name))
  }

  ghost predicate StepGoesOn(s: Server, init: seq<Step>, last: Step, dir: string, level: u8, headerLineCount: nat,
                             name: string)
    requires Enabled(s, last)
  {
    var first, before := FirstName(init), OpsOf(init, dir, level, headerLineCount, name);
    && (before != [] ==> AtFirst(FirstAfter(first, last), name) == AtFirst(first, name))
    && GoesOn(Next(s, last), Effects(s, last), name, AtFirst(FirstAfter(first, last), name), before,
              OpsOfLast(init, last, dir, level, headerLineCount, name, before != []))
  }

  lemma OneStepFurther(s: Server, init: seq<Step>, last: Step, dir: string, level: u8, headerLineCount: nat,
                       name: string)
    requires Enabled(s, last) && OnTheWay(s, init, dir, level, headerLineCount, name)
    ensures StepGoesOn(s, init, last, dir, level, headerLineCount, name)
  {
    hide StepGoesOn, OnTheWay, Enabled;
    match last {
      case AuthSecond(_, _, _) => SecondGoesOn(s, init, last, dir, level, headerLineCount, name);
      case ChangeProps(_, _, _) => ChangeGoesOn(s, init, last, dir, level, headerLineCount, name);
      case Log(_, _) => LogGoesOn(s, init, last, dir, level, headerLineCount, name);
      case _ => OtherGoesOn(s, init, last, dir, level, headerLineCount, name);
    }
  }

  lemma StaysOnTheWay(s: Server, steps: seq<Step>, dir: string, level: u8, headerLineCount: nat, name: string)
    requires steps != [] && Enabled(s, steps[|steps| - 1])
    requires OnTheWay(s, steps[..|steps| - 1], dir, level, headerLineCount, name)
    requires StepGoesOn(s, steps[..|steps| - 1], steps[|steps| - 1], dir, level, headerLineCount, name)
    ensures OnTheWay(Next(s, steps[|steps| - 1]), steps, dir, level, headerLineCount, name)
  {
    hide WellRouted, Knows, Lives, Next, Enabled, Own, AccountRuns.Run, OpsOfLast, Effects;
    StepIsKnown(s, steps, dir, level, headerLineCount);
    StepKeepsRouting(s, steps[|steps| - 1]);
  }

  /** The last step of a run. */
  lemma RunOfLast(s: Server, steps: seq<Step>)
    requires steps != [] && Legal(s, steps)
    ensures var init, last := steps[..|steps| - 1], steps[|steps| - 1];
            && Legal(s, init) && Enabled(Reach(s, init), last) && Reach(s, steps) == Next(Reach(s, init), last)
            && RunEffects(s, steps) == RunEffects(s, init) + Effects(Reach(s, init), last)
  {
    var n := |steps| - 1;
    ReachSplits(s, steps, n);
    EffectsSplit(s, steps, n);
    var t, end := Reach(s, steps[..n]), steps[n..];
    FirstStep(t, end);
    hide Next, Effects, Enabled;
    assert end[1..] == [] && end[0] == steps[n];
    assert Effects(t, end[0]) + [] == Effects(t, end[0]);
  }

  lemma {:induction false} RunIsOnTheWay(logDir: string, logLevel: u8, headerLineCount: nat, steps: seq<Step>,
                                         name: string)
    requires Legal(Started(logDir, logLevel, headerLineCount), steps)
    ensures var start := Started(logDir, logLevel, headerLineCount);
            && OnTheWay(Reach(start, steps), steps, logDir, logLevel, headerLineCount, name)
            && Own(RunEffects(start, steps), name)
               == AccountRuns.Run(AtFirst(FirstName(steps), name),
                                  OpsOf(steps, logDir, logLevel, headerLineCount, name)).effects
    decreases |steps|
  {
    var start := Started(logDir, logLevel, headerLineCount);
    if steps != [] {
      var init, last := steps[..|steps| - 1], steps[|steps| - 1];
      RunOfLast(start, steps);
      RunIsOnTheWay(logDir, logLevel, headerLineCount, init, name);
      var s := Reach(start, init);
      hide OnTheWay, StepGoesOn, Next, Enabled, Legal, Reach, RunEffects, Effects, Started;
      OneStepFurther(s, init, last, logDir, logLevel, headerLineCount, name);
      StaysOnTheWay(s, steps, logDir, logLevel, headerLineCount, name);
      EffectsOneMore(s, steps, logDir, logLevel, headerLineCount, name, RunEffects(start, init));
    }
  }

  lemma EffectsOneMore(s: Server, steps: seq<Step>, dir: string, level: u8, headerLineCount: nat, name: string,
                       past: seq<NamedEffects>)
    requires steps != [] && Enabled(s, steps[|steps| - 1])
    requires StepGoesOn(s, steps[..|steps| - 1], steps[|steps| - 1], dir, level, headerLineCount, name)
    requires var init := steps[..|steps| - 1];
             var before := OpsOf(init, dir, level, headerLineCount, name);
             Own(past, name) == AccountRuns.Run(AtFirst(FirstName(init), name), before).effects
    ensures var ops := OpsOf(steps, dir, level, headerLineCount, name);
            Own(past + Effects(s, steps[|steps| - 1]), name)
            == AccountRuns.Run(AtFirst(FirstName(steps), name), ops).effects
  {
    var init, last := steps[..|steps| - 1], steps[|steps| - 1];
    var before := OpsOf(init, dir, level, headerLineCount, name);
    var more := OpsOfLast(init, last, dir, level, headerLineCount, name, before != []);
    var start := AtFirst(FirstName(steps), name);
    assert OpsOf(steps, dir, level, headerLineCount, name) == before + more;
    assert (before + more)[..|before|] == before && (before + more)[|before|..] == more;
    hide Next, Effects, Enabled, Own, AccountRuns.Run, OpsOf, OpsOfLast, Lives, AtFirst;
    OwnOfConcat(past, Effects(s, last), name);
    RunOfNone(AtFirst(FirstName(init), name));
    RunOfNone(start);
    AccountRuns.RunSplits(start, before + more, |before|);
  }

  /** Over every run of the server, however connections, lines and changes interleave, all that is done to
      the log of a name is what one account does over the operations that the run has for it; and that
      account is the one the server holds. */
  lemma EveryLogIsOneAccount(logDir: string, logLevel: u8, headerLineCount: nat, steps: seq<Step>, name: string)
    requires Legal(Started(logDir, logLevel, headerLineCount), steps)
    ensures var start := Started(logDir, logLevel, headerLineCount);
            var accounts := Reach(start, steps).accounts;
            var ops := OpsOf(steps, logDir, logLevel, headerLineCount, name);
            var o := AccountRuns.Run(AtFirst(FirstName(steps), name), ops);
            && Own(RunEffects(start, steps), name) == o.effects
            && (ops != [] <==> exists h :: h in accounts && accounts[h].fileName == name)
            && (forall h | h in accounts && accounts[h].fileName == name :: accounts[h].account == o.account)
  {
    RunIsOnTheWay(logDir, logLevel, headerLineCount, steps, name);
  }

  /** So the steps alone tell every log on the volume, to the last record: each slot is as if the log had
      been alone, and been done what the operations tell. */
  lemma EveryLogIsTold(files: Files, logDir: string, logLevel: u8, headerLineCount: nat, steps: seq<Step>,
                       name: string)
    requires Legal(Started(logDir, logLevel, headerLineCount), steps)
    ensures var ops := OpsOf(steps, logDir, logLevel, headerLineCount, name);
            var trace := AccountHistory.Told(FirstName(steps) == Some(name), false, ops);
            && Own(RunEffects(Started(logDir, logLevel, headerLineCount), steps), name) == trace
            && SameLogs(Volume(files, Started(logDir, logLevel, headerLineCount), steps),
                        Replay(files, name, trace), name)
  {
    var start := Started(logDir, logLevel, headerLineCount);
    EveryLogIsOneAccount(logDir, logLevel, headerLineCount, steps, name);
    AccountHistory.RunIsTold(FirstName(steps) == Some(name), false,
                             OpsOf(steps, logDir, logLevel, headerLineCount, name));
    VolumeIsReplay(files, start, steps);
    LogsAreTheirOwn(files, RunEffects(start, steps), name);
  }

  // ---- Where a connection is ----

  datatype Place = NoList | FirstList | SecondList

  /** The last step of a connection says where it is. */
  function PlaceOf(steps: seq<Step>, id: ConnId): Place {
    if steps == [] then NoList else PlaceAfter(PlaceOf(steps[..|steps| - 1], id), steps[|steps| - 1], id)
  }

  function PlaceAfter(before: Place, last: Step, id: ConnId): Place {
    match last
    case NewConnection(other) => if other == id then FirstList else before
    case AuthFirst(other) => if other == id then NoList else before
    case AuthSecond(other, _, _) => if other == id then SecondList else before
    case AuthFailed(other) => if other == id then NoList else before
    case Disconnect(other) => if other == id then NoList else before
    case _ => before
  }

  ghost predicate PlaceIs(s: Server, id: ConnId, place: Place) {
    && (place.FirstList? <==> id in s.connections && s.connections[id].phase.Connecting?)
    && (place.SecondList? <==> id in s.connections && s.connections[id].phase.Authenticated?)
  }

  /** A step of another connection, a line and a change of settings keep its phase. */
  lemma OthersKeepItsPhase(s: Server, last: Step, id: ConnId)
    requires Enabled(s, last) && (last.ChangeProps? || last.Log? || last.id != id)
    ensures var t := Next(s, last);
            && (id in t.connections <==> id in s.connections)
            && (id in s.connections ==> t.connections[id].phase == s.connections[id].phase)
  {
    hide SetNewFile, Print, Opened, FindAccount, Without, StoreServerHeader, SelfEntries, Changed;
  }

  lemma ItsOwnPhase(s: Server, last: Step, id: ConnId)
    requires Enabled(s, last) && !last.ChangeProps? && !last.Log? && last.id == id
    ensures var t := Next(s, last);
            && id in t.connections
            && (t.connections[id].phase.Connecting? <==> last.NewConnection?)
            && (t.connections[id].phase.Authenticated? <==> last.AuthSecond?)
  {
    hide SetNewFile, Print, Opened, FindAccount, Without, StoreServerHeader, SelfEntries, Changed;
  }

  lemma PlaceStays(s: Server, last: Step, id: ConnId, before: Place)
    requires Enabled(s, last) && PlaceIs(s, id, before)
    ensures PlaceIs(Next(s, last), id, PlaceAfter(before, last, id))
  {
    hide Next, Enabled;
    if last.ChangeProps? || last.Log? || last.id != id {
      OthersKeepItsPhase(s, last, id);
    } else {
      ItsOwnPhase(s, last, id);
    }
  }

  lemma {:induction false} PlacesOverRuns(s: Server, steps: seq<Step>, id: ConnId)
    requires Legal(s, steps) && s.connections == map[]
    ensures PlaceIs(Reach(s, steps), id, PlaceOf(steps, id))
    decreases |steps|
  {
    if steps != [] {
      RunOfLast(s, steps);
      PlacesOverRuns(s, steps[..|steps| - 1], id);
      hide PlaceIs, PlaceAfter, Legal, Reach, Next, Enabled;
      PlaceStays(Reach(s, steps[..|steps| - 1]), steps[|steps| - 1], id, PlaceOf(steps[..|steps| - 1], id));
    }
  }

  /** Over every run a connection is on the first list from its coming to its authentication, good or bad,
      on the second from there on, and on none when it is gone, is refused or is between the two. */
  lemma ListsAreTold(logDir: string, logLevel: u8, headerLineCount: nat, steps: seq<Step>, id: ConnId)
    requires Legal(Started(logDir, logLevel, headerLineCount), steps)
    ensures var s := Reach(Started(logDir, logLevel, headerLineCount), steps);
            && (id in s.notAuthenticated <==> PlaceOf(steps, id).FirstList?)
            && (id in s.authenticated <==> PlaceOf(steps, id).SecondList?)
  {
    RunKeepsLists(Started(logDir, logLevel, headerLineCount), steps);
    PlacesOverRuns(Started(logDir, logLevel, headerLineCount), steps, id);
  }
}
