/** Properties of the log server over all interleavings. */
module LogServerRuns {
  import opened Wrappers
  import opened LogRecords
  import opened LogFiles
  import opened AccountModel
  import AccountRuns
  import opened LogServerModel

  // ---- The connection lists ----

  ghost predicate NoDuplicates(s: seq<ConnId>) {
    s == [] || (s[0] !in s[1..] && NoDuplicates(s[1..]))
  }

  ghost predicate ListedExactly(list: seq<ConnId>, connections: map<ConnId, Connection>, phase: Phase -> bool) {
    NoDuplicates(list) && forall id :: id in list <==> id in connections && phase(connections[id].phase)
  }

  /** A connection is in a list exactly when its thread is in the phase that belongs to the list. */
  ghost predicate ListsFollowPhases(s: Server) {
    && ListedExactly(s.notAuthenticated, s.connections, (p: Phase) => p.Connecting?)
    && ListedExactly(s.authenticated, s.connections, (p: Phase) => p.Authenticated?)
  }

  lemma {:induction false} WithoutRemoves(s: seq<ConnId>, id: ConnId, x: ConnId)
    requires NoDuplicates(s)
    ensures x in Without(s, id) <==> x in s && x != id
  {
    if s != [] {
      WithoutRemoves(s[1..], id, x);
      assert x in s <==> x == s[0] || x in s[1..];
    }
  }

  lemma {:induction false} WithoutKeepsNoDuplicates(s: seq<ConnId>, id: ConnId)
    requires NoDuplicates(s)
    ensures NoDuplicates(Without(s, id))
  {
    if s != [] && s[0] != id {
      WithoutKeepsNoDuplicates(s[1..], id);
      WithoutRemoves(s[1..], id, s[0]);
      assert Without(s, id)[1..] == Without(s[1..], id);
    }
  }

  lemma {:induction false} AppendKeepsNoDuplicates(s: seq<ConnId>, id: ConnId)
    requires NoDuplicates(s) && id !in s
    ensures NoDuplicates(s + [id])
  {
    if s != [] {
      AppendKeepsNoDuplicates(s[1..], id);
      assert (s + [id])[1..] == s[1..] + [id];
    }
  }

  lemma WithoutAll(s: seq<ConnId>, id: ConnId)
    requires NoDuplicates(s)
    ensures NoDuplicates(Without(s, id))
    ensures forall x :: x in Without(s, id) <==> x in s && x != id
  {
    WithoutKeepsNoDuplicates(s, id);
    forall x
      ensures x in Without(s, id) <==> x in s && x != id
    {
      WithoutRemoves(s, id, x);
    }
  }

  /** One connection enters or leaves a phase, and with it a list. */
  lemma MoveKeepsListed(list: seq<ConnId>, connections: map<ConnId, Connection>, phase: Phase -> bool,
                        id: ConnId, c: Connection)
    requires ListedExactly(list, connections, phase)
    ensures phase(c.phase) && id !in list ==> ListedExactly(list + [id], connections[id := c], phase)
    ensures phase(c.phase) && id in list ==> ListedExactly(list, connections[id := c], phase)
    ensures !phase(c.phase) && id !in list ==> ListedExactly(list, connections[id := c], phase)
    ensures !phase(c.phase) ==> ListedExactly(Without(list, id), connections[id := c], phase)
  {
    WithoutAll(list, id);
    if id !in list {
      AppendKeepsNoDuplicates(list, id);
    }
  }

  lemma StepKeepsLists(s: Server, step: Step)
    requires ListsFollowPhases(s) && Enabled(s, step)
    ensures ListsFollowPhases(Next(s, step))
  {
    if !step.ChangeProps? && !step.Log? {
      var c := Next(s, step).connections[step.id];
      MoveKeepsListed(s.notAuthenticated, s.connections, (p: Phase) => p.Connecting?, step.id, c);
      MoveKeepsListed(s.authenticated, s.connections, (p: Phase) => p.Authenticated?, step.id, c);
    }
  }

  lemma {:induction false} RunKeepsLists(s: Server, steps: seq<Step>)
    requires ListsFollowPhases(s) && Legal(s, steps)
    ensures ListsFollowPhases(Reach(s, steps))
    decreases |steps|
  {
    if steps != [] {
      StepKeepsLists(s, steps[0]);
      RunKeepsLists(Next(s, steps[0]), steps[1..]);
    }
  }

  /** Over all interleavings a connection is in at most one list, at most once, and in none once it
      is disconnected. */
  lemma ConnectionInOneList(logDir: string, logLevel: u8, headerLineCount: nat, steps: seq<Step>, id: ConnId)
    requires Legal(Started(logDir, logLevel, headerLineCount), steps)
    ensures var s := Reach(Started(logDir, logLevel, headerLineCount), steps);
            && multiset(s.notAuthenticated + s.authenticated)[id] <= 1
            && (In(s, id, Gone) ==> id !in s.notAuthenticated && id !in s.authenticated)
  {
    RunKeepsLists(Started(logDir, logLevel, headerLineCount), steps);
    var s := Reach(Started(logDir, logLevel, headerLineCount), steps);
    OccursOnce(s.notAuthenticated, id);
    OccursOnce(s.authenticated, id);
  }

  lemma {:induction false} OccursOnce(s: seq<ConnId>, id: ConnId)
    requires NoDuplicates(s)
    ensures multiset(s)[id] == if id in s then 1 else 0
  {
    if s != [] {
      OccursOnce(s[1..], id);
      assert s == [s[0]] + s[1..];
    }
  }

  // ---- The level of a connection ----

  ghost predicate Listed(s: Server, id: ConnId) {
    id in s.notAuthenticated || id in s.authenticated
  }

  ghost predicate InSync(s: Server, id: ConnId) {
    id in s.connections && s.connections[id].level == s.logLevel
  }

  ghost predicate Alive(s: Server, id: ConnId) {
    id in s.connections && !s.connections[id].phase.Refused? && !s.connections[id].phase.Gone?
  }

  /** The levels that one connection is given: the server's when it comes, then that of each change while
      it is in a list. */
  ghost function GivenBy(s: Server, step: Step, id: ConnId): seq<u8> {
    match step
    case NewConnection(came) => if came == id then [s.logLevel] else []
    case ChangeProps(_, level, _) => if Listed(s, id) then [level] else []
    case _ => []
  }

  ghost function LevelsGiven(s: Server, steps: seq<Step>, id: ConnId): seq<u8>
    requires Legal(s, steps)
    decreases |steps|
  {
    if steps == [] then [] else GivenBy(s, steps[0], id) + LevelsGiven(Next(s, steps[0]), steps[1..], id)
  }

  /** The last of them. */
  ghost function Given(s: Server, step: Step, id: ConnId, before: u8): u8 {
    var now := GivenBy(s, step, id);
    if now == [] then before else now[0]
  }

  ghost function LastGiven(s: Server, steps: seq<Step>, id: ConnId, before: u8): u8
    requires Legal(s, steps)
    decreases |steps|
  {
    if steps == [] then before
    else LastGiven(Next(s, steps[0]), steps[1..], id, Given(s, steps[0], id, before))
  }

  lemma {:induction false} LastGivenIsTheLast(s: Server, steps: seq<Step>, id: ConnId, before: u8)
    requires Legal(s, steps)
    ensures var levels := [before] + LevelsGiven(s, steps, id);
            LastGiven(s, steps, id, before) == levels[|levels| - 1]
    decreases |steps|
  {
    if steps != [] {
      LastGivenIsTheLast(Next(s, steps[0]), steps[1..], id, Given(s, steps[0], id, before));
    }
  }

  /** Since the connection came, the last change of settings fell between its own two critical sections. */
  ghost predicate MissedOne(s: Server, step: Step, id: ConnId, before: bool) {
    match step
    case NewConnection(came) => before && came != id
    case ChangeProps(_, _, _) => In(s, id, Between)
    case _ => before
  }

  ghost predicate MissedTheLast(s: Server, steps: seq<Step>, id: ConnId, before: bool)
    requires Legal(s, steps)
    decreases |steps|
  {
    if steps == [] then before
    else MissedTheLast(Next(s, steps[0]), steps[1..], id, MissedOne(s, steps[0], id, before))
  }

  lemma {:induction false} LevelIsLastGiven(s: Server, steps: seq<Step>, id: ConnId, before: u8)
    requires ListsFollowPhases(s) && Legal(s, steps)
    requires id in s.connections ==> s.connections[id].level == before
    ensures var t := Reach(s, steps);
            id in t.connections ==> t.connections[id].level == LastGiven(s, steps, id, before)
    decreases |steps|
  {
    if steps != [] {
      StepKeepsLists(s, steps[0]);
      StepGives(s, steps[0], id);
      hide ListsFollowPhases, Given;
      var now := Given(s, steps[0], id, before);
      LevelIsLastGiven(Next(s, steps[0]), steps[1..], id, now);
    }
  }

  lemma StepGives(s: Server, step: Step, id: ConnId)
    requires ListsFollowPhases(s) && Enabled(s, step)
    ensures var t := Next(s, step);
            id in t.connections ==>
              t.connections[id].level == Given(s, step, id, if id in s.connections then s.connections[id].level else 0)
    ensures id !in s.connections && id in Next(s, step).connections ==> step.NewConnection? && step.id == id
  {
  }

  lemma StepKeepsSync(s: Server, step: Step, id: ConnId, missed: bool)
    requires ListsFollowPhases(s) && Enabled(s, step)
    requires Alive(s, id) && !missed ==> InSync(s, id)
    ensures Alive(Next(s, step), id) && !MissedOne(s, step, id, missed) ==> InSync(Next(s, step), id)
  {
    var t := Next(s, step);
    if Alive(t, id) && !MissedOne(s, step, id, missed) {
      assert (step.NewConnection? && id == step.id) || Alive(s, id);
      assert step.ChangeProps? ==> Listed(s, id);
    }
  }

  lemma {:induction false} RunKeepsSync(s: Server, steps: seq<Step>, id: ConnId, missed: bool)
    requires ListsFollowPhases(s) && Legal(s, steps)
    requires Alive(s, id) && !missed ==> InSync(s, id)
    ensures Alive(Reach(s, steps), id) && !MissedTheLast(s, steps, id, missed) ==> InSync(Reach(s, steps), id)
    decreases |steps|
  {
    if steps != [] {
      StepKeepsSync(s, steps[0], id, missed);
      StepKeepsLists(s, steps[0]);
      hide ListsFollowPhases, MissedOne, InSync, Alive;
      RunKeepsSync(Next(s, steps[0]), steps[1..], id, MissedOne(s, steps[0], id, missed));
    }
  }

  /** Over every run, a listed connection holds the server's current level exactly when that is the level
      it was last given; and it does whenever the last change of settings since it came did not fall
      between its own two critical sections, whatever the other connections were doing. */
  lemma ListedConnectionsInSync(logDir: string, logLevel: u8, headerLineCount: nat, steps: seq<Step>, id: ConnId)
    requires Legal(Started(logDir, logLevel, headerLineCount), steps)
    ensures var s := Started(logDir, logLevel, headerLineCount);
            var t := Reach(s, steps);
            Listed(t, id) ==>
              && (InSync(t, id) <==> LastGiven(s, steps, id, 0) == t.logLevel)
              && (!MissedTheLast(s, steps, id, false) ==> InSync(t, id))
  {
    var s := Started(logDir, logLevel, headerLineCount);
    RunKeepsSync(s, steps, id, false);
    RunKeepsLists(s, steps);
    LevelIsLastGiven(s, steps, id, 0);
  }

  /** The condition is needed, exactly: whatever the others do while a connection is between the
      sections, it comes out in sync if and only if the server's level is then again the one the
      connection went in with. */
  lemma {:induction false} BetweenIsMissed(s: Server, id: ConnId, others: seq<Step>, fileName: string, clock: Clock)
    requires ListsFollowPhases(s) && In(s, id, Between) && Legal(s, others)
    requires forall i | 0 <= i < |others| :: !(others[i].AuthSecond? && others[i].id == id)
    ensures var t := Reach(s, others);
            && In(t, id, Between)
            && t.connections[id].level == s.connections[id].level
            && (InSync(Next(t, AuthSecond(id, fileName, clock)), id) <==> t.logLevel == s.connections[id].level)
    decreases |others|
  {
    if others != [] {
      StepKeepsLists(s, others[0]);
      var t := Next(s, others[0]);
      assert In(t, id, Between) && t.connections[id].level == s.connections[id].level;
      BetweenIsMissed(t, id, others[1..], fileName, clock);
    }
  }

  /** A later change of settings brings every listed connection back into line. */
  lemma ChangeResynchronizes(s: Server, dir: string, level: u8, clock: Clock, id: ConnId)
    requires ListsFollowPhases(s) && Listed(s, id)
    ensures InSync(Next(s, ChangeProps(dir, level, clock)), id)
  {
  }

  // ---- Accounts and routing ----

  ghost predicate HandlesAreDense(accounts: map<AccountHandle, NamedAccount>) {
    forall h :: h in accounts <==> 0 <= h < |accounts|
  }

  ghost predicate NamesAreDistinct(accounts: map<AccountHandle, NamedAccount>) {
    forall h, k | h in accounts && k in accounts && accounts[h].fileName == accounts[k].fileName :: h == k
  }

  /** Every authenticated connection holds the handle of the account it named. */
  ghost predicate HandlesAreHeld(s: Server) {
    forall id | id in s.connections && s.connections[id].phase.Authenticated? ::
      var p := s.connections[id].phase; p.handle in s.accounts && s.accounts[p.handle].fileName == p.fileName
  }

  ghost predicate Follows(a: Account, dir: string, level: u8) {
    AccountRuns.Consistent(a) && a.level == level && a.dir == dir
  }

  ghost predicate AccountsFollow(accounts: map<AccountHandle, NamedAccount>, dir: string, level: u8) {
    forall h | h in accounts :: Follows(accounts[h].account, dir, level)
  }

  /** Handles are exactly 0..n-1, one file name each, held by the connections that named it, and
      every account has the server's settings. */
  ghost predicate WellRouted(s: Server) {
    && HandlesAreDense(s.accounts) && NamesAreDistinct(s.accounts)
    && HandlesAreHeld(s) && AccountsFollow(s.accounts, s.logDir, s.logLevel)
  }

  lemma {:induction false} FindAccountFinds(accounts: map<AccountHandle, NamedAccount>, fileName: string, h: nat)
    requires HandlesAreDense(accounts) && h <= |accounts|
    ensures var r := FindAccount(accounts, fileName, h);
            && h <= r <= |accounts|
            && (r < |accounts| ==> accounts[r].fileName == fileName)
            && (forall k | h <= k < r :: accounts[k].fileName != fileName)
    decreases |accounts| - h
  {
    if h < |accounts| && accounts[h].fileName != fileName {
      FindAccountFinds(accounts, fileName, h + 1);
    }
  }

  lemma OpenedFollows(dir: string, level: u8, headEnabled: bool, clock: Clock)
    ensures var a := Opened(dir, level, headEnabled, clock).account;
            Follows(a, dir, level) && a.buffers == NewBuffers(headEnabled, false)
  {
  }

  lemma PrintFollows(a: Account, e: LogEntry, dir: string, level: u8)
    requires Follows(a, dir, level)
    ensures Follows(Print(a, e).account, dir, level) && Follows(StoreHeader(a), dir, level)
  {
  }

  /** Names and handles depend on the file names only. */
  ghost predicate SameNames(a: map<AccountHandle, NamedAccount>, b: map<AccountHandle, NamedAccount>) {
    a.Keys == b.Keys && forall h | h in a :: a[h].fileName == b[h].fileName
  }

  lemma SameNamesKeepRouting(a: map<AccountHandle, NamedAccount>, b: map<AccountHandle, NamedAccount>)
    requires HandlesAreDense(a) && NamesAreDistinct(a) && SameNames(a, b)
    ensures HandlesAreDense(b) && NamesAreDistinct(b)
  {
    assert |a| == |a.Keys| && |b| == |b.Keys|;
  }

  lemma NewHandleIsNext(a: map<AccountHandle, NamedAccount>, na: NamedAccount)
    requires HandlesAreDense(a)
    ensures |a| !in a && HandlesAreDense(a[|a| := na])
  {
    var b := a[|a| := na];
    assert b.Keys == a.Keys + {|a|};
    assert |b| == |a| + 1;
    assert forall h :: h in b <==> h in a || h == |a|;
  }

  lemma NewNameKeepsRouting(a: map<AccountHandle, NamedAccount>, na: NamedAccount)
    requires HandlesAreDense(a) && NamesAreDistinct(a)
    requires forall h | h in a :: a[h].fileName != na.fileName
    ensures HandlesAreDense(a[|a| := na]) && NamesAreDistinct(a[|a| := na])
  {
    NewHandleIsNext(a, na);
    hide HandlesAreDense;
    var b := a[|a| := na];
    forall h, k | h in b && k in b && b[h].fileName == b[k].fileName
      ensures h == k
    {
      assert h == |a| || (h in a && b[h] == a[h]);
      assert k == |a| || (k in a && b[k] == a[k]);
    }
  }

  /** No account is ever renamed or dropped. */
  ghost predicate NamesKept(a: map<AccountHandle, NamedAccount>, b: map<AccountHandle, NamedAccount>) {
    forall h | h in a :: h in b && b[h].fileName == a[h].fileName
  }

  lemma HeldAfterSecond(s: Server, id: ConnId, fileName: string, h: AccountHandle,
                        accounts: map<AccountHandle, NamedAccount>)
    requires HandlesAreHeld(s) && In(s, id, Between) && NamesKept(s.accounts, accounts)
    requires h in accounts && accounts[h].fileName == fileName
    ensures HandlesAreHeld(s.(authenticated := s.authenticated + [id], accounts := accounts,
                              connections := Move(s, id, Authenticated(h, fileName))))
  {
  }

  lemma SecondKeepsRouting(s: Server, id: ConnId, fileName: string, clock: Clock)
    requires WellRouted(s) && In(s, id, Between)
    ensures WellRouted(Next(s, AuthSecond(id, fileName, clock)))
  {
    hide FindAccount, Opened, Without, AccountRuns.Consistent;
    var h := FindAccount(s.accounts, fileName, 0);
    var o := Opened(s.logDir, s.logLevel, |s.accounts| == 0, clock).account;
    FindAccountFinds(s.accounts, fileName, 0);
    var t := Next(s, AuthSecond(id, fileName, clock));
    assert t.accounts == if h in s.accounts then s.accounts else s.accounts[|s.accounts| := NamedAccount(fileName, o)];
    assert t == s.(authenticated := s.authenticated + [id], accounts := t.accounts,
                   connections := Move(s, id, Authenticated(h, fileName)));
    hide Next, Move;
    HeldAfterSecond(s, id, fileName, h, t.accounts);
    if h !in s.accounts {
      OpenedFollows(s.logDir, s.logLevel, |s.accounts| == 0, clock);
      NewNameKeepsRouting(s.accounts, NamedAccount(fileName, o));
    }
  }

  lemma ChangeKeepsRouting(s: Server, dir: string, level: u8, clock: Clock)
    requires WellRouted(s)
    ensures WellRouted(Next(s, ChangeProps(dir, level, clock)))
  {
    var t := Next(s, ChangeProps(dir, level, clock));
    SameNamesKeepRouting(s.accounts, t.accounts);
    forall h | h in t.accounts
      ensures Follows(t.accounts[h].account, dir, level)
    {
      AccountRuns.ChangeKeepsConsistent(s.accounts[h].account, level, dir, clock);
    }
  }

  lemma LogKeepsRouting(s: Server, id: ConnId, entry: LogEntry)
    requires WellRouted(s) && Enabled(s, Log(id, entry))
    ensures WellRouted(Next(s, Log(id, entry)))
  {
    hide AccountModel.Print, AccountRuns.Consistent;
    var t := Next(s, Log(id, entry));
    SameNamesKeepRouting(s.accounts, t.accounts);
    forall h | h in t.accounts
      ensures Follows(t.accounts[h].account, s.logDir, s.logLevel)
    {
      var a := s.accounts[h].account;
      PrintFollows(a, entry, s.logDir, s.logLevel);
      PrintFollows(Print(a, entry).account, entry, s.logDir, s.logLevel);
    }
  }

  lemma StepKeepsRouting(s: Server, step: Step)
    requires WellRouted(s) && Enabled(s, step)
    ensures WellRouted(Next(s, step))
  {
    match step
    case AuthSecond(id, fileName, clock) => SecondKeepsRouting(s, id, fileName, clock);
    case ChangeProps(dir, level, clock) => ChangeKeepsRouting(s, dir, level, clock);
    case Log(id, entry) => LogKeepsRouting(s, id, entry);
    case _ =>
  }

  lemma StepKeepsNames(s: Server, step: Step)
    requires Enabled(s, step)
    ensures NamesKept(s.accounts, Next(s, step).accounts)
  {
  }

  lemma {:induction false} RunKeepsRouting(s: Server, steps: seq<Step>)
    requires WellRouted(s) && Legal(s, steps)
    ensures var t := Reach(s, steps);
            WellRouted(t) && NamesKept(s.accounts, t.accounts)
    decreases |steps|
  {
    if steps != [] {
      StepKeepsRouting(s, steps[0]);
      StepKeepsNames(s, steps[0]);
      RunKeepsRouting(Next(s, steps[0]), steps[1..]);
    }
  }

  /** Every line of an authenticated connection goes to the log the connection named, to no other,
      and it is kept exactly when the server's level is positive and not below the line's. */
  lemma LinesReachTheirOwnLog(logDir: string, logLevel: u8, headerLineCount: nat, steps: seq<Step>, id: ConnId,
                              entry: LogEntry)
    requires Legal(Started(logDir, logLevel, headerLineCount), steps)
    requires Enabled(Reach(Started(logDir, logLevel, headerLineCount), steps), Log(id, entry))
    ensures var s := Reach(Started(logDir, logLevel, headerLineCount), steps);
            Effects(s, Log(id, entry))
            == [NamedEffects(s.connections[id].phase.fileName,
                  if s.logLevel > 0 && entry.level <= s.logLevel
                  then [Write(s.logDir, entry, s.logLevel >= MILLISECONDS_FROM_LEVEL)] else [])]
  {
    RunKeepsRouting(Started(logDir, logLevel, headerLineCount), steps);
  }

  // ---- The header ----

  /** Only account 0 collects a header: the first 16 lines printed into it before it is frozen. */
  ghost predicate HeaderIsFirstLines(s: Server) {
    && (s.frozen <==> s.headerLineCount > 0 && s.totalLogLines >= s.headerLineCount)
    && (0 !in s.accounts ==> s.heard == [] && s.totalLogLines == 0)
    && (0 in s.accounts ==>
          var b := s.accounts[0].account.buffers;
          b.header == Take(s.heard, MAX_LOG_HEADER_SIZE) && b.headerStopped == s.frozen)
    && (forall h | h in s.accounts && h != 0 ::
          var b := s.accounts[h].account.buffers; b.header == [] && b.headerStopped)
  }

  lemma HeaderAfter(b: Buffers, heard: seq<LogEntry>, more: seq<LogEntry>)
    requires b.Bounded() && b.header == Take(heard, MAX_LOG_HEADER_SIZE)
    ensures var c := AddAll(b, more);
            && c.headerStopped == b.headerStopped
            && c.header == (if b.headerStopped then b.header else Take(heard + more, MAX_LOG_HEADER_SIZE))
  {
    BuffersHoldTheFirstLines(b, more);
    if |heard| <= MAX_LOG_HEADER_SIZE {
      assert Take(heard, MAX_LOG_HEADER_SIZE) == heard;
    } else {
      assert (b.header + more)[..MAX_LOG_HEADER_SIZE] == (heard + more)[..MAX_LOG_HEADER_SIZE];
    }
  }

  lemma ChangeKeepsHeader(s: Server, dir: string, level: u8, clock: Clock)
    requires WellRouted(s) && HeaderIsFirstLines(s)
    ensures HeaderIsFirstLines(Next(s, ChangeProps(dir, level, clock)))
  {
    var t := Next(s, ChangeProps(dir, level, clock));
    forall h | h in s.accounts
      ensures var b, c := s.accounts[h].account.buffers, t.accounts[h].account.buffers;
              && c.headerStopped == b.headerStopped && (b.headerStopped ==> c.header == b.header)
              && (h == 0 ==> c.header == Take(t.heard, MAX_LOG_HEADER_SIZE))
    {
      var a := s.accounts[h].account;
      AccountRuns.BuffersAfterChange(a, level, dir, clock);
      BuffersHoldTheFirstLines(a.buffers, SelfEntries(a, level, dir, clock));
      if h == 0 {
        HeaderAfter(a.buffers, s.heard, SelfEntries(a, level, dir, clock));
      }
    }
  }

  lemma LogKeepsHeader(s: Server, id: ConnId, entry: LogEntry)
    requires WellRouted(s) && HeaderIsFirstLines(s) && Enabled(s, Log(id, entry))
    ensures HeaderIsFirstLines(Next(s, Log(id, entry)))
  {
    var h := s.connections[id].phase.handle;
    var b := s.accounts[h].account.buffers;
    assert [entry][..0] == [];
    assert AddAll(b, [entry]) == AddAll(b, []).Add(entry);
    if h == 0 {
      HeaderAfter(b, s.heard, [entry]);
    }
  }

  lemma SecondKeepsHeader(s: Server, id: ConnId, fileName: string, clock: Clock)
    requires WellRouted(s) && HeaderIsFirstLines(s) && In(s, id, Between)
    ensures HeaderIsFirstLines(Next(s, AuthSecond(id, fileName, clock)))
  {
    FindAccountFinds(s.accounts, fileName, 0);
    OpenedFollows(s.logDir, s.logLevel, |s.accounts| == 0, clock);
  }

  lemma StepKeepsHeader(s: Server, step: Step)
    requires WellRouted(s) && HeaderIsFirstLines(s) && Enabled(s, step)
    ensures HeaderIsFirstLines(Next(s, step))
  {
    match step
    case AuthSecond(id, fileName, clock) => SecondKeepsHeader(s, id, fileName, clock);
    case ChangeProps(dir, level, clock) => ChangeKeepsHeader(s, dir, level, clock);
    case Log(id, entry) => LogKeepsHeader(s, id, entry);
    case _ =>
  }

  lemma {:induction false} RunKeepsHeader(s: Server, steps: seq<Step>)
    requires WellRouted(s) && HeaderIsFirstLines(s) && Legal(s, steps)
    ensures HeaderIsFirstLines(Reach(s, steps))
    decreases |steps|
  {
    if steps != [] {
      StepKeepsHeader(s, steps[0]);
      StepKeepsRouting(s, steps[0]);
      RunKeepsHeader(Next(s, steps[0]), steps[1..]);
    }
  }

  /** Over every run, however lines, changes and connections interleave, the header of account 0 is
      the first up to 16 lines printed into it - self messages included - before the total number
      of lines reached the configured count, and no other account has a header. */
  lemma HeaderOverRuns(logDir: string, logLevel: u8, headerLineCount: nat, steps: seq<Step>)
    requires Legal(Started(logDir, logLevel, headerLineCount), steps)
    ensures HeaderIsFirstLines(Reach(Started(logDir, logLevel, headerLineCount), steps))
  {
    RunKeepsHeader(Started(logDir, logLevel, headerLineCount), steps);
  }
}
