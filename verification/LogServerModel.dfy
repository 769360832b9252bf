/** The log server as a machine: its settings, its two lists of connections, its accounts. Each step
    is one critical section; every connection thread goes through its phases in order, and the
    steps of different connections, of settings changes and of log lines interleave freely. */
module LogServerModel {
  import opened Wrappers
  import opened LogRecords
  import opened LogFiles
  import opened AccountModel
  import opened AccountRuns

  type ConnId = nat
  type AccountHandle = nat

  /** Where a connection's thread is. Between the two critical sections of `onLogConnAuth` it is in
      neither list. */
  datatype Phase = Connecting | Between | Authenticated(handle: AccountHandle, fileName: string) | Refused | Gone

  datatype Connection = Connection(level: u8, phase: Phase)

  datatype NamedAccount = NamedAccount(fileName: string, account: Account)

  datatype NamedEffects = NamedEffects(fileName: string, effects: seq<Effect>)

  /** `heard` is the history of the lines printed into account 0, self messages included, until the
      header was completed; `frozen` says that it was. */
  datatype Server = Server(
    logDir: string, logLevel: u8, headerLineCount: nat, totalLogLines: nat,
    notAuthenticated: seq<ConnId>, authenticated: seq<ConnId>,
    connections: map<ConnId, Connection>,
    accounts: map<AccountHandle, NamedAccount>,
    heard: seq<LogEntry>, frozen: bool)

  datatype Step =
    | NewConnection(id: ConnId)
    | AuthFirst(id: ConnId)                                    // taken off the first list
    | AuthSecond(id: ConnId, fileName: string, clock: Clock)   // put on the second, account assigned
    | AuthFailed(id: ConnId)
    | Disconnect(id: ConnId)
    | ChangeProps(dir: string, level: u8, clock: Clock)
    | Log(id: ConnId, entry: LogEntry)                         // a line off the wire

  function Started(logDir: string, logLevel: u8, headerLineCount: nat): Server {
    Server(logDir, logLevel, headerLineCount, 0, [], [], map[], map[], [], false)
  }

  /** Erases the first occurrence. */
  function Without(s: seq<ConnId>, id: ConnId): seq<ConnId> {
    if s == [] then [] else if s[0] == id then s[1..] else [s[0]] + Without(s[1..], id)
  }

  predicate In(s: Server, id: ConnId, phase: Phase) {
    id in s.connections && s.connections[id].phase == phase
  }

  predicate Enabled(s: Server, step: Step) {
    match step
    case NewConnection(id) => id !in s.connections
    case AuthFirst(id) => In(s, id, Connecting)
    case AuthSecond(id, _, _) => In(s, id, Between)
    case AuthFailed(id) => In(s, id, Connecting)
    case Disconnect(id) => id in s.connections && !s.connections[id].phase.Between? && !s.connections[id].phase.Gone?
    case ChangeProps(_, _, _) => true
    case Log(id, entry) => id in s.connections && s.connections[id].phase.Authenticated? && entry.text.Line?
  }

  function Move(s: Server, id: ConnId, phase: Phase): map<ConnId, Connection>
    requires id in s.connections
  {
    s.connections[id := s.connections[id].(phase := phase)]
  }

  /** The lowest handle from `h` on whose account has the file name, else the number of accounts. */
  function FindAccount(accounts: map<AccountHandle, NamedAccount>, fileName: string, h: nat): (r: nat)
    ensures h <= r
    decreases |accounts| - h
  {
    if h >= |accounts| || (h in accounts && accounts[h].fileName == fileName) then h
    else FindAccount(accounts, fileName, h + 1)
  }

  function Changed(na: NamedAccount, dir: string, level: u8, clock: Clock): NamedAccount {
    na.(account := SetNewFile(na.account, level, dir, clock).account)
  }

  function StoreServerHeader(accounts: map<AccountHandle, NamedAccount>): map<AccountHandle, NamedAccount> {
    if 0 in accounts then accounts[0 := accounts[0].(account := StoreHeader(accounts[0].account))] else accounts
  }

  function Next(s: Server, step: Step): Server
    requires Enabled(s, step)
  {
    match step
    case NewConnection(id) =>
      s.(notAuthenticated := s.notAuthenticated + [id],
         connections := s.connections[id := Connection(s.logLevel, Connecting)])
    case AuthFirst(id) =>
      s.(notAuthenticated := Without(s.notAuthenticated, id), connections := Move(s, id, Between))
    case AuthSecond(id, fileName, clock) =>
      var h := FindAccount(s.accounts, fileName, 0);
      var t := s.(authenticated := s.authenticated + [id], connections := Move(s, id, Authenticated(h, fileName)));
      if h in s.accounts then t
      else
        var created := Opened(s.logDir, s.logLevel, |s.accounts| == 0, clock).account;
        t.(accounts := s.accounts[h := NamedAccount(fileName, created)])
    case AuthFailed(id) =>
      s.(notAuthenticated := Without(s.notAuthenticated, id), connections := Move(s, id, Refused))
    case Disconnect(id) =>
      if id in s.notAuthenticated then
        s.(notAuthenticated := Without(s.notAuthenticated, id), connections := Move(s, id, Gone))
      else
        s.(authenticated := Without(s.authenticated, id), connections := Move(s, id, Gone))
    case ChangeProps(dir, level, clock) =>
      s.(logDir := dir, logLevel := level,
         accounts := map h | h in s.accounts :: Changed(s.accounts[h], dir, level, clock),
         connections := map id | id in s.connections ::
           if id in s.authenticated || id in s.notAuthenticated
           then s.connections[id].(level := level) else s.connections[id],
         heard := if 0 in s.accounts && !s.frozen
                  then s.heard + SelfEntries(s.accounts[0].account, level, dir, clock) else s.heard)
    case Log(id, entry) =>
      var h := s.connections[id].phase.handle;
      if h !in s.accounts then s   // "Unhandled log message": thrown to the connection thread
      else
        var a := s.accounts[h];
        var printed := s.accounts[h := a.(account := Print(a.account, entry).account)];
        var total := s.totalLogLines + 1;
        var full := total == s.headerLineCount;
        s.(accounts := if full then StoreServerHeader(printed) else printed,
           totalLogLines := total,
           heard := if h == 0 && !s.frozen then s.heard + [entry] else s.heard,
           frozen := s.frozen || full)
  }

  /** What a step does to the files, account by account in the order of the handles. */
  function Effects(s: Server, step: Step): seq<NamedEffects>
    requires Enabled(s, step)
  {
    match step
    case AuthSecond(_, fileName, clock) =>
      if FindAccount(s.accounts, fileName, 0) in s.accounts then []
      else [NamedEffects(fileName, Opened(s.logDir, s.logLevel, |s.accounts| == 0, clock).effects)]
    case ChangeProps(dir, level, clock) => ChangeEffects(s.accounts, |s.accounts|, dir, level, clock)
    case Log(id, entry) =>
      var h := s.connections[id].phase.handle;
      if h !in s.accounts then []
      else [NamedEffects(s.accounts[h].fileName, Print(s.accounts[h].account, entry).effects)]
    case _ => []
  }

  function ChangeEffects(accounts: map<AccountHandle, NamedAccount>, n: nat, dir: string, level: u8,
                         clock: Clock): seq<NamedEffects>
  {
    if n == 0 then []
    else
      var last :=
        if n - 1 in accounts
        then [NamedEffects(accounts[n - 1].fileName, SetNewFile(accounts[n - 1].account, level, dir, clock).effects)]
        else [];
      ChangeEffects(accounts, n - 1, dir, level, clock) + last
  }

  predicate Legal(s: Server, steps: seq<Step>)
    decreases |steps|
  {
    steps == [] || (Enabled(s, steps[0]) && Legal(Next(s, steps[0]), steps[1..]))
  }

  function Reach(s: Server, steps: seq<Step>): Server
    requires Legal(s, steps)
    decreases |steps|
  {
    if steps == [] then s else Reach(Next(s, steps[0]), steps[1..])
  }
}
