# Remote desktop services: a verification model

This project models four parts of a remote desktop program in Dafny and proves properties of them.

* **The log pipeline.** Every process keeps a bounded header and a bounded dump of log lines
  (`LogRecords.dfy`). An account turns its level, its directory and its first-open flag into a log file
  with rotated backups (`LogFiles.dfy`, `AccountModel.dfy`, `FileAccount.dfy`). A client process connects
  to the log server over three pipes (`Session.dfy`), sends a file name and a stream of records
  (`ClientLogModel.dfy`, `ClientLog.dfy`), and is told the level over a channel of its own
  (`LevelSender.dfy`). The server routes lines to accounts by handle and keeps its connections in two
  lists (`LogServerModel.dfy`, `LogServer.dfy`).
* **The file transfer request handler.** A request and reply protocol (`FileTransferMessages.dfy`) with an
  upload session and a download session over a disk (`FileTransferModel.dfy`, `FileTransfer.dfy`,
  `DirectorySize.dfy`).
* **The query string parser.** Character buffers split and decoded in place (`ArgList.dfy`,
  `HttpRequest.dfy`) against splitters on strings (`QueryStrings.dfy`, `HttpRequests.dfy`).
* **Two loops.** The profiler's sort-and-group pass (`Profiler.dfy`), and the pointer events of the
  viewer, section 7.5.5 of RFC 6143 (`Pointer.dfy`).

Each part has two layers. What the program does is a machine on values: a step function with its error
answers, threads being interleaved steps, one for each critical section, wait or write. Where the program
has objects that change, a class with the same fields, branches and loops is proved equal to the machine,
method by method. What the program is for is then proved about the machine, for all inputs, all runs and
all interleavings: `AccountRuns.dfy`, `AccountHistory.dfy`, `LogJournal.dfy`, `DeferredInit.dfy`,
`LogServerRuns.dfy`, `LogServerFiles.dfy`, `LogServerHistory.dfy`, `EndToEnd.dfy`, `FileTransferRuns.dfy`,
`FileTransferSessions.dfy`, `FileTransferAnswers.dfy`, and the second half of the other files.

`dafny verify dfyconfig.toml` checks the whole project.

## Where the code and its comments differ

The model follows the code. Each difference is stated with its exact condition.

* `FileAccount.h` promises a new log after a change of directory. A change that also sets the level to
  zero returns before the first-open flag is set, so a later raise appends: `AccountRuns.PromiseBroken`
  is such a run, and `AccountRuns.RaiseKeepsThePromise` says, of the operations alone, exactly when a
  raise keeps the promise.
* `onLogConnAuth` takes a connection off one list and puts it on the other in two critical sections. A
  change of settings between a connection's own two sections is missed by that connection, and only such
  a change: `LogServerRuns.ListedConnectionsInSync`, `LogServerRuns.BetweenIsMissed`; the next change
  repairs it: `LogServerRuns.ChangeResynchronizes`.
* While the client's `connect` sends the dump, its barrier is 9, whatever the level. The level channel can
  be at rest at that time, and under a level of 10 or more a line of level 10 is then lost, although the
  file keeps such lines: `EndToEnd.FiltersAgreeOnTheServer` gives the exact condition,
  `EndToEnd.LineIsLostWhileDumping` the run.
* `connect` sends each line once only if nothing is printed meanwhile. `ClientLogModel.AnyInterleaving` says
  what is on the stream after any interleaving, `ClientLogModel.SentExactlyOnceIff` which lines are sent
  exactly once.
* A start of a download or an upload that fails before or at the open leaves the file object behind without
  a stream, and a later request for the session uses the missing stream:
  `FileTransferRuns.FailedStartLeavesNoStream`, `FileTransferRuns.FailedUploadStartLeavesNoStream`. The
  stated size of data that is not compressed is trusted, and read behind the end of what was received:
  `FileTransferRuns.StatedSizeIsTrusted`. These are the only requests that are not answered:
  `FileTransferRuns.AnsweredIffNeverMisused`.
* An end of an upload that cannot set the time leaves the session behind with its stream closed. Data sent to
  it is never written, and refused unless there is nothing to write:
  `FileTransferRuns.FailedEndLeavesAClosedStream`.
* A start that only the seek refuses is answered by a failure too, but leaves a live session at position
  zero - of a file that the overwrite flag has already emptied:
  `FileTransferSessions.RefusedSeekLeavesALiveUpload`, `FileTransferSessions.RefusedSeekLeavesALiveDownload`.
* The argument buffer of a request object is not cleared between two parses. The program makes an object for
  each request: `HttpRequests.OwnArguments`; on a used one the tail of longer old arguments is read as well:
  `HttpRequests.TailOfOldArguments`.
* Turning the wheel by no steps changes the remembered pointer state without an event:
  `PointerStream.StaysInStepIff`, `PointerStream.SilentTurnIsLost`.

## Model

| member | source | states |
|---|---|---|
| LogRecords.BuffersHoldTheFirstLines | aaa_log_writer/aaa_LogDump.cpp:87-122 | over any lines, a running buffer holds exactly the first lines ever offered to it, up to 16 and 1024; a stopped one never changes |
| LogRecords.AcceptedOfConcat | aaa_log_writer/FileAccount.cpp:104-120 | the lines a level lets through are those of the first part, then those of the second |
| LogRecords.LogDump.StoreHeader | aaa_log_writer/aaa_LogDump.cpp:56-59 | the header is frozen, nothing else changes |
| LogRecords.LogDump.TerminateLogDumping | aaa_log_writer/aaa_LogDump.cpp:61-65 | the dump is cleared and stopped for good |
| LogRecords.LogDump.UpdateLogHeaderLines | aaa_log_writer/aaa_LogDump.cpp:87-96 | a line goes to the header while it is running and not full |
| LogRecords.LogDump.UpdateLogDumpLines | aaa_log_writer/aaa_LogDump.cpp:98-107 | a line goes to the dump while it is running and not full |
| LogFiles.LogVolume.RenameTo | aaa_file_lib/File.cpp:303-312 | the target is deleted first, whether or not the move then succeeds |
| LogFiles.LogVolume.CreateBackup | aaa_log_writer/FileAccount.cpp:296-311 | the loop of renamings is the rotation |
| LogFiles.ShiftIsExact | aaa_log_writer/FileAccount.cpp:300-310 | moving i backups up shifts every slot by one, holes included, and touches no other path |
| LogFiles.RotationIsExactShift | aaa_log_writer/FileAccount.cpp:296-311 | for every limit of at least 1: backup k + 1 is the old backup k, backup 1 the old log, the log name is free, all other paths are untouched |
| LogJournal.FilesShowTheJournal | aaa_log_writer/FileAccount.cpp:236-311 | after any trace of opens and writes, slot k of a directory is its k-th newest generation, and no path outside the log's own slots changes |
| LogJournal.SlotShowsJournal | aaa_log_writer/FileAccount.cpp:296-311 | the same for one slot: backup k holds the k-th previous generation after any number of fresh opens |
| LogJournal.OtherPathsUnchanged | aaa_log_writer/FileAccount.cpp:296-311 | no trace changes a path that is not one of the log's six slots |
| LogJournal.JournalOnlyGrows | aaa_log_writer/FileAccount.cpp:236-273 | closed generations are frozen, the newest is only appended to, and each fresh open adds one |
| LogJournal.WrittenLineSurvives | aaa_log_writer/FileAccount.cpp:249-311 | a written line is in slot n after n more fresh opens of its directory; only the sixth takes it off the volume |
| FileAccounts.FileAccount.constructor | aaa_log_writer/FileAccount.cpp:31-42 | the account opens at once, with the header collected in parallel |
| FileAccounts.FileAccount.Postponed | aaa_log_writer/FileAccount.cpp:44-50 | nothing is opened; lines go to the dump |
| FileAccounts.FileAccount.Init | aaa_log_writer/FileAccount.cpp:57-65 | new settings, then the dump is cleared even at level zero |
| FileAccounts.FileAccount.ChangeLogProps | aaa_log_writer/FileAccount.cpp:67-74 | the settings change as the machine says, the file name stays |
| FileAccounts.FileAccount.Print | aaa_log_writer/FileAccount.cpp:86-97 | header, dump, then the file if it is open and the level lets the line through |
| FileAccounts.FileAccount.AcceptsLevel | aaa_log_writer/FileAccount.cpp:99-107 | true exactly when a buffer is running or the line would be written |
| FileAccounts.FileAccount.SetNewFile | aaa_log_writer/FileAccount.cpp:183-234 | state, files and own messages after a change of level and directory are those of the machine |
| FileAccounts.FileAccount.Settle | aaa_log_writer/FileAccount.cpp:206-233 | close at level zero; else close, reopen or rotate as the flags say |
| FileAccounts.FileAccount.OpenFile | aaa_log_writer/FileAccount.cpp:236-273 | first open: rotate, create, sign, replay the dump or else the header; later open: append |
| FileAccounts.FileAccount.WriteLines | aaa_log_writer/aaa_LogDump.cpp:67-85 | the replay loop appends exactly the lines the level accepts, in order |
| AccountRuns.RunKeepsConsistent | aaa_log_writer/FileAccount.cpp:183-281 | after every run the file is open exactly when the level is positive; an open file lies in the current directory and the first-open flag is off |
| AccountRuns.LinesAreWrittenExactlyOnce | aaa_log_writer/FileAccount.cpp:86-120 | over every run, the lines written are exactly those the settings of their moment keep, once each, in order, to the directory of that moment |
| AccountRuns.ChangeOpensAndWritesNoLines | aaa_log_writer/FileAccount.cpp:193-233 | a change writes no line from outside and opens exactly what the flags call for |
| AccountRuns.EffectsOfChange | aaa_log_writer/FileAccount.cpp:183-234 | all a change does to the files: farewell messages to the old log, at most one open, a greeting to a continued log |
| AccountRuns.StepFollowsSettings | aaa_log_writer/FileAccount.cpp:86-120 | one step writes its line exactly when the settings keep it, and only a change moves the settings |
| AccountRuns.FirstOpenMeansNeverOpened | aaa_log_writer/FileAccount.cpp:209-256 | the first-open flag is history: it is set exactly while nothing has been opened |
| AccountRuns.HomeIsWhereItWasOpened | aaa_log_writer/FileAccount.cpp:206-256 | over every run, the directory of the last open in the trace is that of the last change to a positive level; none was opened exactly if there was no such change |
| AccountRuns.MovedIsAwayFromHome | aaa_log_writer/FileAccount.cpp:206-212 | the log was moved exactly when, at some time since it was last open, the directory was another than the one it was opened in |
| AccountRuns.RaiseKeepsThePromise | aaa_log_writer/FileAccount.h:68-75 | a raise from zero opens one log, a new one exactly if the level never was positive or the directory changes with the raise; it breaks the promise of the header comment exactly if the log was open before, was moved since, and is raised where it then is |
| AccountRuns.PromiseBroken | aaa_log_writer/FileAccount.cpp:209-219 | a run in which the log of a new directory is appended to instead of rotated |
| AccountRuns.AcceptedIffItMatters | aaa_log_writer/FileAccount.cpp:85-117 | a level is accepted exactly when a line of it would leave a trace, in the buffers or in the file |
| AccountHistory.BuffersOverRuns | aaa_log_writer/aaa_LogDump.cpp:57-102 | over every run, told from its operations alone: the header is the first up to 16 entries printed before it was completed, the dump the first up to 1024 while there is one |
| AccountHistory.RunIsTold | aaa_log_writer/FileAccount.cpp:183-273 | over every run from either constructor, all that is done to the files is told from the operations alone: the lines kept, the account's own messages, every open and what a new log starts with |
| AccountHistory.NewLogStartsWithTheHeader | aaa_log_writer/FileAccount.cpp:236-273 | over every run of an account opened with a header, a new log starts with exactly the first up to 16 entries printed before the header was completed, as far as the new level accepts them, with nothing before it is completed, and a continued log gets none of it |
| DeferredInit.DeferredRefinesOpened | aaa_log_writer/FileAccount.cpp:31-65 | any early run then `init` leaves the same account and, on any volume, the same files as opening at once and printing the first 1024 lines |
| DeferredInit.ShortRunsLoseNothing | aaa_log_writer/aaa_LogDump.cpp:114-117 | a run of at most 1024 prints is its own beginning, so nothing is lost |
| DeferredInit.FirstPrintsKeepTheFirst | aaa_log_writer/aaa_LogDump.cpp:98-117 | the beginning that survives holds exactly the first lines |
| DeferredInit.HeaderIgnoresLatePrints | aaa_log_writer/aaa_LogDump.cpp:87-122 | prints beyond the dump never reach the header, whenever it is completed |
| DeferredInit.ReplayedOrWritten | aaa_log_writer/FileAccount.cpp:258-268 | replaying lines into a fresh log and writing them right after the open give the same files |
| LevelSenders.NoLostUpdate | aaa_log_server/LogLevelSender.cpp:42-86 | in every interleaving: at rest after the announcement the last byte is the connection's level, at most 10; the bytes are always an in-order selection of the clamped updates |
| LevelSenders.RunKeepsInvariant | aaa_log_server/LogLevelSender.cpp:53-82 | what every step keeps: slot, event, snapshot in flight and history agree |
| LevelSenders.SenderReachesQuiescence | aaa_log_server/LogLevelSender.cpp:64-83 | the sender is stuck only at rest, and left alone it gets there in at most five steps |
| LevelSenders.LogLevelSender.StartSender | aaa_log_server/LogLevelSender.cpp:42-46 | the stream is handed over, nothing else changes |
| LevelSenders.LogLevelSender.UpdateLevel | aaa_log_server/LogLevelSender.cpp:53-62 | the slot holds the clamped level and the event is signalled |
| LevelSenders.LogLevelSender.Turn | aaa_log_server/LogLevelSender.cpp:64-83 | an undisturbed turn is the wake, snapshot and send steps of the machine |
| LevelSenders.LogConn.ChangeLogLevel | aaa_log_server/LogConn.cpp:79-87 | the connection's level changes and the sender is given it |
| LevelSenders.LogConn.StartLevels | aaa_log_server/LogConn.cpp:144-149 | the stream is handed over before the first level is announced |
| Sessions.BothEndsAgree | aaa_log_server/LogConn.cpp:89-150 | on every run each end reads only what it expects, both mean the same pipes, and nothing is ahead of the file name |
| Sessions.NeverStuck | aaa_log_server/SecurityPipeServer.cpp:59-109 | on the accepting path some end can always move until both are through |
| Sessions.MovesMakeProgress | aaa_log_server/SecurityPipeClient.cpp:30-48 | every move of an end shortens what is left of connecting, the sending of the dump included, and no other move lengthens it |
| Sessions.BarrierAtRest | aaa_log_server/ClientLogger.cpp:59-108 | when the level channel is at rest the client's barrier is the connection's level, at most 10 - except between the two settings that let the dump through, where it is 9 |
| Sessions.LevelOfLastChange | aaa_log_server/LogConn.cpp:79-87 | over every run of a session the level of the connection is that of the last change, or the first |
| Sessions.DumpIsSentAtRest | aaa_log_server/ClientLogger.cpp:96-104 | for every level there is a run without a change of level to a place where the dump is being sent and the level channel is at rest |
| Sessions.ConnectingIsOneConnect | aaa_log_server/ClientLogger.cpp:59-108 | each move of the connecting client is one stage of the `connect` that sends name, dump and lines, or none, with the same barriers |
| Sessions.PlayKeepsInStep | aaa_log_server/ClientLogger.cpp:61-82 | what every move keeps: the queues are determined by the two program counters |
| Codec.UIntRoundTrip | aaa_log_server/ClientLogger.cpp:136-140 | an integer that fits its width is read back |
| Codec.UIntOfBytes | aaa_log_server/LogConn.cpp:119-122 | any bytes are the encoding of the integer they are read as |
| Codec.MostSignificantFirst | aaa_log_server/LogConn.cpp:119-122 | the first byte of an integer is the most significant one |
| ClientLogModel.WireRoundTrip | aaa_log_server/ClientLogger.cpp:59-157 | with nothing printed during `connect`, the server reads the file name, then the dumped lines of level at most 9, then the live lines within the barrier: each once, in order, nothing else |
| ClientLogModel.RecordRoundTrip | aaa_log_server/LogConn.cpp:119-124 | one record is read back field by field, whatever follows it |
| ClientLogModel.DispatchReadsAll | aaa_log_server/LogConn.cpp:112-129 | the dispatch loop reads exactly the records that were sent |
| ClientLogModel.SessionReadsBack | aaa_log_server/LogConn.cpp:136-151 | the name and then the records, with no byte left over |
| ClientLogModel.MaskIsLossless | aaa_log_server/ClientLogger.cpp:133-157 | of the lines a barrier lets through, the mask changes exactly the negative levels |
| ClientLogModel.LiveLinesAreSent | aaa_log_server/ClientLogger.cpp:110-145 | after `connect`, exactly the lines within the barrier of their moment are sent |
| ClientLogModel.ConnectUndisturbed | aaa_log_server/ClientLogger.cpp:66-105 | what an undisturbed `connect` sends, and the barrier and buffers it leaves |
| ClientLogModel.AnyInterleaving | aaa_log_server/ClientLogger.cpp:71-118 | for any interleaving of prints with the steps of `connect`, the stream, told from the stage of each print: lines at once, the name, and the dump of the first 1024 lines in its place |
| ClientLogModel.SentExactlyOnceIff | aaa_log_server/ClientLogger.cpp:71-118 | in any completed interleaving a line printed once is sent exactly once if and only if it is either let through at once or goes with the dump, and not both |
| ClientLogModel.ConcurrentPrint | aaa_log_server/ClientLogger.cpp:71-105 | where a single line printed at each stage of `connect` goes: at once, with the dump if that has room, twice, or ahead of the file name |
| ClientLogModel.DuringIsReached | aaa_log_server/ClientLogger.cpp:66-105 | the states in which a concurrent print is considered are those `connect` goes through, with any dump |
| ClientLogs.ClientLogWriter.Print | aaa_log_server/ClientLogger.cpp:110-118 | the dump, then the stream, as the machine says |
| ClientLogs.ClientLogWriter.Flush | aaa_log_server/ClientLogger.cpp:125-145 | a record is sent exactly when there is a stream and the line is within the barrier |
| ClientLogs.ClientLogWriter.SetLogBarrier | aaa_log_server/ClientLogger.cpp:153-157 | the barrier is the low four bits |
| ClientLogs.ClientLogWriter.Connect | aaa_log_server/ClientLogger.cpp:59-108 | the statements of `connect` are the stages of the machine |
| ClientLogs.ClientLogWriter.WriteLogDump | aaa_log_writer/aaa_LogDump.cpp:78-85 | the loop sends the dumped lines within the barrier, in order |
| LogServerRuns.ConnectionInOneList | aaa_log_server/LogServer.cpp:102-155 | over all interleavings a connection is in at most one list, at most once, in the one its phase says, and in none once it is gone |
| LogServerRuns.ListedConnectionsInSync | aaa_log_server/LogServer.cpp:71-132 | over every run a listed connection is in sync exactly when the level it was last given, when it came or by a change while it was listed, is the server's; and it is whenever the last change did not fall between its own two critical sections, whatever others do |
| LogServerRuns.BetweenIsMissed | aaa_log_server/LogServer.cpp:114-130 | a change between the sections is missed: the level a connection comes out with is the one it went in with, so it is in sync exactly if the server's level is then that one |
| LogServerRuns.ChangeResynchronizes | aaa_log_server/LogServer.cpp:71-92 | the next change of settings brings every listed connection back in line |
| LogServerRuns.RunKeepsRouting | aaa_log_server/LogServer.cpp:157-196 | over every run handles are exactly 0..n-1, one file name each, never renamed or dropped, held by the connections that named them; every account has the server's settings |
| LogServerRuns.LinesReachTheirOwnLog | aaa_log_server/LogServer.cpp:157-175 | a line of a connection is written to the log it named and to no other, exactly when the server's level keeps it |
| LogServerRuns.HeaderOverRuns | aaa_log_server/LogServer.cpp:94-100 | over every run only account 0 has a header: the first up to 16 lines printed into it before the total reached the configured count, frozen from then on |
| LogServerRuns.FindAccountFinds | aaa_log_server/LogServer.cpp:181-189 | the search returns the account with the file name if there is one, else the next free handle |
| LogServerFiles.LogsAreTheirOwn | aaa_log_server/LogServer.cpp:157-175 | whatever is done to the logs of all names in whatever order, the logs of a name are those that its own effects alone would have left |
| LogServerFiles.LoggedLineSurvives | aaa_log_server/LogServer.cpp:157-175 | over every run a line that is kept is behind what its log held when it came in, and stays in that place of slot n after n fresh logs of the name in that directory, for every n up to five |
| LogServerFiles.LineIsDelivered | aaa_log_server/LogServer.cpp:114-175 | the same for the j-th line of a connection, told by the name the connection gave |
| LogServerHistory.EveryLogIsOneAccount | aaa_log_server/LogServer.cpp:71-196 | over every run and for every name, all that is done to its log is what one account does over the operations that the steps have for it: opened with the settings of the moment, every change since, every line of the connections that gave the name, the completion of the header of the first log at the count; and the server holds that account |
| LogServerHistory.EveryLogIsTold | aaa_log_server/LogServer.cpp:71-196 | so the steps alone tell every slot of every log on the volume |
| LogServerHistory.ListsAreTold | aaa_log_server/LogServer.cpp:102-155 | over every run the last step of a connection says which list it is on, if any |
| LogServers.LogServer.OnNewConnection | aaa_log_server/LogServer.cpp:102-106 | the new connection is listed as not authenticated, with the current level |
| LogServers.LogServer.OnLogConnAuthFirst | aaa_log_server/LogServer.cpp:113-124 | the connection is off the first list, nothing else changes |
| LogServers.LogServer.OnLogConnAuthSecond | aaa_log_server/LogServer.cpp:125-132 | the connection is on the second list and has the handle of its account |
| LogServers.LogServer.OnDisconnect | aaa_log_server/LogServer.cpp:134-155 | the connection is off whichever list it was on |
| LogServers.LogServer.OnLog | aaa_log_server/LogServer.cpp:157-175 | the line is printed into the account of the handle and counted; the last line of the header completes it |
| LogServers.LogServer.AddConnection | aaa_log_server/LogServer.cpp:181-196 | the account of the name, opened as the next one if there is none |
| LogServers.LogServer.FindHandle | aaa_log_server/LogServer.cpp:184-189 | the loop over the accounts finds the lowest handle with the name |
| LogServers.LogServer.Erase | aaa_log_server/LogServer.cpp:116-122 | the loop erases the first occurrence and keeps the order of the rest |
| LogServers.LogServer.ChangeLogProps | aaa_log_server/LogServer.cpp:71-92 | the three loops give every account and every listed connection the new settings |
| LogServers.LogServer.StoreHeader | aaa_log_server/LogServer.cpp:94-100 | the header of account 0, and of no other, is frozen |
| EndToEnd.FiltersAgree | aaa_log_server/ClientLogger.cpp:96-157 | at rest, for any account that has the connection's level: of the lines of level 0 to 10 that the file keeps, the client filters out exactly those of level 10 printed while the dump is let through; of those it sends, the file keeps all but those above its level printed at that time, and none at level zero |
| EndToEnd.FiltersAgreeOnTheServer | aaa_log_server/LogServer.cpp:71-132 | over every run of the server, the same for every authenticated connection at rest and the account it logs to - unless the last level it was given is not the server's, which takes a change between its own two sections |
| EndToEnd.LineIsLostWhileDumping | aaa_log_server/ClientLogger.cpp:96-105 | from level 10 on there is a run to a place where the channel is at rest and a line that the file keeps is sent neither at once nor with the dump |
| EndToEnd.SentLineIsDelivered | aaa_log_server/LogConn.cpp:112-151 | over every run of the server, each line on a client's stream behind the name goes to the log of that name, and if the level of the moment keeps it, is in its place in the generation it was written to, for as long as that is on the volume |
| EndToEnd.LiveLineIsDelivered | aaa_log_server/ClientLogger.cpp:110-145 | so does a line printed at a connected client within the barrier of the moment, in its place among the lines sent |
| EndToEnd.EarlyLineIsDelivered | aaa_log_server/ClientLogger.cpp:94-106 | and each of the first 1024 lines printed before connecting, if of level at most 9 |
| FileTransferMessages.RequestRoundTrip | remoting_rfb/file_transfer_client/FileTransferRequestSender.cpp:49-241 | every request is read back from its bytes, whatever follows |
| FileTransferMessages.BodyRoundTrip | ftp_server/FileTransferRequestHandler.cpp:215-775 | each handler reads exactly its request body: what follows is untouched |
| FileTransferMessages.ReplyRoundTrip | remoting_rfb/file_transfer_client/FileTransferReplyBuffer.cpp:97-260 | every reply is read back from its bytes, whatever follows, by a reader of its layout |
| FileTransferMessages.ListRoundTrip | remoting_rfb/file_transfer_client/FileTransferReplyBuffer.cpp:105-165 | every list of a folder is read back entry by entry: size, time, flags and name |
| FileTransferRuns.FramingIsKept | ftp_server/FileTransferRequestHandler.cpp:133-185 | in every run, whatever fails, the n requests before the first misuse are read to the last byte, what follows is untouched, and they are answered by exactly n replies that read back in order |
| FileTransferRuns.AnsweredIffNeverMisused | ftp_server/FileTransferRequestHandler.cpp:504-856 | a run is answered to its end exactly when no request in it misuses a session, told from the calls before it and the disks their starts found; a file object is without a stream exactly after a granted start whose file could not be emptied or opened, and has a closed one exactly after an end that could not set the time |
| FileTransferRuns.UndefinedIffMisused | ftp_server/FileTransferRequestHandler.cpp:590-790 | one request uses a missing stream or reads behind its data exactly under the guards of `Misuses`: a half-open session with something to write or read or to close, or an open upload and a stated size above the data |
| FileTransferRuns.StatedSizeIsTrusted | ftp_server/FileTransferRequestHandler.cpp:598-602 | while the stream of an upload is open, data that is not compressed is read behind its end exactly when its stated size is larger than it is |
| FileTransferRuns.FailedEndLeavesAClosedStream | ftp_server/FileTransferRequestHandler.cpp:649-659 | after an end that could not set the time data is refused whatever its stated size, unless there is nothing to write, and the disk stays as it is |
| FileTransferRuns.RegisteredAreHandled | ftp_server/FileTransferRequestHandler.cpp:91-108 | the twelve registered codes are exactly those of the handled requests |
| FileTransferRuns.CarefulClientsAreAnswered | ftp_server/FileTransferRequestHandler.cpp:504-856 | it is enough that a client continues only sessions it was told have started, and states true sizes: each of its requests gets a reply |
| FileTransferRuns.FailedStartLeavesNoStream | ftp_server/FileTransferRequestHandler.cpp:720-730 | after a download that cannot be opened, a request for data uses a missing stream exactly when access is granted and data is asked for |
| FileTransferRuns.FailedUploadStartLeavesNoStream | ftp_server/FileTransferRequestHandler.cpp:541-557 | for all flags and sizes: a granted upload start leaves no stream exactly when its file could not be emptied, as asked, or opened; and when the next requests then use the missing stream, empty writes included |
| FileTransferSessions.DownloadCarriesContent | ftp_server/FileTransferRequestHandler.cpp:745-856 | for any chunk sizes and short reads the payloads, each taken at its stated size, are the next part of the file; the end reply comes exactly at its end, then everything was carried |
| FileTransferSessions.DownloadStep | ftp_server/FileTransferRequestHandler.cpp:745-856 | one request brings the next part of the file, or ends the session at the end of the file and leaves it idle |
| FileTransferSessions.SizesAreStated | ftp_server/FileTransferRequestHandler.cpp:820-856 | over every run each reply that carries data states the size of what it carries |
| FileTransferSessions.DownloadProgress | ftp_server/FileTransferRequestHandler.cpp:745-856 | every request for data with a working disk brings at least one byte or the end |
| FileTransferSessions.DownloadCompletes | ftp_server/FileTransferRequestHandler.cpp:745-856 | over every undisturbed run one request more on a working disk than bytes are left brings the end reply, and the rest of the file is what was received, whatever else was asked for, refused or failed in between |
| FileTransferSessions.AskingIsEnough | ftp_server/FileTransferRequestHandler.cpp:745-856 | that many such requests alone are always answered and bring the whole rest and the end |
| FileTransferSessions.SomeLibraryIsInverse | ftp_server/FileTransferRequestHandler.cpp:830-842 | the assumption on compression under which content is carried can be met |
| FileTransferSessions.StartOfDownload | ftp_server/FileTransferRequestHandler.cpp:689-738 | exactly when a download starts, over all requests, and where |
| FileTransferSessions.StartOfUpload | ftp_server/FileTransferRequestHandler.cpp:504-570 | exactly when an upload starts, over all requests, and where |
| FileTransferSessions.SentAreTheChunks | ftp_server/FileTransferRequestHandler.cpp:598-611 | whatever compression levels a client chooses, what its requests bring are its chunks in order |
| FileTransferSessions.RefusedSeekLeavesALiveUpload | ftp_server/FileTransferRequestHandler.cpp:553-557 | for all flags: an upload refused only by the seek is answered by a failure and left live at position zero; data sent to it overwrites the beginning of the file, and is all of the file when the refused start had emptied it |
| FileTransferSessions.RefusedSeekLeavesALiveDownload | ftp_server/FileTransferRequestHandler.cpp:726-730 | a download refused only by the seek is answered by a failure and left live at position zero |
| FileTransferSessions.ResumeGivesTheWhole | ftp_server/FileTransferRequestHandler.cpp:689-856 | resuming behind the k bytes received gives the same whole |
| FileTransferSessions.UploadSession | ftp_server/FileTransferRequestHandler.cpp:504-616 | with the overwrite flag the file is exactly the data sent; without it exactly the stretch behind the offset is overwritten |
| FileTransferSessions.UploadStoresContent | ftp_server/FileTransferRequestHandler.cpp:572-616 | over any run of data requests the file is the old one with all the data laid over it in order |
| FileTransferSessions.OthersAreUntouched | ftp_server/FileTransferRequestHandler.cpp:215-856 | no request changes a path it does not name, and each session is moved by its own requests only |
| FileTransferSessions.OverwriteTwice | aaa_file_lib/WinFile.cpp:190-204 | two writes in a row are one write of both |
| FileTransferSessions.RenameIsUndone | ftp_server/FileTransferRequestHandler.cpp:375-403 | a renaming is undone by the opposite one, contents included |
| FileTransferSessions.MkDirIsUndone | ftp_server/FileTransferRequestHandler.cpp:309-373 | making and removing a folder leaves the disk as it was |
| FileTransferAnswers.WithoutAccess | ftp_server/FileTransferRequestHandler.cpp:924-929 | without access every request but the question about compression is refused and changes nothing |
| FileTransferAnswers.FilesAreListed | ftp_server/FileTransferRequestHandler.cpp:215-307 | the client reads from the answer exactly the entries of the folder, on every compression level, or is refused |
| FileTransferAnswers.HashIsOfThePart | ftp_server/FileTransferRequestHandler.cpp:434-501 | exactly when a part of a file is hashed, and that the hash is that of the part alone |
| FileTransferAnswers.FolderIsMade | ftp_server/FileTransferRequestHandler.cpp:309-342 | exactly when a folder is made; then it is a folder, and nothing else changed |
| FileTransferAnswers.FileIsRemoved | ftp_server/FileTransferRequestHandler.cpp:344-373 | exactly when a path is removed; then it is gone, and nothing else |
| FileTransferAnswers.FileIsRenamed | ftp_server/FileTransferRequestHandler.cpp:375-403 | exactly when a path is renamed; then its contents are under the new name only |
| FileTransferAnswers.FolderIsMeasured | ftp_server/FileTransferRequestHandler.cpp:405-432 | the size in the answer is the sum over all files, modulo 64 bits |
| FileTransferAnswers.StartEmptiesTheFile | ftp_server/FileTransferRequestHandler.cpp:541-543 | what a start with the overwrite flag leaves of the file, whatever fails afterwards: untouched, gone or empty; without the flag nothing changes |
| FileTransferAnswers.UploadEnds | ftp_server/FileTransferRequestHandler.cpp:622-687 | exactly when an upload ends, and that nothing is left of the session and all else is as it was |
| FileTransferAnswers.DataIsStored | ftp_server/FileTransferRequestHandler.cpp:594-619 | exactly when data for an open upload is stored; a failed write leaves a beginning of it and the session behind that |
| FileTransferAnswers.DataIsSent | ftp_server/FileTransferRequestHandler.cpp:768-856 | nothing for nothing, the end with the time of the file at its end, else data on the level that was asked for |
| FileTransferAnswers.NothingToStore | ftp_server/FileTransferRequestHandler.cpp:594-619 | data of no bytes is taken in a session and changes nothing |
| FileTransferAnswers.NoSessionNoData | ftp_server/FileTransferRequestHandler.cpp:590-640 | requests for a session that was not started, or has ended, are refused |
| FileTransfer.FileTransferRequestHandler.OnRequest | ftp_server/FileTransferRequestHandler.cpp:133-185 | a registered request takes exactly its body off the input and puts exactly one reply on the output, a failure included, or it runs into a missing stream or the end of a buffer exactly when the machine says so; any other code does nothing |
| FileTransfer.HashLoop | ftp_server/FileTransferRequestHandler.cpp:465-492 | for every pattern of short reads the bytes hashed are exactly file[offset, offset + length), or the loop fails because the file is shorter or cannot be read; it ends, and never reads past its buffer |
| FileTransfer.FileTransferRequestHandler.WriteList | ftp_server/FileTransferRequestHandler.cpp:252-262 | the loop writes the number of entries and then each of them |
| FileTransfer.FileTransferRequestHandler.HashPartOf | ftp_server/FileTransferRequestHandler.cpp:449-501 | the reply is the hash of exactly the requested part |
| FileTransfer.FileTransferRequestHandler.OpenUpload | ftp_server/FileTransferRequestHandler.cpp:523-569 | the previous upload is closed, then the new one truncated, opened and positioned, or left half open by a failure |
| FileTransfer.FileTransferRequestHandler.StoreData | ftp_server/FileTransferRequestHandler.cpp:594-619 | data is written as it is, or inflated, to the stream's position; a closed stream is a failure whatever the stated size; a missing stream with something to write, and with an open one a stated size above the data, are run into |
| FileTransfer.FileTransferRequestHandler.UploadEndRequested | ftp_server/FileTransferRequestHandler.cpp:622-687 | the stream is closed, or a missing one run into; the session ends only if the time could be set |
| FileTransfer.FileTransferRequestHandler.OpenDownload | ftp_server/FileTransferRequestHandler.cpp:706-738 | the previous download is closed, then the new one opened and positioned, or left half open by a failure |
| FileTransfer.FileTransferRequestHandler.SendData | ftp_server/FileTransferRequestHandler.cpp:768-856 | a data reply with what was read, an end reply at the end of the file, a failure otherwise; a missing stream is run into |
| FileTransfer.FileTransferRequestHandler.MvFileRequested | ftp_server/FileTransferRequestHandler.cpp:375-403 | the source moves to a free name, or nothing happens |
| FileTransfer.WinFile.Seek | aaa_file_lib/WinFile.cpp:143-157 | a relative move whose argument is compared with the size of the file |
| FileTransfer.WinFile.Read | aaa_file_lib/WinFile.cpp:166-188 | at least one byte and at most what was asked for, the next bytes of the file; end of file exactly when nothing is left |
| FileTransfer.WinFile.WriteFully | aaa_file_lib/WinFile.cpp:190-204 | the data at the position of the channel, all of it or after a fault a beginning |
| DirectorySizes.GetDirectorySize | ftp_server/FileTransferRequestHandler.cpp:877-922 | the sum, as a 64-bit counter has it, of the sizes of all files reached through folders that can be listed; fails only if the outermost cannot |
| DirectorySizes.OnlyFilesCount | ftp_server/FileTransferRequestHandler.cpp:877-922 | a folder that can be listed counts as its entries in its place, one that cannot as nothing, a file as its size |
| QueryStrings.SplitIsAtTheFirst | http_server/ArgList.cpp:104-128 | the split puts the string back together at its first delimiter; without one everything is in front |
| QueryStrings.SplitOfConcat | http_server/ArgList.cpp:104-128 | a split at a delimiter with none before it is the only one |
| QueryStrings.PairsRoundTrip | http_server/ArgList.cpp:30-63 | printing any clean list of pairs and parsing it gives the list back, in order |
| QueryStrings.ComesBackIffClean | http_server/ArgList.cpp:30-63 | a list comes back exactly when no key holds a reserved character and no value an ampersand or a plus sign |
| QueryStrings.ParseIsStable | http_server/ArgList.cpp:30-63 | for every query string, printing what was parsed and parsing that changes nothing |
| QueryStrings.PairThenRest | http_server/ArgList.cpp:30-63 | any query string is read from ampersand to ampersand, empty pairs among them, up to an empty one that nothing follows |
| QueryStrings.OnePairIs | http_server/ArgList.cpp:46-58 | a pair is split at its first equals sign, without one it is all key; plus signs become spaces and nothing else changes |
| QueryStrings.ArgumentsRoundTrip | http_server/ArgList.cpp:30-63 | the arguments are the last-wins map of the printed list |
| QueryStrings.ValueOfLastPair | http_server/ArgList.cpp:60-60 | the value of a key is that of its last pair |
| ArgLists.SplitPair | http_server/ArgList.cpp:104-128 | the in-place loop computes the split at the first delimiter, also when the value goes into the buffer that is read, and stays inside the buffers |
| ArgLists.HtmlDecode | http_server/ArgList.cpp:130-138 | every plus sign is a space, the length is kept |
| ArgLists.ArgList.constructor | http_server/ArgList.cpp:30-63 | the loop ends and the map is the last-wins map of the pairs of the string |
| ArgLists.KeyAndValue | http_server/ArgList.cpp:50-58 | one pair split at its first equals sign and decoded |
| ArgLists.ArgList.GetValue | http_server/ArgList.cpp:93-102 | the value that the last pair of the query string with the key has; none exactly when there is no such pair |
| ArgLists.ArgList.GetCount | http_server/ArgList.cpp:73-76 | nothing to count exactly when the query string has no pairs |
| HttpRequests.RequestRoundTrip | http_server/HttpRequest.cpp:62-148 | a request printed from a file name and arguments is read line by line, its header skipped, its target taken apart into that file name and the last-wins map; the body is what is left |
| HttpRequests.GetRoundTrip | http_server/HttpRequest.cpp:89-125 | the same for the request line alone, for targets of at most 2000 characters |
| HttpRequests.FileRoundTrip | http_server/HttpRequest.cpp:89-125 | a target without a question mark is all file name, with no arguments and an empty map |
| HttpRequests.FileIsInFront | http_server/HttpRequest.cpp:101-120 | for any target the file name is all of it, or what is in front of its first question mark |
| HttpRequests.OtherQuestionMarksDrop | http_server/HttpRequest.cpp:107-120 | behind the first question mark every other one is dropped and every other character kept |
| HttpRequests.TargetIsFoundIff | http_server/HttpRequest.cpp:97-99 | a target is found exactly in a request that begins with the method and has more than space behind it |
| HttpRequests.FirstWordIsFound | http_server/HttpRequest.cpp:97-99 | it is the first word behind the method, as far as it fits |
| HttpRequests.TargetIsFound | http_server/HttpRequest.cpp:97-99 | the scan finds a target of up to 2000 characters whole and cuts a longer one there |
| HttpRequests.HeaderIsSkipped | http_server/HttpRequest.cpp:69-87 | the header is skipped through its first blank line and not a character further |
| HttpRequests.NoBlankLine | http_server/HttpRequest.cpp:69-87 | without a blank line the header is never left |
| HttpRequests.LineIsExact | http_server/HttpRequest.cpp:127-148 | a line is what is up to its end, as much as fits, or all there is |
| HttpRequests.OwnArguments | http_server/HttpRequest.cpp:111-122 | the argument map of a parse on a new object, as the program makes for each request, is that of the request's own arguments; after another parse on the object it still is if they are at least as long |
| HttpRequests.TailOfOldArguments | http_server/HttpRequest.cpp:111-122 | for any two printed requests parsed one after the other on an object: where the old arguments, from the length of the new ones on, are whole pairs, those pairs are in the map as if the second request had them |
| HttpRequests.OldKeyShows | http_server/HttpRequest.cpp:111-122 | two requests where a key of the first shows in the map of the second |
| HttpRequestObjects.HttpRequest.HasArguments | http_server/HttpRequest.cpp:52-55 | there are arguments exactly when a request was parsed whose query string has pairs |
| HttpRequestObjects.HttpRequest.ReadLine | http_server/HttpRequest.cpp:127-148 | the line through its end, or as much as fits, terminated; fails exactly when the stream ends first |
| HttpRequestObjects.HttpRequest.SkipHeader | http_server/HttpRequest.cpp:69-87 | the input is left behind the first blank line |
| HttpRequestObjects.HttpRequest.ReadHeader | http_server/HttpRequest.cpp:62-67 | the request line is in its buffer and the header skipped, or the stream ended |
| HttpRequestObjects.HttpRequest.SplitTarget | http_server/HttpRequest.cpp:101-120 | the in-place loop leaves the file name before the first question mark, and behind it the arguments over the old buffer, later question marks dropped |
| HttpRequestObjects.HttpRequest.ParseHeader | http_server/HttpRequest.cpp:89-125 | file name and arguments of a GET request, or no change and no arguments |
| Profiler.Conservation | aaa_log_writer/ProfileLogger.cpp:93-156 | for any sorted order of N checkpoints and any enumeration of the groups: N - 1 differences, none negative, adding up to the cycles, the process time and the kernel time from the first to the last, which have the least and the greatest cycle |
| Profiler.GroupsAreExact | aaa_log_writer/ProfileLogger.cpp:126-140 | each group is exactly the differences of its neighbouring tags in order; there is one for each such pair, and none is empty |
| Profiler.AverageIsBetween | aaa_log_writer/ProfileLogger.cpp:80-91 | the average of a group lies between its extremes |
| Profiler.VectorStats | aaa_log_writer/ProfileLogger.cpp:80-91 | minimum, maximum, sum and number of a group |
| Profiler.PrintGroups | aaa_log_writer/ProfileLogger.cpp:142-153 | one report for each group, which is never empty, on its cycles, process and kernel times |
| Profiler.PrintedSums | aaa_log_writer/ProfileLogger.cpp:80-91 | the sums behind the printed averages are the totals that are conserved |
| Profiler.GroupNeighbours | aaa_log_writer/ProfileLogger.cpp:126-140 | the loop computes the groups |
| Profiler.ProfileLogger.Collect | aaa_log_writer/ProfileLogger.cpp:105-114 | the flat list holds every recorded checkpoint as often as it was recorded, and nothing else |
| Profiler.ProfileLogger.CheckPoint | aaa_log_writer/ProfileLogger.cpp:39-71 | the difference to the previous checkpoint, the cycle modulo 64 bits, and the checkpoint recorded under its tag |
| Profiler.ProfileLogger.DropStat | aaa_log_writer/ProfileLogger.cpp:93-156 | exactly when statistics are dropped, the report on each group of some sorted order of all checkpoints, and that the profiler starts afresh |
| PointerStream.RunStaysInStep | rfb_client/DesktopWindow.cpp:476-512 | over every run without silent messages the remembered state is the last event sent, and no wheel button is down |
| PointerStream.StaysInStepIff | rfb_client/DesktopWindow.cpp:486-510 | one call keeps the server in step exactly when it sends or has nothing new to say |
| PointerStream.ServerSeesTheUser | rfb_client/DesktopWindow.cpp:426-512 | dropped events are redundant: after any message that is not ignored the server's last event is its position and its buttons, swapped and with the wheel released |
| PointerStream.ServerSeesTheButtons | rfb_client/DesktopWindow.cpp:426-512 | the same in plain words: with the swap off the server's last event has the user's own buttons, with it on the middle and the right one exchanged, the wheel released in both |
| PointerStream.WheelTurnsTheUsersWay | rfb_client/DesktopWindow.cpp:500-508 | what a message sends is at its own place and turns the wheel its own way |
| PointerStream.NothingIsHeard | rfb_client/DesktopWindow.cpp:428-448 | nothing happens while the window is minimized, its toolbar pressed, it only views or is not connected, or the mouse is outside |
| PointerStream.NothingIsRepeated | rfb_client/DesktopWindow.cpp:486-499 | over every such run no event repeats the one before it |
| PointerStream.WheelNeverSticks | rfb_client/DesktopWindow.cpp:500-508 | over every run at all, each press of the wheel is followed at once by its release, which changes nothing else |
| PointerStream.OnePressForEachStep | rfb_client/DesktopWindow.cpp:500-508 | over every run there is one press for each step of the wheel |
| PointerStream.SwapIsAnInvolution | rfb_client/DesktopWindow.cpp:452-466 | the swap exchanges the middle and the right button, twice is nothing, and the others stay |
| PointerStream.SilentTurnIsLost | rfb_client/DesktopWindow.cpp:491-508 | a turn by no steps at a new place is remembered but never sent, not even by a message that repeats the place |
| PointerStream.DesktopWindow.OnMouse | rfb_client/DesktopWindow.cpp:426-512 | the state and the events after a mouse message are those of the machine |
| PointerStream.DesktopWindow.SwapButtons | rfb_client/DesktopWindow.cpp:452-466 | the swap as the statements do it |
| PointerStream.DesktopWindow.SendPointerEvent | rfb_client/DesktopWindow.cpp:1172-1194 | one event, unless the window only views or has no viewer core |

## Left out

- LogFiles.RotationIsExactShift: paths are triples of directory, name and slot, so two logs whose file names collide as text, such as "a" and "a.1", are not modelled.
- LogJournal.FilesShowTheJournal: covers runs without I/O faults and without other programs changing the files.
- FileAccounts.FileAccount.Print: a formatted line is one opaque value made of the record and of the choice between the two timestamp formats; a print reads the clock once.
- FileAccounts.FileAccount.OpenFile: `mkdir` of the log directory and the catch around the replay are not modelled.
- LogServers.LogServer.OnLog: the server holds its accounts and connections by value, so aliasing between them is not captured.
- Sessions.BothEndsAgree: the two ends of the handshake are one state machine over their reads and writes, not classes, because each blocks on what the other writes; refused processes, timeouts and broken pipes are not modelled.
- EndToEnd.SentLineIsDelivered: how a file name is decoded is a parameter; a line of a print so early in `connect` that it is ahead of the name on the stream is read as something else, and not covered.
- LevelSenders.NoLostUpdate: assumes an event that resets itself when a wait returns, and a channel that does not break; the end of the thread is not modelled.
- ClientLogModel.WireRoundTrip: messages an account prints about itself have no wire form, because no client prints them.
- The file transfer machine: what the system decides - access, short reads, faults, times, listings - comes with each request; error texts are opaque; renaming a folder moves the folder entry only, not the paths inside it.
- FileTransferSessions.DownloadCarriesContent: compression is an inverse pair of functions without state, and the compressed form of data is not empty.
- FileTransfer.HashLoop: the digest is a function of all bytes given to it; that updating it in portions is the same is a property of the hash library.
- FileTransfer.FileTransferRequestHandler.OnRequest: a channel pointer and the channel it points to are one object that can be empty; requires that the whole body arrives; what the program does after it ran into a missing stream or the end of a buffer is not modelled.
- The class DataOutputStream is not part of this model: whether a write of no bytes reaches the channel is a parameter, and every result about uploads holds either way.
- FileTransferMessages.RequestRoundTrip: the client of the repository has no MD5 request; its layout is that which the handler reads.
- FileTransferMessages.ReplyRoundTrip: the reader is one of all reply layouts; the client of the repository refuses the MD5 reply, which it never asks for.
- FileTransfer.WinFile.Read: sharing modes, the open modes other than opening an existing file, and `available` are not modelled.
- HttpRequestObjects.HttpRequest.ParseHeader: `sscanf` is the function of its format string; characters are not limited to eight bits, and signed comparison is written out.
- ArgLists.ArgList.GetValue: the enumeration of keys by index is not modelled.
- Profiler.Conservation: integers in place of scaled doubles; the three parallel vectors of a group are one vector of triples.
- Profiler.ProfileLogger.DropStat: the sort of the library is some sorting method with the same contract; the text of the statistics is not modelled.
- PointerStream.RunStaysInStep: the translation from window to desktop coordinates is a parameter; events lost because the connection throws are not modelled.
- Process path checks, the random pipe name, handle duplication, impersonation and access rules: system calls without logic of this program.
- The end of threads, timers, thread collection and destructors.
- Window, dialog, toolbar, COM and ActiveX code, and the second copies of the viewer and of the file transfer handler in the other clients.
- Password coding and the queue of the listening server: nothing above depends on them.
