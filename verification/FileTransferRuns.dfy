/** Properties of the file transfer handler over whole runs. */
module FileTransferRuns {
  import opened Wrappers
  import opened Codec
  import opened FileTransferMessages
  import opened FileTransferModel

  /** A request with the answers the system gives while it is handled. */
  datatype Call = Call(request: Request, world: World)

  // ---- Framing ----

  datatype Run = Run(handler: Handler, replies: seq<Reply>) | Broken

  function RunAll(h: Handler, calls: seq<Call>, lib: Library): Run
    decreases |calls|
  {
    if calls == [] then Run(h, [])
    else
      match Handle(h, calls[0].request, calls[0].world, lib)
      case Undefined => Broken
      case Replied(h1, reply) =>
        match RunAll(h1, calls[1..], lib)
        case Broken => Broken
        case Run(h2, replies) => Run(h2, [reply] + replies)
  }

  /** The bytes of the requests, in front of whatever follows. */
  function AllRequests(calls: seq<Call>, rest: seq<byte>): seq<byte> {
    if calls == [] then rest else RequestBytes(calls[0].request, AllRequests(calls[1..], rest))
  }

  function AllReplies(replies: seq<Reply>): seq<byte> {
    if replies == [] then [] else ReplyBytes(replies[0], AllReplies(replies[1..]))
  }

  /** The server side of the stream: a code is read, the handler reads its body and answers. */
  datatype Served = Served(handler: Handler, output: seq<byte>, unread: seq<byte>) | Stopped

  function Serve(h: Handler, input: seq<byte>, worlds: seq<World>, lib: Library): Served
    decreases |worlds|
  {
    if worlds == [] then Served(h, [], input)
    else
      match TakeRequest(input)
      case Short => Stopped
      case Got(r, rest) =>
        match Handle(h, r, worlds[0], lib)
        case Undefined => Stopped
        case Replied(h1, reply) =>
          match Serve(h1, rest, worlds[1..], lib)
          case Stopped => Stopped
          case Served(h2, output, unread) => Served(h2, ReplyBytes(reply, output), unread)
  }

  /** The client's reading of n replies. */
  function ReadReplies(s: seq<byte>, n: nat): Read<seq<Reply>> {
    if n == 0 then Got([], s)
    else
      var (reply, s1) :- TakeReply(s);
      var (replies, rest) :- ReadReplies(s1, n - 1);
      Got([reply] + replies, rest)
  }

  function Worlds(calls: seq<Call>): seq<World> {
    seq(|calls|, i requires 0 <= i < |calls| => calls[i].world)
  }

  lemma {:induction false} RepliesReadBack(replies: seq<Reply>)
    ensures ReadReplies(AllReplies(replies), |replies|) == Got(replies, [])
  {
    if replies != [] {
      hide TakeReply, ReplyBytes;
      RepliesReadBack(replies[1..]);
      ReplyRoundTrip(replies[0], AllReplies(replies[1..]));
      assert [replies[0]] + replies[1..] == replies;
    }
  }

  lemma {:induction false} ServeFollowsRun(h: Handler, calls: seq<Call>, rest: seq<byte>, lib: Library)
    ensures Serve(h, AllRequests(calls, rest), Worlds(calls), lib)
         == match RunAll(h, calls, lib)
            case Broken => Stopped
            case Run(h2, replies) => Served(h2, AllReplies(replies), rest)
    decreases |calls|
  {
    if calls != [] {
      hide TakeRequest, ReplyBytes, Handle;
      RequestRoundTrip(calls[0].request, AllRequests(calls[1..], rest));
      var result := Handle(h, calls[0].request, calls[0].world, lib);
      assert Worlds(calls)[1..] == Worlds(calls[1..]) && Worlds(calls)[0] == calls[0].world;
      if result.Replied? {
        ServeFollowsRun(result.handler, calls[1..], rest, lib);
        if RunAll(result.handler, calls[1..], lib).Run? {
          var replies := RunAll(result.handler, calls[1..], lib).replies;
          assert ([result.reply] + replies)[1..] == replies;
        }
      }
    }
  }

  lemma {:induction false} OneReplyPerRequest(h: Handler, calls: seq<Call>, lib: Library)
    ensures var run := RunAll(h, calls, lib); run.Run? ==> |run.replies| == |calls|
    decreases |calls|
  {
    if calls != [] && Handle(h, calls[0].request, calls[0].world, lib).Replied? {
      OneReplyPerRequest(Handle(h, calls[0].request, calls[0].world, lib).handler, calls[1..], lib);
    }
  }

  // ---- Which requests are answered ----

  /** What the starts and ends so far have left of an upload: nothing, a file object without a stream,
      one with its stream, or one whose stream is closed. */
  datatype Upload = Idle | Half | Whole | Closed

  /** What matters of the past: it is told from the calls and from the disk a start finds, never from
      the sessions of the handler. */
  datatype History = History(upload: Upload, halfDownload: bool)

  function NoHistory(): History {
    History(Idle, false)
  }

  /** The file of an upload can be made empty, if it is to be, and then be opened. */
  predicate CanStartUpload(disk: Disk, path: Path, flags: u8, w: World) {
    var (truncated, done) := if flags % 2 == 1 then Truncate(disk, path, w) else (disk, true);
    done && CanOpen(truncated, path, w)
  }

  /** A granted start decides what is there, until the next one. An end closes the stream of an upload
      that has one, and ends the upload if the time of its file can be set. */
  function Remember(k: History, disk: Disk, call: Call): History {
    var w := call.world;
    if !w.access then k
    else
      match call.request
      case UploadStart(path, flags, _) =>
        k.(upload := if w.inRoot then Idle else if CanStartUpload(disk, path, flags, w) then Whole else Half)
      case UploadEnd(_, _) =>
        if k.upload.Whole? || k.upload.Closed? then k.(upload := if w.canStamp then Idle else Closed) else k
      case DownloadStart(path, _) => k.(halfDownload := !CanOpen(disk, path, w))
      case _ => k
  }

  /** The requests that make the handler use a stream that is not there, or read behind the end of the
      data it received. */
  predicate Misuses(k: History, call: Call, lib: Library) {
    && call.world.access
    && match call.request
       case UploadData(level, size, data) =>
         && data != []
         && if level == 0 then
              (k.upload.Half? && (size > 0 || lib.emptyWrites)) || (k.upload.Whole? && size > |data|)
            else
              k.upload.Half? && lib.inflate(data).Some? && (lib.inflate(data).value != [] || lib.emptyWrites)
       case UploadEnd(_, _) => k.upload.Half?
       case DownloadData(_, size) => k.halfDownload && size > 0
       case _ => false
  }

  /** The history says what the sessions are. */
  predicate Explains(k: History, h: Handler) {
    && (k.upload.Idle? <==> h.uploadFile.None?)
    && (k.upload.Half? <==> h.uploadFile.Some? && h.output.NoStream?)
    && (k.upload.Closed? <==> h.uploadFile.Some? && h.output.ClosedStream?)
    && (k.halfDownload <==> h.downloadFile.Some? && h.input.NoStream?)
  }

  lemma UndefinedIffMisused(k: History, h: Handler, call: Call, lib: Library)
    requires Explains(k, h)
    ensures Handle(h, call.request, call.world, lib).Undefined? <==> Misuses(k, call, lib)
  {
  }

  lemma UploadHistoryGoesOn(k: History, h: Handler, call: Call, lib: Library)
    requires Explains(k, h) && Handle(h, call.request, call.world, lib).Replied?
    ensures var k1, h1 := Remember(k, h.disk, call), Handle(h, call.request, call.world, lib).handler;
            && (k1.upload.Idle? <==> h1.uploadFile.None?)
            && (k1.upload.Half? <==> h1.uploadFile.Some? && h1.output.NoStream?)
            && (k1.upload.Closed? <==> h1.uploadFile.Some? && h1.output.ClosedStream?)
  {
    var r := call.request;
    if !r.UploadStart? && !r.UploadData? && !r.UploadEnd? {
      OtherThanUpload(h, r, call.world, lib);
      hide Handle;
    }
  }

  lemma OtherThanUpload(h: Handler, r: Request, w: World, lib: Library)
    requires !r.UploadStart? && !r.UploadData? && !r.UploadEnd? && Handle(h, r, w, lib).Replied?
    ensures var h1 := Handle(h, r, w, lib).handler; h1.uploadFile == h.uploadFile && h1.output == h.output
  {
  }

  lemma DownloadHistoryGoesOn(k: History, h: Handler, call: Call, lib: Library)
    requires Explains(k, h) && Handle(h, call.request, call.world, lib).Replied?
    ensures var k1, h1 := Remember(k, h.disk, call), Handle(h, call.request, call.world, lib).handler;
            k1.halfDownload <==> h1.downloadFile.Some? && h1.input.NoStream?
  {
    if !call.request.DownloadStart? && !call.request.DownloadData? {
      OtherThanDownload(h, call.request, call.world, lib);
      hide Handle;
    }
  }

  lemma OtherThanDownload(h: Handler, r: Request, w: World, lib: Library)
    requires !r.DownloadStart? && !r.DownloadData? && Handle(h, r, w, lib).Replied?
    ensures var h1 := Handle(h, r, w, lib).handler; h1.downloadFile == h.downloadFile && h1.input == h.input
  {
  }

  lemma HistoryGoesOn(k: History, h: Handler, call: Call, lib: Library)
    requires Explains(k, h) && Handle(h, call.request, call.world, lib).Replied?
    ensures Explains(Remember(k, h.disk, call), Handle(h, call.request, call.world, lib).handler)
  {
    hide Handle, Remember;
    UploadHistoryGoesOn(k, h, call, lib);
    DownloadHistoryGoesOn(k, h, call, lib);
  }

  /** The handler after a request, whether or not it could be answered. */
  function Continued(h: Handler, call: Call, lib: Library): Handler {
    var result := Handle(h, call.request, call.world, lib);
    if result.Replied? then result.handler else h
  }

  /** How many requests come before the first misuse. */
  function Answered(k: History, h: Handler, calls: seq<Call>, lib: Library): (n: nat)
    ensures n <= |calls|
    decreases |calls|
  {
    if calls == [] || Misuses(k, calls[0], lib) then 0
    else 1 + Answered(Remember(k, h.disk, calls[0]), Continued(h, calls[0], lib), calls[1..], lib)
  }

  function HistoryAfter(k: History, h: Handler, calls: seq<Call>, lib: Library): History
    decreases |calls|
  {
    if calls == [] then k
    else HistoryAfter(Remember(k, h.disk, calls[0]), Continued(h, calls[0], lib), calls[1..], lib)
  }

  lemma {:induction false} AnsweredRun(k: History, h: Handler, calls: seq<Call>, lib: Library)
    requires Explains(k, h)
    ensures var n := Answered(k, h, calls, lib);
            && RunAll(h, calls[..n], lib).Run? && (RunAll(h, calls, lib).Run? <==> n == |calls|)
            && (n == |calls| ==> Explains(HistoryAfter(k, h, calls, lib), RunAll(h, calls, lib).handler))
    decreases |calls|
  {
    if calls != [] {
      hide Handle, Misuses, Remember, Explains;
      var call := calls[0];
      UndefinedIffMisused(k, h, call, lib);
      if !Misuses(k, call, lib) {
        HistoryGoesOn(k, h, call, lib);
        var h1, k1 := Handle(h, call.request, call.world, lib).handler, Remember(k, h.disk, call);
        var n := Answered(k1, h1, calls[1..], lib);
        AnsweredRun(k1, h1, calls[1..], lib);
        assert calls[..n + 1][1..] == calls[1..][..n];
      }
    }
  }

  /** A run is answered to its end exactly when no request in it misuses a session, as the calls before
      it and the disks their starts found tell; and there is a file object without a stream exactly
      after a granted start whose file could not be emptied or opened, and one with a closed stream
      exactly after an end of a whole upload that could not set the time. */
  lemma AnsweredIffNeverMisused(disk: Disk, calls: seq<Call>, lib: Library)
    ensures var h := NewHandler(disk);
            var run, k := RunAll(h, calls, lib), HistoryAfter(NoHistory(), h, calls, lib);
            && (run.Run? <==> Answered(NoHistory(), h, calls, lib) == |calls|)
            && (run.Run? ==>
                  && (k.upload.Half? <==> run.handler.uploadFile.Some? && run.handler.output.NoStream?)
                  && (k.upload.Closed? <==> run.handler.uploadFile.Some? && run.handler.output.ClosedStream?)
                  && (k.halfDownload <==> run.handler.downloadFile.Some? && run.handler.input.NoStream?))
  {
    AnsweredRun(NoHistory(), NewHandler(disk), calls, lib);
  }

  /** Every run keeps framing, whatever fails: the requests before the first misuse are read off the
      stream to the last byte, with whatever follows them left untouched, and are answered by exactly
      as many replies, which are read back in order. */
  lemma FramingIsKept(disk: Disk, calls: seq<Call>, rest: seq<byte>, lib: Library)
    ensures var h := NewHandler(disk);
            var n := Answered(NoHistory(), h, calls, lib);
            var served := Serve(h, AllRequests(calls[..n], rest), Worlds(calls[..n]), lib);
            var run := RunAll(h, calls[..n], lib);
            && run.Run? && served.Served? && served.unread == rest
            && ReadReplies(served.output, n) == Got(run.replies, [])
  {
    var h := NewHandler(disk);
    var n := Answered(NoHistory(), h, calls, lib);
    AnsweredRun(NoHistory(), h, calls, lib);
    ServeFollowsRun(h, calls[..n], rest, lib);
    OneReplyPerRequest(h, calls[..n], lib);
    RepliesReadBack(RunAll(h, calls[..n], lib).replies);
  }

  /** One request for each registered code. */
  function Sample(code: u32): Request {
    match code
    case 0xFC000102 => FileList(0, [])
    case 0xFC000104 => Md5([], 0, 0)
    case 0xFC000106 => UploadStart([], 0, 0)
    case 0xFC000108 => UploadData(0, 0, [])
    case 0xFC00010A => UploadEnd(0, 0)
    case 0xFC00010C => DownloadStart([], 0)
    case 0xFC00010E => DownloadData(0, 0)
    case 0xFC000111 => MkDir([])
    case 0xFC000113 => Remove([])
    case 0xFC000115 => Rename([], [])
    case 0xFC000117 => DirSize([])
    case _ => CompressionSupport
  }

  /** The registered codes are exactly those of the requests that are handled. */
  lemma RegisteredAreHandled(code: u32)
    ensures code in REGISTERED <==> exists r: Request :: Code(r) == code
  {
    assert code in REGISTERED ==> Code(Sample(code)) == code;
    forall r: Request
      ensures Code(r) in REGISTERED
    {
      CodeIsRegistered(r);
    }
  }

  lemma CodeIsRegistered(r: Request)
    ensures Code(r) in REGISTERED
  {
    assert REGISTERED[0] == 0xFC000100 && REGISTERED[1] == 0xFC000102 && REGISTERED[2] == 0xFC000104;
    assert REGISTERED[3] == 0xFC000106 && REGISTERED[4] == 0xFC000108 && REGISTERED[5] == 0xFC00010A;
    assert REGISTERED[6] == 0xFC00010C && REGISTERED[7] == 0xFC00010E && REGISTERED[8] == 0xFC000111;
    assert REGISTERED[9] == 0xFC000113 && REGISTERED[10] == 0xFC000115 && REGISTERED[11] == 0xFC000117;
  }

  // ---- When a stream is missing ----

  /** A client's own view: it was told that the upload, or the download, has started. */
  datatype View = View(uploading: bool, downloading: bool)

  function Learn(v: View, r: Request, reply: Reply): View {
    match r
    case UploadStart(_, _, _) => v.(uploading := reply.UploadStartReply?)
    case UploadEnd(_, _) => v.(uploading := v.uploading && !reply.UploadEndReply?)
    case DownloadStart(_, _) => v.(downloading := reply.DownloadStartReply?)
    case DownloadData(_, _) => v.(downloading := v.downloading && !reply.DownloadEndReply?)
    case _ => v
  }

  /** Session requests are sent only in a session that was started, with equal sizes when the data is
      not compressed. */
  predicate Careful(v: View, r: Request) {
    && (r.UploadData? ==> v.uploading && (r.level == 0 ==> r.uncompressedSize == |r.data|))
    && (r.UploadEnd? ==> v.uploading)
    && (r.DownloadData? ==> v.downloading)
  }

  predicate CarefulRun(v: View, h: Handler, calls: seq<Call>, lib: Library)
    decreases |calls|
  {
    calls == [] ||
    (Careful(v, calls[0].request) &&
     match Handle(h, calls[0].request, calls[0].world, lib)
     case Undefined => true
     case Replied(h1, reply) => CarefulRun(Learn(v, calls[0].request, reply), h1, calls[1..], lib))
  }

  /** What a client was told about is there. */
  predicate Backed(v: View, h: Handler) {
    && (v.uploading ==> h.uploadFile.Some? && !h.output.NoStream?)
    && (v.downloading ==> h.downloadFile.Some? && !h.input.NoStream?)
  }

  lemma CarefulStep(v: View, h: Handler, r: Request, w: World, lib: Library)
    requires Backed(v, h) && Careful(v, r)
    ensures var result := Handle(h, r, w, lib);
            result.Replied? && Backed(Learn(v, r, result.reply), result.handler)
  {
  }

  /** A careful client always gets its replies. */
  lemma {:induction false} CarefulClientsAreAnswered(v: View, h: Handler, calls: seq<Call>, lib: Library)
    requires Backed(v, h) && CarefulRun(v, h, calls, lib)
    ensures RunAll(h, calls, lib).Run?
    decreases |calls|
  {
    if calls != [] {
      CarefulStep(v, h, calls[0].request, calls[0].world, lib);
      var result := Handle(h, calls[0].request, calls[0].world, lib);
      CarefulClientsAreAnswered(Learn(v, calls[0].request, result.reply), result.handler, calls[1..], lib);
    }
  }

  /** The careless one need not: a download whose file cannot be opened is answered by a failure, but
      leaves its file object behind without a stream. The next request for data then uses the
      missing stream - exactly when access is granted and data is asked for. */
  lemma FailedStartLeavesNoStream(h: Handler, path: Path, offset: u64, w: World, next: World, level: u8, size: u32,
                                  lib: Library)
    requires w.access && !CanOpen(h.disk, path, w)
    ensures var start := Handle(h, DownloadStart(path, offset), w, lib);
            && start.Replied? && start.reply.LastRequestFailed?
            && start.handler.downloadFile.Some? && start.handler.input.NoStream?
            && (Handle(start.handler, DownloadData(level, size), next, lib).Undefined? <==> next.access && size > 0)
  {
  }

  /** The same for uploads: a granted start outside the root leaves a file object without a stream
      exactly when its file could not be emptied, as asked, or opened. Data is then written to the
      missing stream exactly when there is any and it is not refused before, by the access check or by
      the decompressor - and if nothing is left to write, when a write of nothing reaches the channel. */
  lemma FailedUploadStartLeavesNoStream(h: Handler, path: Path, flags: u8, offset: u64, w: World, next: World,
                                        level: u8, size: u32, data: Block, end: Request, lib: Library)
    requires w.access && !w.inRoot && end.UploadEnd?
    ensures var start := Handle(h, UploadStart(path, flags, offset), w, lib);
            && start.Replied? && start.handler.uploadFile.Some?
            && (start.handler.output.NoStream? <==> !CanStartUpload(h.disk, path, flags, w))
            && (start.handler.output.NoStream? ==>
                  && start.reply.LastRequestFailed?
                  && (Handle(start.handler, UploadData(level, size, data), next, lib).Undefined? <==>
                        && next.access && data != []
                        && (level == 0 || lib.inflate(data).Some?)
                        && (lib.emptyWrites || if level == 0 then size > 0 else lib.inflate(data).value != []))
                  && (Handle(start.handler, end, next, lib).Undefined? <==> next.access))
  {
  }

  /** Even in a session that is whole - the file object and the stream are there, and the stream is
      open - data that is not compressed is read behind its end exactly when
      its stated size says so: one byte with a stated size of two, for one. */
  lemma StatedSizeIsTrusted(h: Handler, w: World, size: u32, data: Block, lib: Library)
    requires w.access && h.uploadFile.Some? && h.output.OpenAt? && data != []
    ensures Handle(h, UploadData(0, size, data), w, lib).Undefined? <==> size > |data|
    ensures Handle(h, UploadData(0, 2, [7]), w, lib).Undefined?
  {
  }

  /** An end that cannot set the time leaves an upload whose stream is closed: whatever its stated size,
      data sent to it all the same is never written. It is refused - unless there is nothing to write -
      and the disk stays as it is. */
  lemma FailedEndLeavesAClosedStream(h: Handler, end: Request, w: World, next: World, level: u8, size: u32, data: Block,
                                     lib: Library)
    requires end.UploadEnd? && w.access && !w.canStamp && h.uploadFile.Some? && !h.output.NoStream?
    ensures var result := Handle(h, end, w, lib);
            && result.Replied? && result.reply.LastRequestFailed?
            && var stored := Handle(result.handler, UploadData(level, size, data), next, lib);
               && stored.Replied? && stored.handler == result.handler && stored.handler.disk == h.disk
               && (stored.reply.LastRequestFailed? <==>
                     !next.access
                     || (data != []
                         && (lib.emptyWrites || if level == 0 then size > 0 else lib.inflate(data) != Some([]))))
  {
  }
}
