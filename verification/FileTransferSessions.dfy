/** What the two sessions carry: downloads deliver, and uploads store, exactly the content. */
module FileTransferSessions {
  import opened Wrappers
  import opened FileTransferMessages
  import opened FileTransferModel
  import opened FileTransferRuns

  /** Compression is an inverse pair on the data that fits a block, and gives no empty block for any. */
  ghost predicate Inverse(lib: Library) {
    forall s: Block | s != [] :: lib.inflate(lib.deflate(s)) == Some(s) && lib.deflate(s) != []
  }

  /** There are such libraries: the one that stores data as it is. */
  lemma SomeLibraryIsInverse(lib: Library)
    ensures exists lib: Library :: Inverse(lib)
  {
    var stored := lib.(deflate := (s: seq<byte>) => if |s| < 0x1_0000_0000 then s else [],
                       inflate := (s: seq<byte>) => Some(s));
    assert Inverse(stored);
  }

  /** A data block as the client reads it: an empty one is not given to the decompressor. */
  function Plain(level: u8, data: Block, lib: Library): seq<byte> {
    if |data| == 0 || level == 0 then data else lib.inflate(data).GetOr([])
  }

  // ---- Which requests touch a file ----

  function Touched(h: Handler, r: Request): set<Path> {
    match r
    case UploadStart(path, _, _) => {path}
    case UploadData(_, _, _) => if h.output.OpenAt? then {h.output.path} else {}
    case MkDir(path) => {path}
    case Remove(path) => {path}
    case Rename(oldPath, newPath) => {oldPath, newPath}
    case _ => {}
  }

  /** A request changes nothing on the disk outside the paths it touches; only download requests
      move the download session, and only upload requests the upload session. */
  lemma OthersAreUntouched(h: Handler, r: Request, w: World, lib: Library, path: Path)
    requires Handle(h, r, w, lib).Replied?
    ensures var h1 := Handle(h, r, w, lib).handler;
            && (path !in Touched(h, r) ==>
                  (path in h1.disk <==> path in h.disk) && (path in h.disk ==> h1.disk[path] == h.disk[path]))
            && (!r.DownloadStart? && !r.DownloadData? ==> h1.downloadFile == h.downloadFile && h1.input == h.input)
            && (!r.UploadStart? && !r.UploadData? && !r.UploadEnd? ==>
                  h1.uploadFile == h.uploadFile && h1.output == h.output)
  {
  }

  // ---- Download ----

  /** A download session of a file with the given bytes, at a position. */
  predicate Downloading(h: Handler, path: Path, b: seq<byte>, pos: nat) {
    && h.downloadFile.Some? && h.input == OpenAt(path, pos) && pos <= |b|
    && path in h.disk && h.disk[path] == File(b)
  }

  /** The session is served undisturbed: no request starts another download or touches the file. */
  predicate Undisturbed(h: Handler, path: Path, calls: seq<Call>, lib: Library)
    decreases |calls|
  {
    calls == [] ||
    (&& !calls[0].request.DownloadStart? && path !in Touched(h, calls[0].request)
     && var result := Handle(h, calls[0].request, calls[0].world, lib);
        result.Replied? && Undisturbed(result.handler, path, calls[1..], lib))
  }

  predicate Ended(replies: seq<Reply>) {
    exists i | 0 <= i < |replies| :: replies[i].DownloadEndReply?
  }

  /** The data a client puts together, up to the end reply. */
  function Received(replies: seq<Reply>, lib: Library): seq<byte> {
    if replies == [] || replies[0].DownloadEndReply? then []
    else
      DataOf(replies[0], lib) + Received(replies[1..], lib)
  }

  /** The part of the file that was carried. */
  predicate Carried(b: seq<byte>, pos: nat, got: seq<byte>) {
    pos + |got| <= |b| && got == b[pos..pos + |got|]
  }

  lemma CarriedTwice(b: seq<byte>, pos: nat, x: seq<byte>, y: seq<byte>)
    requires Carried(b, pos, x) && Carried(b, pos + |x|, y)
    ensures Carried(b, pos, x + y)
    ensures y == b[pos + |x|..] ==> x + y == b[pos..]
  {
  }

  /** What one request of a session brings. */
  predicate StepBrings(result: Result, path: Path, b: seq<byte>, pos: nat, got: seq<byte>)
    requires result.Replied?
  {
    if result.reply.DownloadEndReply? then
      pos == |b| && result.handler.downloadFile.None? && result.handler.input.NoStream?
    else
      Carried(b, pos, got) && Downloading(result.handler, path, b, pos + |got|)
  }

  /** The data in a reply: the client takes as many bytes as the reply says there are. */
  function DataOf(reply: Reply, lib: Library): seq<byte> {
    if reply.DownloadDataReply? then Take(Plain(reply.level, reply.data, lib), reply.uncompressedSize) else []
  }

  function Take(data: seq<byte>, n: nat): seq<byte> {
    if n <= |data| then data[..n] else data
  }

  /** The size that a reply states is that of the data it carries. */
  ghost predicate StatesItsSize(reply: Reply, lib: Library) {
    reply.DownloadDataReply? || reply.FileListReply? ==>
      reply.uncompressedSize == |Plain(reply.level, reply.data, lib)|
  }

  lemma SizeIsStated(h: Handler, r: Request, w: World, lib: Library)
    requires Inverse(lib) && Handle(h, r, w, lib).Replied?
    ensures StatesItsSize(Handle(h, r, w, lib).reply, lib)
  {
    if r.FileList? && w.access && w.listing.Some? {
      var list: Block := ListBytes(w.listing.value);
      assert list != [];
    }
    if r.DownloadData? && r.size > 0 && h.input.OpenAt? && h.input.pos < |Bytes(h.disk, h.input.path)| {
      var b, pos := Bytes(h.disk, h.input.path), h.input.pos;
      var part: Block := b[pos..pos + ShortRead(w.short, r.size, |b| - pos)];
      assert part != [];
    }
  }

  /** Over every run, whatever its requests, each reply that carries data states its true size. */
  lemma {:induction false} SizesAreStated(h: Handler, calls: seq<Call>, lib: Library)
    requires Inverse(lib) && RunAll(h, calls, lib).Run?
    ensures forall i | 0 <= i < |RunAll(h, calls, lib).replies| :: StatesItsSize(RunAll(h, calls, lib).replies[i], lib)
    decreases |calls|
  {
    if calls != [] {
      SizeIsStated(h, calls[0].request, calls[0].world, lib);
      hide Handle, StatesItsSize, Inverse;
      SizesAreStated(Handle(h, calls[0].request, calls[0].world, lib).handler, calls[1..], lib);
    }
  }

  lemma DownloadDataStep(h: Handler, path: Path, b: seq<byte>, pos: nat, level: u8, size: u32, w: World, lib: Library)
    requires Inverse(lib) && Downloading(h, path, b, pos)
    requires ContinueDownload(h, level, size, w, lib).Replied?
    ensures var result := ContinueDownload(h, level, size, w, lib);
            StepBrings(result, path, b, pos, DataOf(result.reply, lib))
  {
    if size > 0 && pos < |b| {
      var n := ShortRead(w.short, size, |b| - pos);
      assert Plain(level, if level == 0 then b[pos..pos + n] else lib.deflate(b[pos..pos + n]), lib) == b[pos..pos + n];
    }
  }

  lemma OtherStep(h: Handler, r: Request, w: World, lib: Library)
    requires !r.DownloadData? && Handle(h, r, w, lib).Replied?
    ensures var reply := Handle(h, r, w, lib).reply; !reply.DownloadEndReply? && !reply.DownloadDataReply?
  {
  }

  /** One request of a session: the data of the reply is the next part of the file; the end reply
      comes exactly at the end of the file, and leaves the session idle. */
  lemma DownloadStep(h: Handler, path: Path, b: seq<byte>, pos: nat, r: Request, w: World, lib: Library)
    requires Inverse(lib) && Downloading(h, path, b, pos)
    requires !r.DownloadStart? && path !in Touched(h, r) && Handle(h, r, w, lib).Replied?
    ensures var result := Handle(h, r, w, lib); StepBrings(result, path, b, pos, DataOf(result.reply, lib))
  {
    if r.DownloadData? && w.access {
      DownloadDataStep(h, path, b, pos, r.level, r.size, w, lib);
    } else if !r.DownloadData? {
      OthersAreUntouched(h, r, w, lib, path);
      OtherStep(h, r, w, lib);
    }
  }

  /** Every request for data makes progress: it delivers at least a byte, or the end. */
  lemma DownloadProgress(h: Handler, path: Path, b: seq<byte>, pos: nat, level: u8, size: u32, w: World, lib: Library)
    requires Inverse(lib) && Downloading(h, path, b, pos) && size > 0 && w.access && w.canRead
    ensures var result := Handle(h, DownloadData(level, size), w, lib);
            && result.Replied?
            && (result.reply.DownloadEndReply? <==> pos == |b|)
            && (pos < |b| ==> 1 <= |DataOf(result.reply, lib)| <= size)
  {
    if pos < |b| {
      var n := ShortRead(w.short, size, |b| - pos);
      assert Plain(level, if level == 0 then b[pos..pos + n] else lib.deflate(b[pos..pos + n]), lib) == b[pos..pos + n];
    }
  }

  /** What a run of a session has brought. */
  predicate Brought(run: Run, path: Path, b: seq<byte>, pos: nat, got: seq<byte>) {
    && run.Run?
    && Carried(b, pos, got)
    && (if Ended(run.replies) then got == b[pos..] else Downloading(run.handler, path, b, pos + |got|))
  }

  /** For any chunk sizes, any short reads, any compression levels and any other requests in
      between, the data before the end reply is the file from the position on: all of it once the
      end has come, a beginning of it before. */
  lemma {:induction false} DownloadCarriesContent(h: Handler, path: Path, b: seq<byte>, pos: nat, calls: seq<Call>,
                                                  lib: Library)
    requires Inverse(lib) && Downloading(h, path, b, pos) && Undisturbed(h, path, calls, lib)
    ensures var run := RunAll(h, calls, lib);
            run.Run? && Brought(run, path, b, pos, Received(run.replies, lib))
    decreases |calls|
  {
    if calls != [] {
      hide Handle, Touched, Downloading, Carried, Received, Ended, DataOf;
      var call := calls[0];
      DownloadStep(h, path, b, pos, call.request, call.world, lib);
      var result := Handle(h, call.request, call.world, lib);
      UndisturbedRunsAreAnswered(result.handler, path, calls[1..], lib);
      var rest := RunAll(result.handler, calls[1..], lib);
      ReceivedOfCons(result.reply, rest.replies, lib);
      EndedOfCons(result.reply, rest.replies);
      if result.reply.DownloadEndReply? {
        CarriedNothing(b, pos);
      } else {
        var first := DataOf(result.reply, lib);
        CarriedIsInside(b, pos, first);
        DownloadCarriesContent(result.handler, path, b, pos + |first|, calls[1..], lib);
        CarriedTwice(b, pos, first, Received(rest.replies, lib));
      }
    } else {
      CarriedNothing(b, pos);
    }
  }

  /** A request for data that nothing keeps from being served. */
  predicate Asks(call: Call) {
    call.request.DownloadData? && call.request.size > 0 && call.world.access && call.world.canRead
  }

  function AsksIn(calls: seq<Call>): nat {
    if calls == [] then 0 else (if Asks(calls[0]) then 1 else 0) + AsksIn(calls[1..])
  }

  /** What an undisturbed session brings is all of the file, and the end, as soon as one request more was
      made on a working disk than there are bytes left - however small they were, however short the
      reads, and whatever else was asked for, refused or failed in between. */
  lemma DownloadCompletes(h: Handler, path: Path, b: seq<byte>, pos: nat, calls: seq<Call>, lib: Library)
    requires Inverse(lib) && Downloading(h, path, b, pos) && Undisturbed(h, path, calls, lib)
    requires AsksIn(calls) > |b| - pos
    ensures var run := RunAll(h, calls, lib);
            run.Run? && Ended(run.replies) && Received(run.replies, lib) == b[pos..]
  {
    DownloadCarriesContent(h, path, b, pos, calls, lib);
    EndIsReached(h, path, b, pos, calls, lib);
  }

  lemma {:induction false} EndIsReached(h: Handler, path: Path, b: seq<byte>, pos: nat, calls: seq<Call>, lib: Library)
    requires Inverse(lib) && Downloading(h, path, b, pos) && Undisturbed(h, path, calls, lib)
    requires AsksIn(calls) > |b| - pos
    ensures RunAll(h, calls, lib).Run? && Ended(RunAll(h, calls, lib).replies)
    decreases |calls|
  {
    hide Handle, Touched, Downloading, Carried, Ended, DataOf, Inverse;
    DownloadingIsInside(h, path, b, pos);
    var call := calls[0];
    var result := Handle(h, call.request, call.world, lib);
    DownloadStep(h, path, b, pos, call.request, call.world, lib);
    UndisturbedRunsAreAnswered(result.handler, path, calls[1..], lib);
    EndedOfCons(result.reply, RunAll(result.handler, calls[1..], lib).replies);
    if !result.reply.DownloadEndReply? {
      if Asks(call) {
        DownloadProgress(h, path, b, pos, call.request.level, call.request.size, call.world, lib);
      }
      var got := DataOf(result.reply, lib);
      DownloadingIsInside(result.handler, path, b, pos + |got|);
      EndIsReached(result.handler, path, b, pos + |got|, calls[1..], lib);
    }
  }

  lemma DownloadingIsInside(h: Handler, path: Path, b: seq<byte>, pos: nat)
    requires Downloading(h, path, b, pos)
    ensures pos <= |b|
  {
  }

  /** In particular, that many such requests alone always bring the whole rest of the file. */
  lemma AskingIsEnough(h: Handler, path: Path, b: seq<byte>, pos: nat, calls: seq<Call>, lib: Library)
    requires Inverse(lib) && Downloading(h, path, b, pos)
    requires |calls| > |b| - pos && forall i | 0 <= i < |calls| :: Asks(calls[i])
    ensures var run := RunAll(h, calls, lib);
            run.Run? && Ended(run.replies) && Received(run.replies, lib) == b[pos..]
  {
    AskingDisturbsNothing(h, path, calls, lib);
    AllAsk(calls);
    DownloadCompletes(h, path, b, pos, calls, lib);
  }

  lemma {:induction false} AllAsk(calls: seq<Call>)
    requires forall i | 0 <= i < |calls| :: Asks(calls[i])
    ensures AsksIn(calls) == |calls|
  {
    if calls != [] {
      AllAsk(calls[1..]);
    }
  }

  lemma {:induction false} AskingDisturbsNothing(h: Handler, path: Path, calls: seq<Call>, lib: Library)
    requires h.downloadFile.None? || !h.input.NoStream?
    requires forall i | 0 <= i < |calls| :: Asks(calls[i])
    ensures Undisturbed(h, path, calls, lib)
    decreases |calls|
  {
    if calls != [] {
      var call := calls[0];
      assert Asks(call);
      AskIsAnswered(h, call, lib);
      hide Handle;
      AskingDisturbsNothing(Handle(h, call.request, call.world, lib).handler, path, calls[1..], lib);
    }
  }

  lemma AskIsAnswered(h: Handler, call: Call, lib: Library)
    requires Asks(call) && (h.downloadFile.None? || !h.input.NoStream?)
    ensures var result := Handle(h, call.request, call.world, lib);
            result.Replied? && (result.handler.downloadFile.None? || !result.handler.input.NoStream?)
  {
  }

  lemma CarriedNothing(b: seq<byte>, pos: nat)
    requires pos <= |b|
    ensures Carried(b, pos, []) && (pos == |b| ==> [] == b[pos..])
  {
  }

  lemma CarriedIsInside(b: seq<byte>, pos: nat, got: seq<byte>)
    requires Carried(b, pos, got)
    ensures pos + |got| <= |b|
  {
  }

  lemma ReceivedOfCons(reply: Reply, replies: seq<Reply>, lib: Library)
    ensures Received([reply] + replies, lib)
         == if reply.DownloadEndReply? then [] else DataOf(reply, lib) + Received(replies, lib)
  {
    assert ([reply] + replies)[1..] == replies;
  }

  lemma EndedOfCons(reply: Reply, replies: seq<Reply>)
    ensures Ended([reply] + replies) <==> reply.DownloadEndReply? || Ended(replies)
  {
    if Ended(replies) {
      var i :| 0 <= i < |replies| && replies[i].DownloadEndReply?;
      assert ([reply] + replies)[i + 1].DownloadEndReply?;
    }
    assert reply.DownloadEndReply? ==> ([reply] + replies)[0].DownloadEndReply?;
  }

  lemma {:induction false} UndisturbedRunsAreAnswered(h: Handler, path: Path, calls: seq<Call>, lib: Library)
    requires Undisturbed(h, path, calls, lib)
    ensures RunAll(h, calls, lib).Run?
    decreases |calls|
  {
    if calls != [] {
      UndisturbedRunsAreAnswered(Handle(h, calls[0].request, calls[0].world, lib).handler, path, calls[1..], lib);
    }
  }

  /** A download starts exactly when access is granted, the file can be opened and is that long; it
      then starts where it is told to. */
  lemma StartOfDownload(h: Handler, path: Path, offset: u64, w: World, lib: Library)
    ensures var result := Handle(h, DownloadStart(path, offset), w, lib);
            && result.Replied?
            && (result.reply == DownloadStartReply <==>
                  w.access && path in h.disk && h.disk[path].File? && w.canOpen
                  && offset < 0x8000_0000_0000_0000 && offset <= |h.disk[path].bytes|)
            && (result.reply == DownloadStartReply ==>
                  Downloading(result.handler, path, h.disk[path].bytes, offset))
  {
  }

  /** And an upload, exactly when it is granted, not into the root, can be truncated if it is to be, and
      opened, and is then that long. */
  lemma StartOfUpload(h: Handler, path: Path, flags: u8, offset: u64, w: World, lib: Library)
    ensures var result := Handle(h, UploadStart(path, flags, offset), w, lib);
            var (disk, done) := if flags % 2 == 1 then Truncate(h.disk, path, w) else (h.disk, true);
            && result.Replied?
            && (result.reply == UploadStartReply <==>
                  w.access && !w.inRoot && done && path in disk && disk[path].File? && w.canOpen
                  && offset < 0x8000_0000_0000_0000 && offset <= |disk[path].bytes|)
            && (result.reply == UploadStartReply ==> Uploading(result.handler, path, disk[path].bytes, offset))
  {
  }

  /** A broken download that is resumed behind what was received gives the same whole. */
  lemma ResumeGivesTheWhole(h: Handler, path: Path, b: seq<byte>, offset: nat, calls: seq<Call>,
                            again: Handler, k: nat, more: seq<Call>, lib: Library)
    requires Inverse(lib) && Downloading(h, path, b, offset) && Undisturbed(h, path, calls, lib)
    requires RunAll(h, calls, lib).Run? && k == |Received(RunAll(h, calls, lib).replies, lib)|
    requires Downloading(again, path, b, offset + k) && Undisturbed(again, path, more, lib)
    requires RunAll(again, more, lib).Run? && Ended(RunAll(again, more, lib).replies)
    ensures Received(RunAll(h, calls, lib).replies, lib) + Received(RunAll(again, more, lib).replies, lib)
         == b[offset..]
  {
    hide RunAll, Received, Undisturbed, Downloading;
    DownloadCarriesContent(h, path, b, offset, calls, lib);
    DownloadCarriesContent(again, path, b, offset + k, more, lib);
    CarriedTwice(b, offset, Received(RunAll(h, calls, lib).replies, lib),
                 Received(RunAll(again, more, lib).replies, lib));
  }

  // ---- Upload ----

  predicate Uploading(h: Handler, path: Path, b: seq<byte>, pos: nat) {
    && h.uploadFile.Some? && h.output == OpenAt(path, pos) && pos <= |b|
    && path in h.disk && h.disk[path] == File(b)
  }

  /** Nobody else touches the file of the session, no write fails, and the session goes on. */
  predicate GoesOn(h: Handler, path: Path, call: Call, lib: Library) {
    var r := call.request;
    && !r.UploadStart? && !r.UploadEnd?
    && (if r.UploadData? then call.world.access && call.world.canWrite else path !in Touched(h, r))
    && var result := Handle(h, r, call.world, lib);
       result.Replied? && (r.UploadData? ==> result.reply.UploadDataReply?)
  }

  predicate UndisturbedUpload(h: Handler, path: Path, calls: seq<Call>, lib: Library)
    decreases |calls|
  {
    calls == [] ||
    (GoesOn(h, path, calls[0], lib)
     && UndisturbedUpload(Handle(h, calls[0].request, calls[0].world, lib).handler, path, calls[1..], lib))
  }

  /** The data that a request brings: the part that is not compressed is cut to its stated size. */
  function Chunk(r: Request, lib: Library): seq<byte> {
    if !r.UploadData? || |r.data| == 0 then []
    else if r.level == 0 then r.data[..if r.uncompressedSize <= |r.data| then r.uncompressedSize else |r.data|]
    else lib.inflate(r.data).GetOr([])
  }

  function Sent(calls: seq<Call>, lib: Library): seq<byte> {
    if calls == [] then [] else Chunk(calls[0].request, lib) + Sent(calls[1..], lib)
  }

  /** The request in which a client sends a chunk. */
  function Upload(level: u8, chunk: Block, lib: Library): Request {
    UploadData(level, |chunk|, if level == 0 then chunk else lib.deflate(chunk))
  }

  function Joined(chunks: seq<Block>): seq<byte> {
    if chunks == [] then [] else chunks[0] + Joined(chunks[1..])
  }

  /** Whatever levels a client chooses, what its requests bring are its chunks, in order. */
  lemma {:induction false} SentAreTheChunks(calls: seq<Call>, levels: seq<u8>, chunks: seq<Block>, lib: Library)
    requires Inverse(lib) && |calls| == |levels| == |chunks|
    requires forall i | 0 <= i < |calls| :: chunks[i] != [] && calls[i].request == Upload(levels[i], chunks[i], lib)
    ensures Sent(calls, lib) == Joined(chunks)
  {
    if calls != [] {
      assert calls[0].request == Upload(levels[0], chunks[0], lib);
      assert chunks[0][..|chunks[0]|] == chunks[0];
      SentAreTheChunks(calls[1..], levels[1..], chunks[1..], lib);
    }
  }

  lemma OverwriteTwice(b: seq<byte>, pos: nat, x: seq<byte>, y: seq<byte>)
    requires pos <= |b|
    ensures pos + |x| <= |Overwrite(b, pos, x)|
    ensures Overwrite(Overwrite(b, pos, x), pos + |x|, y) == Overwrite(b, pos, x + y)
  {
    var c := Overwrite(b, pos, x);
    assert c[..pos + |x|] == b[..pos] + x;
    if pos + |x| + |y| < |b| {
      assert c[pos + |x| + |y|..] == b[pos + |x| + |y|..];
    }
  }

  lemma UploadStep(h: Handler, path: Path, b: seq<byte>, pos: nat, call: Call, lib: Library)
    requires Uploading(h, path, b, pos) && GoesOn(h, path, call, lib)
    ensures var data := Chunk(call.request, lib);
            Uploading(Handle(h, call.request, call.world, lib).handler, path, Overwrite(b, pos, data), pos + |data|)
  {
    OthersAreUntouched(h, call.request, call.world, lib, path);
    assert Overwrite(b, pos, []) == b;
  }

  /** Uploading from a position overwrites exactly as many bytes from there on as were sent, for any
      chunks, and leaves the rest of the file as it was. */
  lemma {:induction false} UploadStoresContent(h: Handler, path: Path, b: seq<byte>, pos: nat, calls: seq<Call>,
                                               lib: Library)
    requires Uploading(h, path, b, pos) && UndisturbedUpload(h, path, calls, lib)
    ensures var run := RunAll(h, calls, lib);
            var data := Sent(calls, lib);
            run.Run? && Uploading(run.handler, path, Overwrite(b, pos, data), pos + |data|)
    decreases |calls|
  {
    if calls == [] {
      assert Overwrite(b, pos, []) == b;
    } else {
      hide Handle, Touched, Overwrite, Chunk;
      var call := calls[0];
      var first := Chunk(call.request, lib);
      UploadStep(h, path, b, pos, call, lib);
      UploadStoresContent(Handle(h, call.request, call.world, lib).handler, path, Overwrite(b, pos, first),
                          pos + |first|, calls[1..], lib);
      OverwriteTwice(b, pos, first, Sent(calls[1..], lib));
    }
  }

  lemma OverwriteNothing(data: seq<byte>)
    ensures Overwrite([], 0, data) == data
  {
  }

  lemma UploadHasStarted(h: Handler, path: Path, flags: u8, offset: u64, w: World, lib: Library)
    requires Handle(h, UploadStart(path, flags, offset), w, lib).Replied?
    requires Handle(h, UploadStart(path, flags, offset), w, lib).reply == UploadStartReply
    ensures var b := if flags % 2 == 1 then [] else Bytes(h.disk, path);
            && Uploading(Handle(h, UploadStart(path, flags, offset), w, lib).handler, path, b, offset)
            && offset <= |b|
  {
  }

  /** With the overwrite flag and offset zero the stored file is exactly the data sent; without the
      flag the data lands at the offset. */
  lemma UploadSession(h: Handler, path: Path, flags: u8, offset: u64, w: World, calls: seq<Call>, lib: Library)
    requires Handle(h, UploadStart(path, flags, offset), w, lib).Replied?
    requires var start := Handle(h, UploadStart(path, flags, offset), w, lib);
             start.reply == UploadStartReply && UndisturbedUpload(start.handler, path, calls, lib)
    ensures var start := Handle(h, UploadStart(path, flags, offset), w, lib).handler;
            var run := RunAll(start, calls, lib);
            && run.Run? && path in run.handler.disk
            && (flags % 2 == 1 ==> offset == 0 && run.handler.disk[path] == File(Sent(calls, lib)))
            && (flags % 2 == 0 ==>
                  && offset <= |Bytes(h.disk, path)|
                  && run.handler.disk[path] == File(Overwrite(Bytes(h.disk, path), offset, Sent(calls, lib))))
  {
    var start := Handle(h, UploadStart(path, flags, offset), w, lib).handler;
    var b := if flags % 2 == 1 then [] else Bytes(h.disk, path);
    UploadHasStarted(h, path, flags, offset, w, lib);
    hide Handle, Sent, RunAll, Overwrite, UndisturbedUpload, Bytes;
    UploadStoresContent(start, path, b, offset, calls, lib);
    OverwriteNothing(Sent(calls, lib));
  }

  // ---- Starts that only the seek refuses ----

  /** A start that is refused only because its offset is behind the end of the file, or does not fit
      the signed argument, is answered by a failure; but the session it leaves is live, at position
      zero. Data sent to it all the same overwrites the beginning of the file - which is the file as
      it was, or after a start with the overwrite flag, an empty one: then the old contents are gone
      although the start was refused, and the file is the data. */
  lemma RefusedSeekLeavesALiveUpload(h: Handler, path: Path, flags: u8, offset: u64, w: World, next: World,
                                     data: Block, lib: Library)
    requires w.access && !w.inRoot && CanStartUpload(h.disk, path, flags, w)
    requires var (disk, done) := if flags % 2 == 1 then Truncate(h.disk, path, w) else (h.disk, true);
             !SeekSucceeds(|Bytes(disk, path)|, offset)
    requires next.access && next.canWrite && data != []
    ensures var start := Handle(h, UploadStart(path, flags, offset), w, lib);
            var left := if flags % 2 == 1 then [] else Bytes(h.disk, path);
            && start.reply.LastRequestFailed? && Uploading(start.handler, path, left, 0)
            && var stored := Handle(start.handler, UploadData(0, |data|, data), next, lib);
            && stored.reply.UploadDataReply?
            && stored.handler.disk[path] == File(Overwrite(left, 0, data))
            && (flags % 2 == 1 ==> stored.handler.disk[path] == File(data))
  {
    assert data[..|data|] == data;
    OverwriteNothing(data);
  }

  /** The same for downloads: data asked for all the same is that of the beginning. */
  lemma RefusedSeekLeavesALiveDownload(h: Handler, path: Path, offset: u64, w: World, lib: Library)
    requires w.access && CanOpen(h.disk, path, w) && !SeekSucceeds(|Bytes(h.disk, path)|, offset)
    ensures var start := Handle(h, DownloadStart(path, offset), w, lib);
            start.reply.LastRequestFailed? && Downloading(start.handler, path, Bytes(h.disk, path), 0)
  {
  }

  // ---- Requests that undo each other ----

  /** A renaming that was answered as done is undone by the opposite one, when the system lets it:
      the disk is the old one, contents included. */
  lemma RenameIsUndone(h: Handler, a: Path, b: Path, w: World, back: World, lib: Library)
    requires var r := Handle(h, Rename(a, b), w, lib); r.Replied? && r.reply == RenameReply
    requires back.access && back.canMove
    ensures var r := Handle(Handle(h, Rename(a, b), w, lib).handler, Rename(b, a), back, lib);
            r.Replied? && r.reply == RenameReply && r.handler == h
  {
    var disk: Disk := Handle(h, Rename(a, b), w, lib).handler.disk;
    assert a != b && disk == (h.disk - {a})[b := h.disk[a]];
    assert (disk - {b})[a := disk[b]] == h.disk;
  }

  /** A folder that was made and removed again leaves the disk as it was. */
  lemma MkDirIsUndone(h: Handler, path: Path, w: World, back: World, lib: Library)
    requires var r := Handle(h, MkDir(path), w, lib); r.Replied? && r.reply == MkDirReply
    requires back.access && back.canRemove
    ensures var r := Handle(Handle(h, MkDir(path), w, lib).handler, Remove(path), back, lib);
            r.Replied? && r.reply == RemoveReply && r.handler == h
  {
    var made: Disk := h.disk[path := Folder];
    assert made - {path} == h.disk;
  }
}
