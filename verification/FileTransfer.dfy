/** The file transfer request handler as the program has it: an object with two file channels that reads
    each request field by field, works on the disk, and writes its reply. */
module FileTransfer {
  import opened Wrappers
  import opened Codec
  import opened FileTransferMessages
  import opened FileTransferModel
  import DirectorySizes

  /** The disk that all channels share. */
  class Volume {
    var nodes: Disk

    constructor (disk: Disk)
      ensures nodes == disk
    {
      nodes := disk;
    }
  }

  /** What a read brought: so many bytes, nothing because the file is at its end, or an error. */
  datatype ReadOutcome = Filled(n: nat) | EndOfFile | ReadError

  /** A pointer to a file channel: none, open at a position, or closed. */
  class WinFile {
    const volume: Volume
    var stream: Stream

    constructor (volume: Volume)
      ensures this.volume == volume && stream == NoStream
    {
      this.volume, stream := volume, NoStream;
    }

    method Open(path: Path)
      modifies this
      ensures stream == OpenAt(path, 0)
    {
      stream := OpenAt(path, 0);
    }

    method Close()
      modifies this
      ensures stream == ClosedStream
    {
      stream := ClosedStream;
    }

    method Delete()
      modifies this
      ensures stream == NoStream
    {
      stream := NoStream;
    }

    /** Moves relative to the current position, after comparing the argument with the file's size:
        an absolute seek on a channel that was just opened. */
    method Seek(n: int) returns (ok: bool)
      requires stream.OpenAt?
      modifies this
      ensures ok == (n <= |Bytes(volume.nodes, old(stream).path)| && old(stream).pos + n >= 0)
      ensures stream == OpenAt(old(stream).path, old(stream).pos + if ok then n else 0)
    {
      if |Bytes(volume.nodes, stream.path)| < n || stream.pos + n < 0 {
        return false;
      }
      stream := OpenAt(stream.path, stream.pos + n);
      return true;
    }

    /** Fills the beginning of the buffer; how much of it is up to the system. */
    method Read(buffer: array<byte>, count: nat, want: nat, w: World) returns (r: ReadOutcome)
      requires 0 < count <= buffer.Length && !stream.NoStream?
      modifies this, buffer
      ensures r.ReadError? <==> old(stream).ClosedStream? || !w.canRead
      ensures !r.ReadError? ==>
                var path, pos, b := old(stream).path, old(stream).pos, Bytes(volume.nodes, old(stream).path);
                && (r.EndOfFile? <==> pos >= |b|)
                && (r.Filled? ==> r.n == ShortRead(want, count, |b| - pos)
                                  && buffer[..r.n] == b[pos..pos + r.n] && stream == OpenAt(path, pos + r.n))
      ensures !r.Filled? ==> stream == old(stream)
    {
      if stream.ClosedStream? || !w.canRead {
        return ReadError;
      }
      var path, pos := stream.path, stream.pos;
      var b := Bytes(volume.nodes, path);
      if pos >= |b| {
        return EndOfFile;
      }
      var n := ShortRead(want, count, |b| - pos);
      forall i | 0 <= i < n {
        buffer[i] := b[pos + i];
      }
      stream := OpenAt(path, pos + n);
      return Filled(n);
    }

    /** Writes everything, or fails after a beginning. */
    method WriteFully(data: seq<byte>, w: World) returns (ok: bool)
      requires !stream.NoStream?
      modifies this, volume
      ensures var s, disk := old(stream), old(volume.nodes);
              if s.ClosedStream? || s.path !in disk || !disk[s.path].File? || s.pos > |disk[s.path].bytes| then
                !ok && volume.nodes == disk && stream == s
              else
                var part := if w.canWrite then data else if |data| == 0 then [] else data[..w.short % |data|];
                && ok == w.canWrite
                && volume.nodes == disk[s.path := File(Overwrite(disk[s.path].bytes, s.pos, part))]
                && stream == OpenAt(s.path, s.pos + |part|)
    {
      if stream.ClosedStream? || stream.path !in volume.nodes || !volume.nodes[stream.path].File?
         || stream.pos > |volume.nodes[stream.path].bytes| {
        return false;
      }
      var part := if w.canWrite then data else if |data| == 0 then [] else data[..w.short % |data|];
      var b := volume.nodes[stream.path].bytes;
      volume.nodes := volume.nodes[stream.path := File(Overwrite(b, stream.pos, part))];
      stream := OpenAt(stream.path, stream.pos + |part|);
      return w.canWrite;
    }
  }

  lemma HashedFurther(b: seq<byte>, start: nat, mid: nat, end: nat, hashed: seq<byte>, part: seq<byte>)
    requires start <= mid <= end <= |b| && hashed == b[start..mid] && part == b[mid..end]
    ensures hashed + part == b[start..end]
  {
  }

  /** The hashing loop: at most a mebibyte at a time into one buffer, whatever the reads return. */
  method HashLoop(file: WinFile, dataLen: u64, w: World) returns (ok: bool, hashed: seq<byte>)
    requires file.stream.OpenAt? && file.stream.pos <= |Bytes(file.volume.nodes, file.stream.path)|
    modifies file
    ensures var b, start := Bytes(file.volume.nodes, old(file.stream).path), old(file.stream).pos;
            && (ok <==> dataLen == 0 || (w.canRead && start + dataLen <= |b|))
            && (ok ==> hashed == b[start..start + dataLen])
  {
    hide ShortRead, Bytes;
    var bytesToRead: nat := 1024 * 1024;
    var bytesToReadTotal: nat, bytesReadTotal := dataLen, 0;
    if dataLen < bytesToRead {
      bytesToRead := dataLen;
    }
    var buffer := new byte[bytesToRead](_ => 0);
    hashed := [];
    ghost var path, start := file.stream.path, file.stream.pos;
    ghost var b := Bytes(file.volume.nodes, path);
    while bytesToReadTotal > 0
      invariant bytesReadTotal + bytesToReadTotal == dataLen
      invariant bytesToRead <= buffer.Length && bytesToRead <= bytesToReadTotal
      invariant bytesToReadTotal > 0 ==> bytesToRead > 0
      invariant file.stream == OpenAt(path, start + bytesReadTotal) && start + bytesReadTotal <= |b|
      invariant bytesReadTotal > 0 ==> w.canRead
      invariant hashed == b[start..start + bytesReadTotal]
    {
      var want: nat := *;
      var outcome := file.Read(buffer, bytesToRead, want, w);
      if !outcome.Filled? {
        return false, hashed;
      }
      var bytesRead := outcome.n;
      ghost var here := start + bytesReadTotal;
      assert here + bytesRead <= |b|;
      HashedFurther(b, start, here, here + bytesRead, hashed, buffer[..bytesRead]);
      bytesReadTotal, bytesToReadTotal := bytesReadTotal + bytesRead, bytesToReadTotal - bytesRead;
      if bytesToReadTotal < bytesToRead {
        bytesToRead := bytesToReadTotal;
      }
      hashed := hashed + buffer[..bytesRead];
    }
    ok := true;
  }

  // ---- Replies as they are put together ----

  lemma PutCode(out: seq<byte>, r: Reply)
    requires ReplyBody(r) == []
    ensures out + Encode(U32(ReplyCode(r))) == out + ReplyBytes(r, [])
  {
  }

  lemma PutOne(out: seq<byte>, r: Reply, f: Field)
    requires ReplyBody(r) == [f]
    ensures out + Encode(U32(ReplyCode(r))) + Encode(f) == out + ReplyBytes(r, [])
  {
    hide Encode, ReplyBody, ReplyCode;
    OneField(f, []);
  }

  lemma PutTwo(out: seq<byte>, r: Reply, f: Field, g: Field)
    requires ReplyBody(r) == [f, g]
    ensures out + Encode(U32(ReplyCode(r))) + Encode(f) + Encode(g) == out + ReplyBytes(r, [])
  {
    hide Encode, ReplyBody, ReplyCode;
    TwoFields(f, g, []);
  }

  lemma PutBlock(out: seq<byte>, r: Reply, level: u8, size: u32, data: Block)
    requires ReplyBody(r) == [U8(level), U32(|data|), U32(size), Raw(data)]
    ensures out + Encode(U32(ReplyCode(r))) + Encode(U8(level)) + Encode(U32(|data|)) + Encode(U32(size)) + data
         == out + ReplyBytes(r, [])
  {
    var f := ReplyBody(r);
    PlainBytes(data);
    hide Encode, ReplyBody, ReplyCode;
    assert f[1..] == [U32(|data|), U32(size), Raw(data)];
    ThreeFields(f[1], f[2], f[3], []);
    assert EncodeOnto(f, []) == Encode(f[0]) + (Encode(f[1]) + (Encode(f[2]) + (data + [])));
  }

  lemma NextInfo(stream: seq<byte>, files: seq<FileInfo>, i: nat)
    requires i < |files|
    ensures stream + InfosBytes(files[i..])
         == stream + Encode(U64(files[i].size)) + Encode(U64(files[i].modified)) + Encode(U16(files[i].flags))
            + Encode(Str(files[i].name)) + InfosBytes(files[i + 1..])
  {
    var f, t := InfoFields(files[i]), InfosBytes(files[i + 1..]);
    hide Encode;
    assert files[i..][0] == files[i] && files[i..][1..] == files[i + 1..];
    assert f[1..] == [U64(files[i].modified), U16(files[i].flags), Str(files[i].name)];
    ThreeFields(f[1], f[2], f[3], t);
    assert EncodeOnto(f, t) == Encode(f[0]) + (Encode(f[1]) + (Encode(f[2]) + (Encode(f[3]) + t)));
  }

  lemma PlainBytes(s: seq<byte>)
    ensures Encode(Raw(s)) == s
  {
  }

  /** Once access is granted, the session requests are up to their own functions. */
  lemma SessionRequest(h: Handler, r: Request, w: World, lib: Library)
    ensures var result := Handle(h, r, w, lib);
            match r
            case Md5(path, offset, length) =>
              result == if w.access then HashPart(h, path, offset, length, w, lib) else Failed(h, w)
            case UploadStart(path, flags, offset) =>
              result == if w.access then StartUpload(h, path, flags, offset, w) else Failed(h, w)
            case UploadData(level, size, data) =>
              result == if w.access then ContinueUpload(h, level, size, data, w, lib) else Failed(h, w)
            case DownloadStart(path, offset) =>
              result == if w.access then StartDownload(h, path, offset, w) else Failed(h, w)
            case DownloadData(level, size) =>
              result == if w.access then ContinueDownload(h, level, size, w, lib) else Failed(h, w)
            case _ => true
  {
    hide HashPart, StartUpload, ContinueUpload, StartDownload, ContinueDownload;
  }

  class FileTransferRequestHandler {
    const volume: Volume
    const fileInputStream: WinFile
    const fileOutputStream: WinFile
    var downloadFile: Option<Path>
    var uploadFile: Option<Path>
    var input: seq<byte>
    var output: seq<byte>
    var crashed: bool   // a stream that is not there was used, or a buffer was read behind its end

    ghost predicate Valid() {
      fileInputStream.volume == volume && fileOutputStream.volume == volume && fileInputStream != fileOutputStream
    }

    ghost function State(): Handler
      reads this, volume, fileInputStream, fileOutputStream
    {
      Handler(downloadFile, fileInputStream.stream, uploadFile, fileOutputStream.stream, volume.nodes)
    }

    /** The body of the request has arrived. */
    ghost predicate Ready(code: u32)
      reads this
    {
      ReadBody(code, input).Got? && !crashed
    }

    /** Either the machine gives no answer, and then the program runs into what is not defined; or the
        state is what the machine says, and the whole reply was put after what had been sent - or nothing
        at all, when the answer is to be a failure. */
    ghost predicate Acted(result: Result, sent: seq<byte>, ok: bool)
      reads this, volume, fileInputStream, fileOutputStream
    {
      && crashed == result.Undefined?
      && (result.Replied? ==>
            && State() == result.handler
            && ok == !result.reply.LastRequestFailed?
            && output == sent + if ok then ReplyBytes(result.reply, []) else [])
      && (crashed ==> !ok)
    }

    /** What one handler did, which began in a state with a body ahead of it: it took its body off the
        input and nothing more, and acted. */
    ghost predicate Did(before: Handler, body: Read<Request>, sent: seq<byte>, w: World, lib: Library, ok: bool)
      requires body.Got?
      reads this, volume, fileInputStream, fileOutputStream
    {
      input == body.rest && Acted(Handle(before, body.value, w, lib), sent, ok)
    }

    constructor (volume: Volume, input: seq<byte>)
      ensures Valid() && this.volume == volume && State() == NewHandler(volume.nodes)
      ensures this.input == input && output == [] && !crashed
    {
      this.volume := volume;
      downloadFile, uploadFile := None, None;
      fileInputStream := new WinFile(volume);
      fileOutputStream := new WinFile(volume);
      this.input, output, crashed := input, [], false;
    }

    // ---- The gates ----

    method ReadU8() returns (n: u8)
      requires TakeU8(input).Got?
      modifies this`input
      ensures TakeU8(old(input)) == Got(n, input)
    {
      var r := TakeU8(input);
      n, input := r.value, r.rest;
    }

    method ReadU16() returns (n: u16)
      requires TakeU16(input).Got?
      modifies this`input
      ensures TakeU16(old(input)) == Got(n, input)
    {
      var r := TakeU16(input);
      n, input := r.value, r.rest;
    }

    method ReadU32() returns (n: u32)
      requires TakeU32(input).Got?
      modifies this`input
      ensures TakeU32(old(input)) == Got(n, input)
    {
      var r := TakeU32(input);
      n, input := r.value, r.rest;
    }

    method ReadU64() returns (n: u64)
      requires TakeU64(input).Got?
      modifies this`input
      ensures TakeU64(old(input)) == Got(n, input)
    {
      var r := TakeU64(input);
      n, input := r.value, r.rest;
    }

    method ReadUtf8() returns (s: Utf8)
      requires TakeStr(input).Got?
      modifies this`input
      ensures TakeStr(old(input)) == Got(s, input)
    {
      var r := TakeStr(input);
      s, input := r.value, r.rest;
    }

    method ReadBytes(n: nat) returns (s: seq<byte>)
      requires TakeBytes(input, n).Got?
      modifies this`input
      ensures TakeBytes(old(input), n) == Got(s, input)
    {
      s, input := input[..n], input[n..];
    }

    method Put(f: Field)
      modifies this`output
      ensures output == old(output) + Encode(f)
    {
      output := output + Encode(f);
    }

    // ---- Requests without a session ----

    method CompressionSupportRequested(w: World, lib: Library) returns (ok: bool)
      requires Valid() && Ready(0xFC000100)
      modifies this
      ensures Did(old(State()), ReadBody(0xFC000100, old(input)), old(output), w, lib, ok)
    {
      hide Encode, ReplyBytes;
      Put(U32(0xFC000101));
      Put(U8(1));
      PutOne(old(output), CompressionSupportReply(1), U8(1));
      ok := true;
    }

    /** The entries are written one after the other behind their number. */
    method WriteList(files: Listing) returns (memStream: Block)
      ensures memStream == ListBytes(files)
    {
      hide Encode;
      var stream := Encode(U32(|files|));
      for i := 0 to |files|
        invariant stream + InfosBytes(files[i..]) == ListBytes(files)
      {
        NextInfo(stream, files, i);
        stream := stream + Encode(U64(files[i].size));
        stream := stream + Encode(U64(files[i].modified));
        stream := stream + Encode(U16(files[i].flags));
        stream := stream + Encode(Str(files[i].name));
      }
      assert InfosBytes(files[|files|..]) == [];
      assert stream == stream + [];
      memStream := stream;
    }

    method FileListRequested(w: World, lib: Library) returns (ok: bool)
      requires Valid() && Ready(0xFC000102)
      modifies this
      ensures Did(old(State()), ReadBody(0xFC000102, old(input)), old(output), w, lib, ok)
    {
      hide TakeU8, TakeStr, Encode, ReplyBytes;
      var level := ReadU8();
      var path := ReadUtf8();
      if !w.access || w.listing.None? {
        return false;
      }
      var list := WriteList(w.listing.value);
      var data := if level != 0 then lib.deflate(list) else list;
      Put(U32(0xFC000103));
      Put(U8(level));
      Put(U32(|data|));
      Put(U32(|list|));
      output := output + data;
      PutBlock(old(output), FileListReply(level, |list|, data), level, |list|, data);
      ok := true;
    }

    method MkDirRequested(w: World, lib: Library) returns (ok: bool)
      requires Valid() && Ready(0xFC000111)
      modifies this, volume
      ensures Did(old(State()), ReadBody(0xFC000111, old(input)), old(output), w, lib, ok)
    {
      hide TakeStr, Encode, ReplyBytes;
      var path := ReadUtf8();
      if !w.access || w.inRoot || path in volume.nodes || !w.canMkDir {
        return false;
      }
      volume.nodes := volume.nodes[path := Folder];
      Put(U32(0xFC000112));
      PutCode(old(output), MkDirReply);
      ok := true;
    }

    method RmFileRequested(w: World, lib: Library) returns (ok: bool)
      requires Valid() && Ready(0xFC000113)
      modifies this, volume
      ensures Did(old(State()), ReadBody(0xFC000113, old(input)), old(output), w, lib, ok)
    {
      hide TakeStr, Encode, ReplyBytes;
      var path := ReadUtf8();
      if !w.access || path !in volume.nodes || !w.canRemove {
        return false;
      }
      volume.nodes := volume.nodes - {path};
      Put(U32(0xFC000114));
      PutCode(old(output), RemoveReply);
      ok := true;
    }

    method MvFileRequested(w: World, lib: Library) returns (ok: bool)
      requires Valid() && Ready(0xFC000115)
      modifies this, volume
      ensures Did(old(State()), ReadBody(0xFC000115, old(input)), old(output), w, lib, ok)
    {
      hide TakeStr, Encode, ReplyBytes;
      var oldPath := ReadUtf8();
      var newPath := ReadUtf8();
      if !w.access || oldPath !in volume.nodes || newPath in volume.nodes || !w.canMove {
        return false;
      }
      volume.nodes := (volume.nodes - {oldPath})[newPath := volume.nodes[oldPath]];
      Put(U32(0xFC000116));
      PutCode(old(output), RenameReply);
      ok := true;
    }

    method DirSizeRequested(w: World, lib: Library) returns (ok: bool)
      requires Valid() && Ready(0xFC000117)
      modifies this
      ensures Did(old(State()), ReadBody(0xFC000117, old(input)), old(output), w, lib, ok)
    {
      hide TakeStr, Encode, ReplyBytes, DirectorySizes.SizeOf;
      var path := ReadUtf8();
      if !w.access {
        return false;
      }
      var directorySize := DirectorySizes.GetDirectorySize(w.directory);
      if directorySize.None? {
        return false;
      }
      Put(U32(0xFC000118));
      Put(U64(directorySize.value));
      PutOne(old(output), DirSizeReply(directorySize.value), U64(directorySize.value));
      ok := true;
    }

    method Md5Requested(w: World, lib: Library) returns (ok: bool)
      requires Valid() && Ready(0xFC000104)
      modifies this
      ensures Did(old(State()), ReadBody(0xFC000104, old(input)), old(output), w, lib, ok)
    {
      hide TakeStr, TakeU64, Handle, ReplyBytes, HashPart, StartDownload;
      var path := ReadUtf8();
      var offset := ReadU64();
      var length := ReadU64();
      SessionRequest(State(), Md5(path, offset, length), w, lib);
      if !w.access {
        return false;
      }
      ok := HashPartOf(path, offset, length, w, lib);
    }

    method HashPartOf(path: Path, offset: u64, length: u64, w: World, lib: Library) returns (ok: bool)
      requires Valid() && !crashed
      modifies this`output
      ensures Acted(HashPart(old(State()), path, offset, length, w, lib), old(output), ok)
    {
      hide Encode, ReplyBytes;
      if !CanOpen(volume.nodes, path, w) {
        return false;
      }
      var file := new WinFile(volume);
      file.Open(path);
      ok := file.Seek(AsSigned(offset));
      if !ok {
        return;
      }
      var hashed;
      ok, hashed := HashLoop(file, length, w);
      if !ok {
        return;
      }
      Put(U32(0xFC000105));
      output := output + lib.hash(hashed);
      PlainBytes(lib.hash(hashed));
      PutOne(old(output), Md5Reply(lib.hash(hashed)), Raw(lib.hash(hashed)));
    }

    // ---- Upload ----

    method ForgetUpload()
      requires Valid()
      modifies this`uploadFile, fileOutputStream
      ensures State() == CloseUpload(old(State()))
    {
      if !fileOutputStream.stream.NoStream? {
        fileOutputStream.Delete();
      }
      if uploadFile.Some? {
        uploadFile := None;
      }
    }

    method UploadStartRequested(w: World, lib: Library) returns (ok: bool)
      requires Valid() && Ready(0xFC000106)
      modifies this, volume, fileOutputStream
      ensures Did(old(State()), ReadBody(0xFC000106, old(input)), old(output), w, lib, ok)
    {
      hide TakeStr, TakeU8, TakeU64, Handle, ReplyBytes, StartUpload;
      var path := ReadUtf8();
      var flags := ReadU8();
      var offset := ReadU64();
      SessionRequest(State(), UploadStart(path, flags, offset), w, lib);
      if !w.access {
        return false;
      }
      ok := OpenUpload(path, flags, offset, w);
    }

    method OpenUpload(path: Path, flags: u8, offset: u64, w: World) returns (ok: bool)
      requires Valid() && !crashed
      modifies this`output, this`uploadFile, fileOutputStream, volume
      ensures Acted(StartUpload(old(State()), path, flags, offset, w), old(output), ok)
    {
      hide Encode, ReplyBytes, Bytes, CanOpen, Truncate;
      ForgetUpload();
      if w.inRoot {
        return false;
      }
      uploadFile := Some(path);
      if flags % 2 == 1 {
        var (disk, done) := Truncate(volume.nodes, path, w);
        volume.nodes := disk;
        if !done {
          return false;
        }
      }
      if !CanOpen(volume.nodes, path, w) {
        return false;
      }
      fileOutputStream.Open(path);
      ok := fileOutputStream.Seek(AsSigned(offset));
      if ok {
        Put(U32(0xFC000107));
        PutCode(old(output), UploadStartReply);
      }
    }

    method UploadDataRequested(w: World, lib: Library) returns (ok: bool)
      requires Valid() && Ready(0xFC000108)
      modifies this, volume, fileOutputStream
      ensures Did(old(State()), ReadBody(0xFC000108, old(input)), old(output), w, lib, ok)
    {
      hide TakeU8, TakeU32, Handle, ReplyBytes, ContinueUpload, ContinueDownload;
      var level := ReadU8();
      var compressedSize := ReadU32();
      var uncompressedSize := ReadU32();
      var buffer := ReadBytes(compressedSize);
      SessionRequest(State(), UploadData(level, uncompressedSize, buffer), w, lib);
      if !w.access {
        return false;
      }
      ok := StoreData(level, uncompressedSize, buffer, w, lib);
    }

    /** What the stream over the channel does: whether a write of nothing gets to the channel is up to
        that stream. */
    method Store(data: seq<byte>, w: World, lib: Library) returns (ok: bool)
      requires Valid() && !crashed
      modifies this`crashed, volume, fileOutputStream
      ensures var result := WriteFully(old(State()), data, w, lib);
              && crashed == result.Undefined? && (crashed ==> !ok)
              && (result.Replied? ==>
                    State() == result.handler
                    && result.reply == if ok then UploadDataReply else LastRequestFailed(w.message))
    {
      if data == [] && !lib.emptyWrites {
        return true;
      }
      if fileOutputStream.stream.NoStream? {
        crashed := true;
        return false;
      }
      ok := fileOutputStream.WriteFully(data, w);
    }

    method StoreData(level: u8, uncompressedSize: u32, buffer: Block, w: World, lib: Library) returns (ok: bool)
      requires Valid() && !crashed
      modifies this`output, this`crashed, volume, fileOutputStream
      ensures Acted(ContinueUpload(old(State()), level, uncompressedSize, buffer, w, lib), old(output), ok)
    {
      hide Encode, ReplyBytes, FileTransferModel.WriteFully;
      if uploadFile.None? {
        return false;
      }
      if |buffer| != 0 {
        if level == 0 {
          if uncompressedSize > |buffer| && fileOutputStream.stream.OpenAt? {
            crashed := true;
            return false;
          }
          ok := Store(if uncompressedSize <= |buffer| then buffer[..uncompressedSize] else buffer, w, lib);
        } else {
          var plain := lib.inflate(buffer);
          if plain.None? {
            return false;
          }
          ok := Store(plain.value, w, lib);
        }
        if !ok {
          return;
        }
      }
      Put(U32(0xFC000109));
      PutCode(old(output), UploadDataReply);
      ok := true;
    }

    method UploadEndRequested(w: World, lib: Library) returns (ok: bool)
      requires Valid() && Ready(0xFC00010A)
      modifies this, fileOutputStream
      ensures Did(old(State()), ReadBody(0xFC00010A, old(input)), old(output), w, lib, ok)
    {
      hide TakeU16, TakeU64, Encode, ReplyBytes;
      var flags := ReadU16();
      var modified := ReadU64();
      if !w.access || uploadFile.None? {
        return false;
      }
      if fileOutputStream.stream.NoStream? {
        crashed := true;
        return false;
      }
      fileOutputStream.Close();
      if !w.canStamp {
        return false;
      }
      Put(U32(0xFC00010B));
      PutCode(old(output), UploadEndReply);
      ForgetUpload();
      ok := true;
    }

    // ---- Download ----

    method ForgetDownload()
      requires Valid()
      modifies this`downloadFile, fileInputStream
      ensures State() == CloseDownload(old(State()))
    {
      if !fileInputStream.stream.NoStream? {
        fileInputStream.Delete();
      }
      if downloadFile.Some? {
        downloadFile := None;
      }
    }

    method EndDownload(w: World)
      requires Valid() && !crashed
      modifies this`output, this`downloadFile, fileInputStream
      ensures Acted(Replied(CloseDownload(old(State())), DownloadEndReply(0, w.modified)), old(output), true)
    {
      hide Encode, ReplyBytes;
      fileInputStream.Close();
      Put(U32(0xFC000110));
      Put(U8(0));
      Put(U64(w.modified));
      PutTwo(old(output), DownloadEndReply(0, w.modified), U8(0), U64(w.modified));
      ForgetDownload();
    }

    method DownloadStartRequested(w: World, lib: Library) returns (ok: bool)
      requires Valid() && Ready(0xFC00010C)
      modifies this, fileInputStream
      ensures Did(old(State()), ReadBody(0xFC00010C, old(input)), old(output), w, lib, ok)
    {
      hide TakeStr, TakeU64, Handle, ReplyBytes, HashPart, StartDownload;
      var path := ReadUtf8();
      var offset := ReadU64();
      SessionRequest(State(), DownloadStart(path, offset), w, lib);
      if !w.access {
        return false;
      }
      ok := OpenDownload(path, offset, w);
    }

    method OpenDownload(path: Path, offset: u64, w: World) returns (ok: bool)
      requires Valid() && !crashed
      modifies this`output, this`downloadFile, fileInputStream
      ensures Acted(StartDownload(old(State()), path, offset, w), old(output), ok)
    {
      hide Encode, ReplyBytes, Bytes, CanOpen;
      ForgetDownload();
      downloadFile := Some(path);
      if !CanOpen(volume.nodes, path, w) {
        return false;
      }
      fileInputStream.Open(path);
      ok := fileInputStream.Seek(AsSigned(offset));
      if ok {
        Put(U32(0xFC00010D));
        PutCode(old(output), DownloadStartReply);
      }
    }

    method DownloadDataRequested(w: World, lib: Library) returns (ok: bool)
      requires Valid() && Ready(0xFC00010E)
      modifies this, fileInputStream
      ensures Did(old(State()), ReadBody(0xFC00010E, old(input)), old(output), w, lib, ok)
    {
      hide TakeU8, TakeU32, Handle, ReplyBytes, ContinueUpload, ContinueDownload;
      var level := ReadU8();
      var dataSize := ReadU32();
      SessionRequest(State(), DownloadData(level, dataSize), w, lib);
      if !w.access {
        return false;
      }
      ok := SendData(level, dataSize, w, lib);
    }

    method ReplyWithData(level: u8, read: u32, data: Block)
      modifies this`output
      ensures output == old(output) + ReplyBytes(DownloadDataReply(level, read, data), [])
    {
      hide Encode, ReplyBytes;
      Put(U32(0xFC00010F));
      Put(U8(level));
      Put(U32(|data|));
      Put(U32(read));
      output := output + data;
      PutBlock(old(output), DownloadDataReply(level, read, data), level, read, data);
    }

    method SendData(level: u8, dataSize: u32, w: World, lib: Library) returns (ok: bool)
      requires Valid() && !crashed
      modifies this`output, this`downloadFile, this`crashed, fileInputStream
      ensures Acted(ContinueDownload(old(State()), level, dataSize, w, lib), old(output), ok)
    {
      hide Encode, ReplyBytes;
      if downloadFile.None? {
        return false;
      }
      var buffer := new byte[dataSize](_ => 0);
      var read := 0;
      if dataSize != 0 {
        if fileInputStream.stream.NoStream? {
          crashed := true;
          return false;
        }
        var outcome := fileInputStream.Read(buffer, dataSize, w.short, w);
        if outcome.ReadError? {
          return false;
        }
        if outcome.EndOfFile? {
          EndDownload(w);
          return true;
        }
        read := outcome.n;
      }
      ReplyWithData(level, read, if level != 0 && dataSize != 0 then lib.deflate(buffer[..read]) else buffer[..read]);
      ok := true;
    }

    // ---- The switch ----

    method Dispatch(code: u32, w: World, lib: Library) returns (ok: bool)
      requires Valid() && !crashed && (code in REGISTERED ==> Ready(code))
      modifies this, volume, fileInputStream, fileOutputStream
      ensures code in REGISTERED ==> Did(old(State()), ReadBody(code, old(input)), old(output), w, lib, ok)
      ensures code !in REGISTERED ==>
                ok && !crashed && input == old(input) && State() == old(State()) && output == old(output)
    {
      hide ReadBody, Handle, ReplyBytes, Did;
      ok := true;
      match code {
        case 0xFC000100 => ok := CompressionSupportRequested(w, lib);
        case 0xFC000102 => ok := FileListRequested(w, lib);
        case 0xFC000111 => ok := MkDirRequested(w, lib);
        case 0xFC000113 => ok := RmFileRequested(w, lib);
        case 0xFC000115 => ok := MvFileRequested(w, lib);
        case 0xFC000117 => ok := DirSizeRequested(w, lib);
        case 0xFC000106 => ok := UploadStartRequested(w, lib);
        case 0xFC000108 => ok := UploadDataRequested(w, lib);
        case 0xFC00010A => ok := UploadEndRequested(w, lib);
        case 0xFC00010C => ok := DownloadStartRequested(w, lib);
        case 0xFC00010E => ok := DownloadDataRequested(w, lib);
        case 0xFC000104 => ok := Md5Requested(w, lib);
        case _ => if code in REGISTERED { OnlyTheseTwelve(code); }
      }
    }

    method ReportFailure(message: Utf8)
      modifies this`output
      ensures output == old(output) + ReplyBytes(LastRequestFailed(message), [])
    {
      hide Encode, ReplyBytes;
      Put(U32(0xFC000119));
      Put(Str(message));
      PutOne(old(output), LastRequestFailed(message), Str(message));
    }

    /** Every registered request whose handling is defined takes exactly its body off the input and puts
        exactly one reply on the output, the one the machine gives; a code that is not registered does
        nothing. */
    method OnRequest(code: u32, w: World, lib: Library)
      requires Valid() && !crashed && (code in REGISTERED ==> Ready(code))
      modifies this, volume, fileInputStream, fileOutputStream
      ensures code in REGISTERED ==>
                var r := ReadBody(code, old(input));
                var result := Handle(old(State()), r.value, w, lib);
                && input == r.rest && crashed == result.Undefined?
                && (result.Replied? ==>
                      State() == result.handler && output == old(output) + ReplyBytes(result.reply, []))
      ensures code !in REGISTERED ==>
                input == old(input) && State() == old(State()) && output == old(output) && !crashed
    {
      hide ReadBody, Handle, ReplyBytes;
      var ok := Dispatch(code, w, lib);
      if !ok && !crashed {
        ReportFailure(w.message);
        FailureSays(old(State()), ReadBody(code, old(input)).value, w, lib);
      }
    }
  }

  lemma OnlyTheseTwelve(code: u32)
    requires code in REGISTERED
    ensures code in {0xFC000100, 0xFC000102, 0xFC000104, 0xFC000106, 0xFC000108, 0xFC00010A,
                     0xFC00010C, 0xFC00010E, 0xFC000111, 0xFC000113, 0xFC000115, 0xFC000117}
  {
  }

  /** A failure is always reported with the message of the exception. */
  lemma FailureSays(h: Handler, r: Request, w: World, lib: Library)
    ensures var result := Handle(h, r, w, lib);
            result.Replied? && result.reply.LastRequestFailed? ==> result.reply == LastRequestFailed(w.message)
  {
  }
}
