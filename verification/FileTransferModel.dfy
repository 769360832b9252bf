/** The file transfer request handler as a machine: two independent sessions, one for upload and one
    for download, over a disk. What the operating system decides comes with each request. */
module FileTransferModel {
  import opened Wrappers
  import opened FileTransferMessages
  import DirectorySizes

  type Path = Utf8

  datatype Node = File(bytes: seq<byte>) | Folder

  type Disk = map<Path, Node>

  /** A file channel: absent, open at a position, or closed but not yet deleted. */
  datatype Stream = NoStream | OpenAt(path: Path, pos: nat) | ClosedStream

  datatype Handler = Handler(
    downloadFile: Option<Path>, input: Stream, uploadFile: Option<Path>, output: Stream, disk: Disk)

  /** The libraries that are not part of this model: the compressor, the hash, and the stream over a
      channel, of which it matters whether a write of nothing reaches the channel. */
  datatype Library = Library(
    deflate: seq<byte> -> Block, inflate: seq<byte> -> Option<seq<byte>>, hash: seq<byte> -> Hash, emptyWrites: bool)

  /** What the system decides while a request is handled. */

  datatype World = World(
    access: bool, inRoot: bool, canMkDir: bool, canRemove: bool, canMove: bool, canCreate: bool, canOpen: bool,
    canRead: bool, canWrite: bool, canStamp: bool, short: nat, listing: Option<Listing>, directory: DirectorySizes.Tree,
    modified: u64, message: Utf8)

  /** A request is answered by exactly one reply, or it makes the handler use a stream that is not
      there or read behind the end of a buffer. */
  datatype Result = Replied(handler: Handler, reply: Reply) | Undefined

  function NewHandler(disk: Disk): Handler {
    Handler(None, NoStream, None, NoStream, disk)
  }

  // ---- Files ----

  function Bytes(disk: Disk, path: Path): seq<byte> {
    if path in disk && disk[path].File? then disk[path].bytes else []
  }

  predicate CanOpen(disk: Disk, path: Path, w: World) {
    path in disk && disk[path].File? && w.canOpen
  }

  /** The cast of an unsigned 64-bit offset to the signed type of `seek`. */
  function AsSigned(n: u64): int {
    if n < 0x8000_0000_0000_0000 then n else n - 0x1_0000_0000_0000_0000
  }

  /** `seek` refuses positions behind the end; the system refuses negative ones. */
  predicate SeekSucceeds(size: nat, offset: u64) {
    !(size < AsSigned(offset)) && AsSigned(offset) >= 0
  }

  /** A read returns at least one byte and at most what was asked for and is left. */
  function ShortRead(want: nat, count: nat, left: nat): (r: nat)
    requires count > 0 && left > 0
    ensures 1 <= r <= count && r <= left
  {
    1 + want % (if count < left then count else left)
  }

  /** The bytes of a file after a write at a position. */
  function Overwrite(b: seq<byte>, pos: nat, data: seq<byte>): seq<byte>
    requires pos <= |b|
  {
    b[..pos] + data + (if pos + |data| < |b| then b[pos + |data|..] else [])
  }

  // ---- Requests ----

  function Failed(h: Handler, w: World): Result {
    Replied(h, LastRequestFailed(w.message))
  }

  function CloseUpload(h: Handler): Handler {
    h.(uploadFile := None, output := NoStream)
  }

  function CloseDownload(h: Handler): Handler {
    h.(downloadFile := None, input := NoStream)
  }

  /** Deletes an existing file and creates an empty one: the disk, and whether it worked. */
  function Truncate(disk: Disk, path: Path, w: World): (Disk, bool) {
    if path in disk && !w.canRemove then (disk, false)
    else if !w.canCreate then (disk - {path}, false)
    else (disk[path := File([])], true)
  }

  function StartUpload(h: Handler, path: Path, flags: u8, offset: u64, w: World): Result {
    var h0 := CloseUpload(h);
    if w.inRoot then Failed(h0, w)
    else
      var h1 := h0.(uploadFile := Some(path));
      var (disk, done) := if flags % 2 == 1 then Truncate(h1.disk, path, w) else (h1.disk, true);
      var h2 := h1.(disk := disk);
      if !done || !CanOpen(disk, path, w) then Failed(h2, w)
      else if !SeekSucceeds(|Bytes(disk, path)|, offset) then Failed(h2.(output := OpenAt(path, 0)), w)
      else Replied(h2.(output := OpenAt(path, offset)), UploadStartReply)
  }

  /** Writes all the data, or after a failed write only a beginning of it. */
  function WriteFully(h: Handler, data: seq<byte>, w: World, lib: Library): Result {
    if data == [] && !lib.emptyWrites then Replied(h, UploadDataReply)
    else
      match h.output
      case NoStream => Undefined
      case ClosedStream => Failed(h, w)
      case OpenAt(path, pos) =>
        var old_ := Bytes(h.disk, path);
        if pos > |old_| || path !in h.disk || !h.disk[path].File? then Failed(h, w)
        else if !w.canWrite then
          var part := if |data| == 0 then [] else data[..w.short % |data|];
          Failed(h.(disk := h.disk[path := File(Overwrite(old_, pos, part))], output := OpenAt(path, pos + |part|)), w)
        else
          Replied(h.(disk := h.disk[path := File(Overwrite(old_, pos, data))], output := OpenAt(path, pos + |data|)),
                  UploadDataReply)
  }

  function ContinueUpload(h: Handler, level: u8, size: u32, data: Block, w: World, lib: Library): Result {
    if h.uploadFile.None? then Failed(h, w)
    else if |data| == 0 then Replied(h, UploadDataReply)
    else if level == 0 then
      if size > |data| && h.output.OpenAt? then Undefined
      else WriteFully(h, if size <= |data| then data[..size] else data, w, lib)
    else
      match lib.inflate(data)
      case None => Failed(h, w)
      case Some(plain) => WriteFully(h, plain, w, lib)
  }

  function EndUpload(h: Handler, w: World): Result {
    if h.uploadFile.None? then Failed(h, w)
    else if h.output.NoStream? then Undefined
    else if !w.canStamp then Failed(h.(output := ClosedStream), w)
    else Replied(CloseUpload(h), UploadEndReply)
  }

  function StartDownload(h: Handler, path: Path, offset: u64, w: World): Result {
    var h1 := CloseDownload(h).(downloadFile := Some(path));
    if !CanOpen(h1.disk, path, w) then Failed(h1, w)
    else if !SeekSucceeds(|Bytes(h1.disk, path)|, offset) then Failed(h1.(input := OpenAt(path, 0)), w)
    else Replied(h1.(input := OpenAt(path, offset)), DownloadStartReply)
  }

  function ContinueDownload(h: Handler, level: u8, size: u32, w: World, lib: Library): Result {
    if h.downloadFile.None? then Failed(h, w)
    else if size == 0 then Replied(h, DownloadDataReply(level, 0, []))
    else
      match h.input
      case NoStream => Undefined
      case ClosedStream => Failed(h, w)
      case OpenAt(path, pos) =>
        if !w.canRead then Failed(h, w)
        else if pos >= |Bytes(h.disk, path)| then Replied(CloseDownload(h), DownloadEndReply(0, w.modified))
        else
          var n := ShortRead(w.short, size, |Bytes(h.disk, path)| - pos);
          var data := Bytes(h.disk, path)[pos..pos + n];
          Replied(h.(input := OpenAt(path, pos + n)),
                  DownloadDataReply(level, n, if level == 0 then data else lib.deflate(data)))
  }

  function HashPart(h: Handler, path: Path, offset: u64, length: u64, w: World, lib: Library): Result {
    var b := Bytes(h.disk, path);
    if !CanOpen(h.disk, path, w) || !SeekSucceeds(|b|, offset) then Failed(h, w)
    else if length > 0 && (!w.canRead || offset + length > |b|) then Failed(h, w)
    else Replied(h, Md5Reply(lib.hash(b[offset..offset + length])))
  }

  function Handle(h: Handler, r: Request, w: World, lib: Library): Result {
    if r.CompressionSupport? then Replied(h, CompressionSupportReply(1))
    else if !w.access then Failed(h, w)
    else
      match r
      case FileList(level, _) =>
        if w.listing.None? then Failed(h, w)
        else
          var list := ListBytes(w.listing.value);
          Replied(h, FileListReply(level, |list|, if level == 0 then list else lib.deflate(list)))
      case Md5(path, offset, length) => HashPart(h, path, offset, length, w, lib)
      case UploadStart(path, flags, offset) => StartUpload(h, path, flags, offset, w)
      case UploadData(level, size, data) => ContinueUpload(h, level, size, data, w, lib)
      case UploadEnd(_, _) => EndUpload(h, w)
      case DownloadStart(path, offset) => StartDownload(h, path, offset, w)
      case DownloadData(level, size) => ContinueDownload(h, level, size, w, lib)
      case MkDir(path) =>
        if w.inRoot || path in h.disk || !w.canMkDir then Failed(h, w)
        else Replied(h.(disk := h.disk[path := Folder]), MkDirReply)
      case Remove(path) =>
        if path !in h.disk || !w.canRemove then Failed(h, w)
        else Replied(h.(disk := h.disk - {path}), RemoveReply)
      case Rename(oldPath, newPath) =>
        if oldPath !in h.disk || newPath in h.disk || !w.canMove then Failed(h, w)
        else Replied(h.(disk := (h.disk - {oldPath})[newPath := h.disk[oldPath]]), RenameReply)
      case DirSize(_) =>
        match DirectorySizes.SizeOf(w.directory)
        case None => Failed(h, w)
        case Some(size) => Replied(h, DirSizeReply(size))
  }
}
