/** The messages of the file transfer extension: codes, bodies, and their binary form. */
module FileTransferMessages {
  import opened Wrappers
  import opened Codec

  /** Bytes that fit a 32-bit size field. */
  type Block = s: seq<byte> | |s| < 0x1_0000_0000 witness []

  datatype Request =
    | CompressionSupport
    | FileList(level: u8, path: Utf8)
    | Md5(path: Utf8, offset: u64, length: u64)
    | UploadStart(path: Utf8, uploadFlags: u8, offset: u64)
    | UploadData(level: u8, uncompressedSize: u32, data: Block)
    | UploadEnd(fileFlags: u16, modified: u64)
    | DownloadStart(path: Utf8, offset: u64)
    | DownloadData(level: u8, size: u32)
    | MkDir(path: Utf8)
    | Remove(path: Utf8)
    | Rename(oldPath: Utf8, newPath: Utf8)
    | DirSize(path: Utf8)

  type Hash = s: seq<byte> | |s| == 16 witness [0, 0, 0, 0, 0, 0, 0, 0, 0, 0, 0, 0, 0, 0, 0, 0]

  datatype Reply =
    | CompressionSupportReply(supported: u8)
    | FileListReply(level: u8, uncompressedSize: u32, data: Block)
    | Md5Reply(hash: Hash)
    | UploadStartReply
    | UploadDataReply
    | UploadEndReply
    | DownloadStartReply
    | DownloadDataReply(level: u8, uncompressedSize: u32, data: Block)
    | DownloadEndReply(fileFlags: u8, modified: u64)
    | MkDirReply
    | RemoveReply
    | RenameReply
    | DirSizeReply(size: u64)
    | LastRequestFailed(message: Utf8)

  /** The codes a client may send, each also registered with the dispatcher. */
  function Code(r: Request): u32 {
    match r
    case CompressionSupport => 0xFC000100
    case FileList(_, _) => 0xFC000102
    case Md5(_, _, _) => 0xFC000104
    case UploadStart(_, _, _) => 0xFC000106
    case UploadData(_, _, _) => 0xFC000108
    case UploadEnd(_, _) => 0xFC00010A
    case DownloadStart(_, _) => 0xFC00010C
    case DownloadData(_, _) => 0xFC00010E
    case MkDir(_) => 0xFC000111
    case Remove(_) => 0xFC000113
    case Rename(_, _) => 0xFC000115
    case DirSize(_) => 0xFC000117
  }

  const REGISTERED: seq<u32> := [
    0xFC000100, 0xFC000102, 0xFC000104, 0xFC000106, 0xFC000108, 0xFC00010A,
    0xFC00010C, 0xFC00010E, 0xFC000111, 0xFC000113, 0xFC000115, 0xFC000117]

  function ReplyCode(r: Reply): u32 {
    match r
    case CompressionSupportReply(_) => 0xFC000101
    case FileListReply(_, _, _) => 0xFC000103
    case Md5Reply(_) => 0xFC000105
    case UploadStartReply => 0xFC000107
    case UploadDataReply => 0xFC000109
    case UploadEndReply => 0xFC00010B
    case DownloadStartReply => 0xFC00010D
    case DownloadDataReply(_, _, _) => 0xFC00010F
    case DownloadEndReply(_, _) => 0xFC000110
    case MkDirReply => 0xFC000112
    case RemoveReply => 0xFC000114
    case RenameReply => 0xFC000116
    case DirSizeReply(_) => 0xFC000118
    case LastRequestFailed(_) => 0xFC000119
  }

  /** The body of a request, field by field, as the client writes it. */
  function Body(r: Request): seq<Field> {
    match r
    case CompressionSupport => []
    case FileList(level, path) => [U8(level), Str(path)]
    case Md5(path, offset, length) => [Str(path), U64(offset), U64(length)]
    case UploadStart(path, flags, offset) => [Str(path), U8(flags), U64(offset)]
    case UploadData(level, size, data) => [U8(level), U32(|data|), U32(size), Raw(data)]
    case UploadEnd(flags, modified) => [U16(flags), U64(modified)]
    case DownloadStart(path, offset) => [Str(path), U64(offset)]
    case DownloadData(level, size) => [U8(level), U32(size)]
    case MkDir(path) => [Str(path)]
    case Remove(path) => [Str(path)]
    case Rename(oldPath, newPath) => [Str(oldPath), Str(newPath)]
    case DirSize(path) => [Str(path)]
  }

  function ReplyBody(r: Reply): seq<Field> {
    match r
    case CompressionSupportReply(n) => [U8(n)]
    case FileListReply(level, size, data) => [U8(level), U32(|data|), U32(size), Raw(data)]
    case Md5Reply(hash) => [Raw(hash)]
    case DownloadDataReply(level, size, data) => [U8(level), U32(|data|), U32(size), Raw(data)]
    case DownloadEndReply(flags, modified) => [U8(flags), U64(modified)]
    case DirSizeReply(size) => [U64(size)]
    case LastRequestFailed(message) => [Str(message)]
    case _ => []
  }

  // ---- Reading, in the order in which each handler reads its body ----

  function ReadBody(code: u32, s: seq<byte>): Read<Request> {
    match code
    case 0xFC000100 => Got(CompressionSupport, s)
    case 0xFC000102 => var (level, s1) :- TakeU8(s); var (path, s2) :- TakeStr(s1); Got(FileList(level, path), s2)
    case 0xFC000104 =>
      var (path, s1) :- TakeStr(s); var (offset, s2) :- TakeU64(s1); var (length, s3) :- TakeU64(s2);
      Got(Md5(path, offset, length), s3)
    case 0xFC000106 =>
      var (path, s1) :- TakeStr(s); var (flags, s2) :- TakeU8(s1); var (offset, s3) :- TakeU64(s2);
      Got(UploadStart(path, flags, offset), s3)
    case 0xFC000108 =>
      var (block, s1) :- TakeBlock(s);
      Got(UploadData(block.0, block.1, block.2), s1)
    case 0xFC00010A =>
      var (flags, s1) :- TakeU16(s); var (modified, s2) :- TakeU64(s1); Got(UploadEnd(flags, modified), s2)
    case 0xFC00010C =>
      var (path, s1) :- TakeStr(s); var (offset, s2) :- TakeU64(s1); Got(DownloadStart(path, offset), s2)
    case 0xFC00010E => var (level, s1) :- TakeU8(s); var (size, s2) :- TakeU32(s1); Got(DownloadData(level, size), s2)
    case 0xFC000111 => var (path, s1) :- TakeStr(s); Got(MkDir(path), s1)
    case 0xFC000113 => var (path, s1) :- TakeStr(s); Got(Remove(path), s1)
    case 0xFC000115 =>
      var (oldPath, s1) :- TakeStr(s); var (newPath, s2) :- TakeStr(s1); Got(Rename(oldPath, newPath), s2)
    case 0xFC000117 => var (path, s1) :- TakeStr(s); Got(DirSize(path), s1)
    case _ => Short
  }

  /** Level, compressed size, uncompressed size, and as many bytes as the compressed size says. */
  function TakeBlock(s: seq<byte>): Read<(u8, u32, Block)> {
    var (level, s1) :- TakeU8(s);
    var (compressed, s2) :- TakeU32(s1);
    var (uncompressed, s3) :- TakeU32(s2);
    var (data, rest) :- TakeBytes(s3, compressed);
    Got((level, uncompressed, data), rest)
  }

  /** A reply as the client reads it: the code, then the body that goes with it. */
  function ReadReplyBody(code: u32, s: seq<byte>): Read<Reply> {
    match code
    case 0xFC000101 => var (n, s1) :- TakeU8(s); Got(CompressionSupportReply(n), s1)
    case 0xFC000103 => var (block, s1) :- TakeBlock(s); Got(FileListReply(block.0, block.1, block.2), s1)
    case 0xFC000105 => var (hash, s1) :- TakeBytes(s, 16); Got(Md5Reply(hash), s1)
    case 0xFC000107 => Got(UploadStartReply, s)
    case 0xFC000109 => Got(UploadDataReply, s)
    case 0xFC00010B => Got(UploadEndReply, s)
    case 0xFC00010D => Got(DownloadStartReply, s)
    case 0xFC00010F => var (block, s1) :- TakeBlock(s); Got(DownloadDataReply(block.0, block.1, block.2), s1)
    case 0xFC000110 =>
      var (flags, s1) :- TakeU8(s); var (modified, s2) :- TakeU64(s1); Got(DownloadEndReply(flags, modified), s2)
    case 0xFC000112 => Got(MkDirReply, s)
    case 0xFC000114 => Got(RemoveReply, s)
    case 0xFC000116 => Got(RenameReply, s)
    case 0xFC000118 => var (size, s1) :- TakeU64(s); Got(DirSizeReply(size), s1)
    case 0xFC000119 => var (message, s1) :- TakeStr(s); Got(LastRequestFailed(message), s1)
    case _ => Short
  }

  function RequestBytes(r: Request, rest: seq<byte>): seq<byte> {
    Encode(U32(Code(r))) + EncodeOnto(Body(r), rest)
  }

  function ReplyBytes(r: Reply, rest: seq<byte>): seq<byte> {
    Encode(U32(ReplyCode(r))) + EncodeOnto(ReplyBody(r), rest)
  }

  function TakeRequest(s: seq<byte>): Read<Request> {
    var (code, s1) :- TakeU32(s);
    ReadBody(code, s1)
  }

  function TakeReply(s: seq<byte>): Read<Reply> {
    var (code, s1) :- TakeU32(s);
    ReadReplyBody(code, s1)
  }

  // ---- Round trips ----

  lemma OneField(f: Field, rest: seq<byte>)
    ensures EncodeOnto([f], rest) == Encode(f) + rest
  {
    assert [f][1..] == [];
  }

  lemma TwoFields(f: Field, g: Field, rest: seq<byte>)
    ensures EncodeOnto([f, g], rest) == Encode(f) + (Encode(g) + rest)
  {
    assert [f, g][1..] == [g];
    OneField(g, rest);
  }

  lemma ThreeFields(f: Field, g: Field, h: Field, rest: seq<byte>)
    ensures EncodeOnto([f, g, h], rest) == Encode(f) + (Encode(g) + (Encode(h) + rest))
  {
    assert [f, g, h][1..] == [g, h];
    TwoFields(g, h, rest);
  }

  lemma BlockThenRest(level: u8, size: u32, data: Block, rest: seq<byte>)
    ensures TakeBlock(EncodeOnto([U8(level), U32(|data|), U32(size), Raw(data)], rest))
         == Got((level, size, data), rest)
  {
    var f := [U8(level), U32(|data|), U32(size), Raw(data)];
    assert f[1..] == [U32(|data|), U32(size), Raw(data)];
    ThreeFields(f[1], f[2], f[3], rest);
    U8ThenRest(level, EncodeOnto(f[1..], rest));
    U32ThenRest(|data|, Encode(f[2]) + (Encode(f[3]) + rest));
    U32ThenRest(size, Encode(f[3]) + rest);
    RawThenRest(data, rest);
  }

  /** Each handler reads exactly its request body: what follows is left untouched. */
  lemma BodyRoundTrip(r: Request, rest: seq<byte>)
    ensures ReadBody(Code(r), EncodeOnto(Body(r), rest)) == Got(r, rest)
  {
    hide TakeU8, TakeU16, TakeU32, TakeU64, TakeStr, TakeBlock, Encode;
    match r
    case CompressionSupport =>
    case FileList(level, path) =>
      TwoFields(U8(level), Str(path), rest); U8ThenRest(level, Encode(Str(path)) + rest); StrThenRest(path, rest);
    case Md5(path, offset, length) =>
      ThreeFields(Str(path), U64(offset), U64(length), rest);
      StrThenRest(path, Encode(U64(offset)) + (Encode(U64(length)) + rest));
      U64ThenRest(offset, Encode(U64(length)) + rest); U64ThenRest(length, rest);
    case UploadStart(path, flags, offset) =>
      ThreeFields(Str(path), U8(flags), U64(offset), rest);
      StrThenRest(path, Encode(U8(flags)) + (Encode(U64(offset)) + rest));
      U8ThenRest(flags, Encode(U64(offset)) + rest); U64ThenRest(offset, rest);
    case UploadData(level, size, data) => BlockThenRest(level, size, data, rest);
    case UploadEnd(flags, modified) =>
      TwoFields(U16(flags), U64(modified), rest);
      U16ThenRest(flags, Encode(U64(modified)) + rest); U64ThenRest(modified, rest);
    case DownloadStart(path, offset) =>
      TwoFields(Str(path), U64(offset), rest); StrThenRest(path, Encode(U64(offset)) + rest); U64ThenRest(offset, rest);
    case DownloadData(level, size) =>
      TwoFields(U8(level), U32(size), rest); U8ThenRest(level, Encode(U32(size)) + rest); U32ThenRest(size, rest);
    case MkDir(path) => OneField(Str(path), rest); StrThenRest(path, rest);
    case Remove(path) => OneField(Str(path), rest); StrThenRest(path, rest);
    case Rename(oldPath, newPath) =>
      TwoFields(Str(oldPath), Str(newPath), rest);
      StrThenRest(oldPath, Encode(Str(newPath)) + rest); StrThenRest(newPath, rest);
    case DirSize(path) => OneField(Str(path), rest); StrThenRest(path, rest);
  }

  lemma ReplyBodyRoundTrip(r: Reply, rest: seq<byte>)
    ensures ReadReplyBody(ReplyCode(r), EncodeOnto(ReplyBody(r), rest)) == Got(r, rest)
  {
    hide TakeU8, TakeU32, TakeU64, TakeStr, TakeBlock, TakeBytes, Encode;
    match r
    case CompressionSupportReply(n) => OneField(U8(n), rest); U8ThenRest(n, rest);
    case FileListReply(level, size, data) => BlockThenRest(level, size, data, rest);
    case Md5Reply(hash) =>
      OneField(Raw(hash), rest); RawThenRest(hash, rest);
    case DownloadDataReply(level, size, data) => BlockThenRest(level, size, data, rest);
    case DownloadEndReply(flags, modified) =>
      TwoFields(U8(flags), U64(modified), rest);
      U8ThenRest(flags, Encode(U64(modified)) + rest); U64ThenRest(modified, rest);
    case DirSizeReply(size) => OneField(U64(size), rest); U64ThenRest(size, rest);
    case LastRequestFailed(message) => OneField(Str(message), rest); StrThenRest(message, rest);
    case _ =>
  }

  lemma RequestRoundTrip(r: Request, rest: seq<byte>)
    ensures TakeRequest(RequestBytes(r, rest)) == Got(r, rest)
  {
    U32ThenRest(Code(r), EncodeOnto(Body(r), rest));
    BodyRoundTrip(r, rest);
  }

  lemma ReplyRoundTrip(r: Reply, rest: seq<byte>)
    ensures TakeReply(ReplyBytes(r, rest)) == Got(r, rest)
  {
    U32ThenRest(ReplyCode(r), EncodeOnto(ReplyBody(r), rest));
    ReplyBodyRoundTrip(r, rest);
  }

  // ---- The list of a folder, in the data of a reply ----

  datatype FileInfo = FileInfo(size: u64, modified: u64, flags: u16, name: Utf8)

  function InfoFields(f: FileInfo): seq<Field> {
    [U64(f.size), U64(f.modified), U16(f.flags), Str(f.name)]
  }

  function InfosBytes(files: seq<FileInfo>): seq<byte> {
    if files == [] then [] else EncodeOnto(InfoFields(files[0]), InfosBytes(files[1..]))
  }

  /** The number of entries, then each of them. */
  function ListBytes(files: seq<FileInfo>): seq<byte>
    requires |files| < 0x1_0000_0000
  {
    Encode(U32(|files|)) + InfosBytes(files)
  }

  /** Lists that fit a block. */
  type Listing = files: seq<FileInfo> | |files| < 0x1_0000_0000 && |ListBytes(files)| < 0x1_0000_0000 witness []

  function TakeInfo(s: seq<byte>): Read<FileInfo> {
    var (size, s1) :- TakeU64(s);
    var (modified, s2) :- TakeU64(s1);
    var (flags, s3) :- TakeU16(s2);
    var (name, rest) :- TakeStr(s3);
    Got(FileInfo(size, modified, flags, name), rest)
  }

  function TakeInfos(s: seq<byte>, n: nat): Read<seq<FileInfo>> {
    if n == 0 then Got([], s)
    else
      var (first, s1) :- TakeInfo(s);
      var (others, rest) :- TakeInfos(s1, n - 1);
      Got([first] + others, rest)
  }

  /** The list as the client takes it apart. */
  function TakeList(s: seq<byte>): Read<seq<FileInfo>> {
    var (n, s1) :- TakeU32(s);
    TakeInfos(s1, n)
  }

  lemma InfoThenRest(f: FileInfo, rest: seq<byte>)
    ensures TakeInfo(EncodeOnto(InfoFields(f), rest)) == Got(f, rest)
  {
    var t := InfoFields(f);
    assert t[1..] == [U64(f.modified), U16(f.flags), Str(f.name)];
    ThreeFields(t[1], t[2], t[3], rest);
    U64ThenRest(f.size, EncodeOnto(t[1..], rest));
    U64ThenRest(f.modified, Encode(t[2]) + (Encode(t[3]) + rest));
    U16ThenRest(f.flags, Encode(t[3]) + rest);
    StrThenRest(f.name, rest);
    hide TakeU64, TakeU16, TakeStr, Encode;
  }

  lemma OneInfoFirst(s: seq<byte>, first: FileInfo, s1: seq<byte>, others: seq<FileInfo>)
    requires TakeInfo(s) == Got(first, s1) && TakeInfos(s1, |others|) == Got(others, [])
    ensures TakeInfos(s, |others| + 1) == Got([first] + others, [])
  {
    hide TakeInfo;
  }

  lemma FirstInfo(files: seq<FileInfo>)
    requires files != []
    ensures InfosBytes(files) == EncodeOnto(InfoFields(files[0]), InfosBytes(files[1..]))
    ensures [files[0]] + files[1..] == files && |files[1..]| + 1 == |files|
  {
    hide EncodeOnto, InfoFields;
  }

  lemma {:induction false} InfosThenNothing(files: seq<FileInfo>)
    ensures TakeInfos(InfosBytes(files), |files|) == Got(files, [])
  {
    if files != [] {
      hide *;
      FirstInfo(files);
      var others := files[1..];
      var rest := InfosBytes(others);
      InfosThenNothing(others);
      InfoThenRest(files[0], rest);
      OneInfoFirst(InfosBytes(files), files[0], rest, others);
    }
  }

  /** Every list is read back, entry by entry, with nothing left. */
  lemma ListRoundTrip(files: Listing)
    ensures TakeList(ListBytes(files)) == Got(files, [])
  {
    U32ThenRest(|files|, InfosBytes(files));
    InfosThenNothing(files);
  }
}
