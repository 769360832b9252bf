/** What each request is answered, and when: exactly, and in terms of the request, the disk and the
    system alone. Whatever is not granted is refused, and leaves everything as it was. */
module FileTransferAnswers {
  import opened Wrappers
  import opened Codec
  import opened FileTransferMessages
  import opened FileTransferModel
  import opened FileTransferRuns
  import opened FileTransferSessions
  import DirectorySizes

  /** The request is refused with the system's message, and nothing has changed. */
  predicate Refused(h: Handler, result: Result, w: World) {
    result == Replied(h, LastRequestFailed(w.message))
  }

  /** Two disks are the same apart from some paths. */
  ghost predicate SameApartFrom(a: Disk, b: Disk, paths: set<Path>) {
    forall p: Path | p !in paths :: (p in a <==> p in b) && (p in a ==> a[p] == b[p])
  }

  /** Without access every request is refused but the question about compression, which is always
      answered. */
  lemma WithoutAccess(h: Handler, r: Request, w: World, lib: Library)
    requires !w.access
    ensures if r.CompressionSupport? then Handle(h, r, w, lib) == Replied(h, CompressionSupportReply(1))
            else Refused(h, Handle(h, r, w, lib), w)
  {
  }

  /** The client of a list request reads the entries of the folder, each with its size, time, flags and
      name, in order. */
  lemma FilesAreListed(h: Handler, level: u8, path: Utf8, w: World, lib: Library)
    requires Inverse(lib)
    ensures var result := Handle(h, FileList(level, path), w, lib);
            if w.access && w.listing.Some? then
              && result.Replied? && result.handler == h && result.reply.FileListReply? && result.reply.level == level
              && TakeList(Take(Plain(level, result.reply.data, lib), result.reply.uncompressedSize))
                 == Got(w.listing.value, [])
            else Refused(h, result, w)
  {
    if w.access && w.listing.Some? {
      var list: Block := ListBytes(w.listing.value);
      assert list != [];
      ListRoundTrip(w.listing.value);
      assert list[..|list|] == list;
    }
  }

  /** A part of a file is hashed exactly when access is granted, the file opens and the part lies inside
      it - of which nothing need be readable if it is empty. The hash is that of the part alone. */
  lemma HashIsOfThePart(h: Handler, path: Path, offset: u64, length: u64, w: World, lib: Library)
    ensures var result := Handle(h, Md5(path, offset, length), w, lib);
            if w.access && path in h.disk && h.disk[path].File? && w.canOpen
               && offset < 0x8000_0000_0000_0000 && offset <= |h.disk[path].bytes|
               && (length == 0 || (w.canRead && offset + length <= |h.disk[path].bytes|))
            then
              var b := h.disk[path].bytes;
              && result.Replied? && result.handler == h
              && forall before: seq<byte>, part: seq<byte>, after: seq<byte>
                   | before + part + after == b && |before| == offset && |part| == length ::
                   result.reply == Md5Reply(lib.hash(part))
            else Refused(h, result, w)
  {
    var b := Bytes(h.disk, path);
    forall before: seq<byte>, part: seq<byte>, after: seq<byte>
      | before + part + after == b && |before| == offset && |part| == length
      ensures part == b[offset..offset + length]
    {
    }
  }

  /** A folder is made exactly where there is nothing, outside the root. */
  lemma FolderIsMade(h: Handler, path: Path, w: World, lib: Library)
    ensures var result := Handle(h, MkDir(path), w, lib);
            if w.access && !w.inRoot && path !in h.disk && w.canMkDir then
              && result.Replied? && result.reply == MkDirReply && result.handler == h.(disk := result.handler.disk)
              && path in result.handler.disk && result.handler.disk[path] == Folder
              && SameApartFrom(h.disk, result.handler.disk, {path})
            else Refused(h, result, w)
  {
  }

  /** What is removed is gone, and nothing else. */
  lemma FileIsRemoved(h: Handler, path: Path, w: World, lib: Library)
    ensures var result := Handle(h, Remove(path), w, lib);
            if w.access && path in h.disk && w.canRemove then
              && result.Replied? && result.reply == RemoveReply && result.handler == h.(disk := result.handler.disk)
              && path !in result.handler.disk && SameApartFrom(h.disk, result.handler.disk, {path})
            else Refused(h, result, w)
  {
  }

  /** What is renamed has its contents under the new name, which was free, and no longer the old one. */
  lemma FileIsRenamed(h: Handler, oldPath: Path, newPath: Path, w: World, lib: Library)
    ensures var result := Handle(h, Rename(oldPath, newPath), w, lib);
            if w.access && oldPath in h.disk && newPath !in h.disk && w.canMove then
              && result.Replied? && result.reply == RenameReply && result.handler == h.(disk := result.handler.disk)
              && var disk: Disk := result.handler.disk;
              && oldPath !in disk && newPath in disk && disk[newPath] == h.disk[oldPath]
              && SameApartFrom(h.disk, disk, {oldPath, newPath})
            else Refused(h, result, w)
  {
  }

  /** The size of a folder is that of all files in it, modulo 64 bits. */
  lemma FolderIsMeasured(h: Handler, path: Utf8, w: World, lib: Library)
    ensures var result := Handle(h, DirSize(path), w, lib);
            if w.access && w.directory.Branch? then
              result == Replied(h, DirSizeReply(
                DirectorySizes.Sum(DirectorySizes.Files(w.directory)) % 0x1_0000_0000_0000_0000))
            else Refused(h, result, w)
  {
    hide DirectorySizes.Sum, DirectorySizes.Files;
  }

  // ---- The sessions ----

  /** Starting an upload with the overwrite flag empties the file before anything else can fail: what is
      there and cannot be removed stays, what cannot be made again is gone. Without the flag a start
      leaves the disk alone. */
  lemma StartEmptiesTheFile(h: Handler, path: Path, flags: u8, offset: u64, w: World, lib: Library)
    requires w.access && !w.inRoot
    ensures var result := Handle(h, UploadStart(path, flags, offset), w, lib);
            && result.Replied?
            && var disk: Disk := result.handler.disk;
            && SameApartFrom(h.disk, disk, {path})
            && if flags % 2 == 0 || (path in h.disk && !w.canRemove) then disk == h.disk
               else if w.canCreate then path in disk && disk[path] == File([])
               else path !in disk
  {
  }

  /** An upload ends exactly when its time can be set; both the file object and the stream are then gone,
      and the disk and the download are as they were. */
  lemma UploadEnds(h: Handler, end: Request, w: World, lib: Library)
    requires end.UploadEnd?
    ensures var result := Handle(h, end, w, lib);
            result.Replied? && result.reply == UploadEndReply <==>
              w.access && h.uploadFile.Some? && !h.output.NoStream? && w.canStamp
    ensures var result := Handle(h, end, w, lib);
            result.Replied? && result.reply == UploadEndReply ==>
              result.handler == Handler(h.downloadFile, h.input, None, NoStream, h.disk)
  {
  }

  /** Data for an open upload is stored exactly when access is granted, it can be decompressed and the
      write does not fail; a write that fails leaves a beginning of it behind the position, and the
      session goes on behind that. */
  lemma DataIsStored(h: Handler, path: Path, b: seq<byte>, pos: nat, level: u8, size: u32, data: Block, w: World,
                     lib: Library)
    requires Uploading(h, path, b, pos) && (level == 0 ==> size <= |data|)
    requires data != [] && (lib.emptyWrites || Chunk(UploadData(level, size, data), lib) != [])
    ensures var result := Handle(h, UploadData(level, size, data), w, lib);
            var chunk := Chunk(UploadData(level, size, data), lib);
            && result.Replied?
            && (result.reply == UploadDataReply <==>
                  w.access && w.canWrite && (level == 0 || lib.inflate(data).Some?))
            && (result.reply == UploadDataReply ==>
                  Uploading(result.handler, path, Overwrite(b, pos, chunk), pos + |chunk|))
            && (result.reply != UploadDataReply ==>
                  && result.reply == LastRequestFailed(w.message)
                  && exists part: seq<byte> :: part <= chunk && (chunk != [] ==> part != chunk)
                       && Uploading(result.handler, path, Overwrite(b, pos, part), pos + |part|))
  {
    var chunk := Chunk(UploadData(level, size, data), lib);
    var result := Handle(h, UploadData(level, size, data), w, lib);
    assert Overwrite(b, pos, []) == b;
    if w.access && !w.canWrite && (level == 0 || lib.inflate(data).Some?) {
      var part := if |chunk| == 0 then [] else chunk[..w.short % |chunk|];
      assert Uploading(result.handler, path, Overwrite(b, pos, part), pos + |part|);
    } else if result.reply != UploadDataReply {
      assert Uploading(result.handler, path, Overwrite(b, pos, []), pos + |chunk[..0]|);
    }
  }

  /** What a request for data is answered in a session: nothing for nothing, the end with the time of the
      file, or data on the level that was asked for. */
  lemma DataIsSent(h: Handler, path: Path, b: seq<byte>, pos: nat, level: u8, size: u32, w: World, lib: Library)
    requires Downloading(h, path, b, pos)
    ensures var result := Handle(h, DownloadData(level, size), w, lib);
            if !w.access || (size > 0 && !w.canRead) then Refused(h, result, w)
            else if size == 0 then result == Replied(h, DownloadDataReply(level, 0, []))
            else if pos == |b| then
              result == Replied(Handler(None, NoStream, h.uploadFile, h.output, h.disk),
                                DownloadEndReply(0, w.modified))
            else
              result.Replied? && result.reply.DownloadDataReply? && result.reply.level == level
  {
  }

  /** Data of no bytes is always taken in a session, and changes nothing. */
  lemma NothingToStore(h: Handler, level: u8, size: u32, w: World, lib: Library)
    requires w.access && h.uploadFile.Some?
    ensures Handle(h, UploadData(level, size, []), w, lib) == Replied(h, UploadDataReply)
  {
  }

  /** Requests for a session that was never started, or has ended, are refused. */
  lemma NoSessionNoData(h: Handler, r: Request, w: World, lib: Library)
    requires ((r.UploadData? || r.UploadEnd?) && h.uploadFile.None?) || (r.DownloadData? && h.downloadFile.None?)
    ensures Refused(h, Handle(h, r, w, lib), w)
  {
  }
}
