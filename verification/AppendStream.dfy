/** T_ReceiverStream of src/receiver/yisync_receiver.cpp: entries created and files appended to, on values.
    The stream's directory is a map from names to what they name. */
module AppendStreams {
  import opened Wire
  import opened Messages
  import opened Checksums
  import opened ChunkStreams

  const REGULAR_FILE: U8 := 1
  const DIRECTORY: U8 := 2
  const SYMLINK: U8 := 3

  datatype Node = File(content: Bytes) | Directory | Symlink(target: Blob)

  type CreateMessage = m: Message | m.Create? witness Create(0, 0, 0, 0, [], [], 0, 0, 0, Checksum(0, 0, 0, []))
  type DataMessage = m: Message | m.Data? witness Data(0, 0, 0, 0, 0, 0, 0, 0, [], [])

  /** The session state, and the directory. `current` names the entry last created, if any. */
  datatype AppendStream = AppendStream(
    streamId: U64, expectedSeq: U64, currentFileId: U64, currentOffset: U64, currentFinalSize: U64,
    currentKind: U8, current: Option<Blob>, disk: map<Blob, Node>)

  function SizeOf(node: Node): nat { if node.File? then |node.content| else 0 }

  // ---------- CREATE ----------

  /** What the file system says: the checks of the previous file and of the name, and how creating goes. */
  datatype CreateDisk = CreateDisk(nameSafe: bool, prevExists: bool, prevSize: U64, prevChecksumMatches: bool,
                                   parentMade: bool, made: bool)

  function CreateRefusal(s: AppendStream, m: CreateMessage, disk: CreateDisk): Reply {
    if m.kind !in [REGULAR_FILE, DIRECTORY, SYMLINK] then Nacked(BAD_CREATE, "unsupported create entry kind")
    else if !disk.nameSafe then Nacked(BAD_CREATE, "unsafe target path")
    else if m.prevFileId != 0 && !disk.prevExists then Nacked(PREV_FILE_INCOMPLETE, "previous file does not exist")
    else if m.prevFileId != 0 && disk.prevSize != m.prevFinalSize then Nacked(PREV_FILE_INCOMPLETE, "previous file size mismatch")
    else if m.prevFileId != 0 && !disk.prevChecksumMatches then Nacked(CHECKSUM_MISMATCH, "previous file checksum mismatch")
    else if m.name in s.disk then Nacked(FILE_EXISTS, "target file already exists")
    else if !disk.parentMade then Nacked(IO_ERROR, "failed to create parent directories")
    else if !disk.made then Nacked(IO_ERROR, "failed to create target")
    else Fine
  }

  function NewNode(m: CreateMessage): Node {
    if m.kind == DIRECTORY then Directory else if m.kind == SYMLINK then Symlink(m.linkTarget) else File([])
  }

  function ApplyCreate(s: AppendStream, m: CreateMessage, disk: CreateDisk): (AppendStream, Reply) {
    if m.streamId != s.streamId then (s, Nacked(BAD_SESSION, "inactive or wrong stream"))
    else if m.seqNo < s.expectedSeq then (s, Fine)
    else if m.seqNo > s.expectedSeq then (s, Nacked(BAD_SEQ, "future seq"))
    else if !CreateRefusal(s, m, disk).Fine? then (s, CreateRefusal(s, m, disk))
    else
      (s.(currentFileId := m.fileId, currentOffset := 0, currentFinalSize := m.finalSize, currentKind := m.kind,
          current := Some(m.name), disk := s.disk[m.name := NewNode(m)],
          expectedSeq := if m.kind != REGULAR_FILE || m.finalSize == 0 then Max(s.expectedSeq, Wrap64(m.seqNo + 1))
                         else s.expectedSeq),
       Fine)
  }

  // ---------- DATA ----------

  /** A late DATA that still continues the current file. */
  predicate ResumesCurrent(s: AppendStream, m: DataMessage) {
    m.fileId == s.currentFileId && Wrap64(m.seqNo + 1) == s.expectedSeq
    && m.offset == s.currentOffset && s.currentOffset < m.finalSize
  }

  predicate RestoresFinalSize(s: AppendStream, m: DataMessage) {
    Wrap64(m.seqNo + 1) == s.expectedSeq && m.fileId == s.currentFileId && m.offset == s.currentOffset
    && s.currentFinalSize == s.currentOffset && m.finalSize >= s.currentOffset
  }

  /** The name to append to; `fallback` is what the id maps to when no entry was created in this session. */
  function Target(s: AppendStream, fallback: Blob): Blob {
    match s.current case Some(name) => name case None => fallback
  }

  function DataRefusal(s: AppendStream, m: DataMessage, fallback: Blob): Reply {
    if m.seqNo > s.expectedSeq then Nacked(BAD_SEQ, "future seq")
    else if m.fileId != s.currentFileId then Nacked(BAD_FILE_ORDER, "wrong file id")
    else if s.currentKind != REGULAR_FILE then Nacked(BAD_FILE_ORDER, "DATA target is not a regular file")
    else if Target(s, fallback) !in s.disk then Nacked(BAD_OFFSET, "target file missing")
    else if m.offset != SizeOf(s.disk[Target(s, fallback)]) then Nacked(BAD_OFFSET, "offset mismatch")
    else if m.rawLen == 0 then Nacked(DECODE_ERROR, "empty DATA")
    else if s.currentFinalSize != 0 && m.finalSize != s.currentFinalSize && !RestoresFinalSize(s, m) then
      Nacked(SIZE_CONFLICT, "final_size mismatch")
    else if Wrap64(m.offset + m.rawLen) > m.finalSize then Nacked(BAD_OFFSET, "DATA exceeds final_size")
    else PayloadRefusal(m)
  }

  function PayloadRefusal(m: DataMessage): Reply {
    if m.compression != NO_COMPRESSION then Nacked(DECODE_ERROR, "compression is not implemented in this prototype")
    else if |m.payload| != m.rawLen then Nacked(DECODE_ERROR, "raw_len does not match uncompressed payload length")
    else if m.checksumAlgo != CRC32C then Nacked(BAD_CHECKSUM, "only CRC32C DATA checksum is implemented")
    else if m.checksum != Crc32cBytes(m.payload) then Nacked(BAD_CHECKSUM, "DATA checksum mismatch")
    else Fine
  }

  function Append(disk: map<Blob, Node>, name: Blob, data: Bytes): map<Blob, Node>
    requires name in disk
  {
    if disk[name].File? then disk[name := File(disk[name].content + data)] else disk
  }

  /** The write, and the session state after a whole one. */
  function AfterWrite(s: AppendStream, m: DataMessage, name: Blob, write: WriteDisk): (AppendStream, Reply)
    requires name in s.disk
  {
    match write
    case NotOpened => (s, Nacked(IO_ERROR, "failed to open target file"))
    case Partly(n) =>
      (s.(disk := Append(s.disk, name, m.payload[..Min(n, |m.payload|)])), Nacked(IO_ERROR, "failed to append target file"))
    case Written =>
      var end := Wrap64(m.offset + m.rawLen);
      (s.(disk := Append(s.disk, name, m.payload), currentOffset := end, currentFinalSize := m.finalSize,
          expectedSeq := if end >= m.finalSize then Max(s.expectedSeq, Wrap64(m.seqNo + 1)) else s.expectedSeq),
       Fine)
  }

  function ApplyData(s: AppendStream, m: DataMessage, fallback: Blob, write: WriteDisk): (AppendStream, Reply) {
    if m.streamId != s.streamId then (s, Nacked(BAD_SESSION, "inactive or wrong stream"))
    else if m.seqNo < s.expectedSeq && !ResumesCurrent(s, m) then (s, Fine)
    else if !DataRefusal(s, m, fallback).Fine? then (s, DataRefusal(s, m, fallback))
    else AfterWrite(s, m, Target(s, fallback), write)
  }

  /** The receiver as it runs. */
  class T_ReceiverStream {
    const streamId: U64
    var expectedSeq: U64
    var currentFileId: U64
    var currentOffset: U64
    var currentFinalSize: U64
    var currentKind: U8
    var current: Option<Blob>
    var disk: map<Blob, Node>

    function Value(): AppendStream reads this {
      AppendStream(streamId, expectedSeq, currentFileId, currentOffset, currentFinalSize, currentKind, current, disk)
    }

    /** reset_session_from_disk: a scan's last entry is taken as complete. */
    constructor (streamId: U64, disk: map<Blob, Node>, latest: Option<(Latest, U8, Blob)>)
      ensures this.streamId == streamId && this.disk == disk
      ensures match latest
              case None => Value() == AppendStream(streamId, 1, 0, 0, 0, REGULAR_FILE, None, disk)
              case Some((l, kind, name)) =>
                Value() == AppendStream(streamId, Wrap64(l.seqNo + 1), l.fileId, l.size, l.size, kind, Some(name), disk)
    {
      this.streamId, this.disk := streamId, disk;
      expectedSeq, currentFileId, currentOffset, currentFinalSize := 1, 0, 0, 0;
      currentKind, current := REGULAR_FILE, None;
      if latest.Some? {
        var (l, kind, name) := latest.value;
        expectedSeq, currentFileId, currentOffset, currentFinalSize := Wrap64(l.seqNo + 1), l.fileId, l.size, l.size;
        currentKind, current := kind, Some(name);
      }
    }

    method OnCreate(m: CreateMessage, env: CreateDisk) returns (reply: Reply)
      modifies this
      ensures (Value(), reply) == ApplyCreate(old(Value()), m, env)
    {
      if m.streamId != streamId {
        return Nacked(BAD_SESSION, "inactive or wrong stream");
      }
      if m.seqNo < expectedSeq {
        return Fine;
      }
      if m.seqNo > expectedSeq {
        return Nacked(BAD_SEQ, "future seq");
      }
      if m.kind != REGULAR_FILE && m.kind != DIRECTORY && m.kind != SYMLINK {
        return Nacked(BAD_CREATE, "unsupported create entry kind");
      }
      if !env.nameSafe {
        return Nacked(BAD_CREATE, "unsafe target path");
      }
      if m.prevFileId != 0 {
        if !env.prevExists {
          return Nacked(PREV_FILE_INCOMPLETE, "previous file does not exist");
        }
        if env.prevSize != m.prevFinalSize {
          return Nacked(PREV_FILE_INCOMPLETE, "previous file size mismatch");
        }
        if !env.prevChecksumMatches {
          return Nacked(CHECKSUM_MISMATCH, "previous file checksum mismatch");
        }
      }
      if m.name in disk {
        return Nacked(FILE_EXISTS, "target file already exists");
      }
      if !env.parentMade {
        return Nacked(IO_ERROR, "failed to create parent directories");
      }
      if !env.made {
        return Nacked(IO_ERROR, "failed to create target");
      }
      disk := disk[m.name := NewNode(m)];
      currentFileId, currentOffset, currentFinalSize := m.fileId, 0, m.finalSize;
      currentKind, current := m.kind, Some(m.name);
      if m.kind != REGULAR_FILE || m.finalSize == 0 {
        expectedSeq := Max(expectedSeq, Wrap64(m.seqNo + 1));
      }
      return Fine;
    }

    method Write(m: DataMessage, name: Blob, write: WriteDisk) returns (reply: Reply)
      requires name in disk
      modifies this
      ensures (Value(), reply) == AfterWrite(old(Value()), m, name, write)
    {
      hide Append;
      match write {
        case NotOpened =>
          return Nacked(IO_ERROR, "failed to open target file");
        case Partly(n) =>
          disk := Append(disk, name, m.payload[..Min(n, |m.payload|)]);
          return Nacked(IO_ERROR, "failed to append target file");
        case Written =>
          disk := Append(disk, name, m.payload);
          currentOffset := Wrap64(m.offset + m.rawLen);
          currentFinalSize := m.finalSize;
          if currentOffset >= currentFinalSize {
            expectedSeq := Max(expectedSeq, Wrap64(m.seqNo + 1));
          }
          return Fine;
      }
    }

    /** The checks of a DATA that is not late, in order, up to its payload. */
    method CheckData(m: DataMessage, name: Blob) returns (reply: Reply)
      ensures current == Some(name) || current == None ==>
                DataRefusal(Value(), m, name) == if reply.Fine? then PayloadRefusal(m) else reply
    {
      hide PayloadRefusal;
      if m.seqNo > expectedSeq {
        return Nacked(BAD_SEQ, "future seq");
      }
      if m.fileId != currentFileId {
        return Nacked(BAD_FILE_ORDER, "wrong file id");
      }
      if currentKind != REGULAR_FILE {
        return Nacked(BAD_FILE_ORDER, "DATA target is not a regular file");
      }
      if name !in disk {
        return Nacked(BAD_OFFSET, "target file missing");
      }
      if m.offset != SizeOf(disk[name]) {
        return Nacked(BAD_OFFSET, "offset mismatch");
      }
      if m.rawLen == 0 {
        return Nacked(DECODE_ERROR, "empty DATA");
      }
      var restoring := Wrap64(m.seqNo + 1) == expectedSeq && m.fileId == currentFileId && m.offset == currentOffset
                       && currentFinalSize == currentOffset && m.finalSize >= currentOffset;
      if currentFinalSize != 0 && m.finalSize != currentFinalSize && !restoring {
        return Nacked(SIZE_CONFLICT, "final_size mismatch");
      }
      if Wrap64(m.offset + m.rawLen) > m.finalSize {
        return Nacked(BAD_OFFSET, "DATA exceeds final_size");
      }
      return Fine;
    }

    static method CheckPayload(m: DataMessage) returns (reply: Reply)
      ensures reply == PayloadRefusal(m)
    {
      hide Crc32cBytes;
      if m.compression != NO_COMPRESSION {
        return Nacked(DECODE_ERROR, "compression is not implemented in this prototype");
      }
      if |m.payload| != m.rawLen {
        return Nacked(DECODE_ERROR, "raw_len does not match uncompressed payload length");
      }
      if m.checksumAlgo != CRC32C {
        return Nacked(BAD_CHECKSUM, "only CRC32C DATA checksum is implemented");
      }
      if m.checksum != Crc32cBytes(m.payload) {
        return Nacked(BAD_CHECKSUM, "DATA checksum mismatch");
      }
      return Fine;
    }

    method OnData(m: DataMessage, fallback: Blob, write: WriteDisk) returns (reply: Reply)
      modifies this
      ensures (Value(), reply) == ApplyData(old(Value()), m, fallback, write)
    {
      hide AfterWrite, PayloadRefusal, RestoresFinalSize;
      if m.streamId != streamId {
        return Nacked(BAD_SESSION, "inactive or wrong stream");
      }
      if m.seqNo < expectedSeq {
        var resumes := m.fileId == currentFileId && Wrap64(m.seqNo + 1) == expectedSeq
                       && m.offset == currentOffset && currentOffset < m.finalSize;
        if !resumes {
          return Fine;
        }
      }
      var name := if current.Some? then current.value else fallback;
      reply := CheckData(m, name);
      assert DataRefusal(Value(), m, fallback) == DataRefusal(Value(), m, name);
      if !reply.Fine? {
        return;
      }
      reply := CheckPayload(m);
      if !reply.Fine? {
        return;
      }
      reply := Write(m, name, write);
    }
  }
}
