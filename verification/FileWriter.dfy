/** The single writer of a download: a bounded table of open files over the
    destination directory, and the log of finished chunks (`Writer`). */
module FileWriter {
  import opened Layout
  import opened ChunkDownload

  // ---- writing directly ---------------------------------------------------

  function Zeros(n: nat): (r: Bytes)
    ensures |r| == n
  {
    seq(n, _ => 0 as byte)
  }

  /** `write_all_at`: a gap beyond the end of the file is filled with zeros. */
  function WriteAt(content: Bytes, pos: nat, data: Bytes): (r: Bytes) {
    if data == [] then content
    else
      var padded := if |content| < pos then content + Zeros(pos - |content|) else content;
      padded[..pos] + data + (if pos + |data| < |padded| then padded[pos + |data|..] else [])
  }

  lemma WriteAtBytes(content: Bytes, pos: nat, data: Bytes)
    requires data != []
    ensures var r := WriteAt(content, pos, data);
            && |r| == (if |content| > pos + |data| then |content| else pos + |data|)
            && (forall i :: 0 <= i < |data| ==> r[pos + i] == data[i])
            && (forall i :: 0 <= i < |content| && !(pos <= i < pos + |data|) ==> r[i] == content[i])
  {
  }

  /** What lies between the old end of the file and the data is zero. */
  lemma WriteAtGap(content: Bytes, pos: nat, data: Bytes)
    requires data != []
    ensures forall i :: |content| <= i < pos ==> WriteAt(content, pos, data)[i] == 0
  {
  }

  function FileOf(disk: Disk, path: Path): Bytes {
    if path in disk then disk[path] else []
  }

  function WritePart(disk: Disk, path: Path, pos: nat, data: Bytes): Disk {
    disk[path := WriteAt(FileOf(disk, path), pos, data)]
  }

  datatype Fault = NoFault | OpenFails | WriteFails(written: nat) | SaveFails | ProgressFails

  /** The effect of one file part; a failed write leaves a prefix of it. */
  function WriteEffect(disk: Disk, path: Path, pos: nat, data: Bytes, fault: Fault): (Disk, bool) {
    match fault
    case OpenFails => (disk, false)
    case WriteFails(n) => (WritePart(disk, path, pos, data[..Min(n, |data|)]), false)
    case _ => (WritePart(disk, path, pos, data), true)
  }

  /** What persists: the files and the log of finished chunks. */
  datatype Store = Store(disk: Disk, log: seq<nat>)

  /** The effect of one message on what persists; false is an error that stops
      the writer. */
  function Handle(store: Store, m: ChunkData, fault: Fault): (Store, bool) {
    match m
    case FilePart(path, pos, data) =>
      var (disk, ok) := WriteEffect(store.disk, path, pos, data, fault);
      (store.(disk := disk), ok)
    case EndOfChunk(index) =>
      (match fault
       case SaveFails => (store, false)
       case ProgressFails => (store.(log := store.log + [index]), false)
       case _ => (store.(log := store.log + [index]), true))
  }

  /** Messages handled one after the other without faults. */
  function HandleAll(store: Store, ms: seq<ChunkData>): Store
    decreases |ms|
  {
    if ms == [] then store
    else HandleAll(Handle(store, ms[0], NoFault).0, ms[1..])
  }

  // ---- writing through the table of open files ----------------------------

  datatype OpenFile = OpenFile(timestamp: nat, inode: nat)

  /** A directory: names refer to different existing files. */
  ghost predicate IsDirectory(dir: map<Path, nat>, inodes: map<nat, Bytes>, nextInode: nat) {
    && (forall p :: p in dir ==> dir[p] in inodes && dir[p] < nextInode)
    && (forall p, q :: p in dir && q in dir && dir[p] == dir[q] ==> p == q)
  }

  ghost function FilesIn(dir: map<Path, nat>, inodes: map<nat, Bytes>): Disk
    requires forall p :: p in dir ==> dir[p] in inodes
  {
    map p | p in dir :: inodes[dir[p]]
  }

  /** Every handle refers to the file that its path names now. */
  ghost predicate HandlesAgree(openedFiles: map<Path, OpenFile>, dir: map<Path, nat>) {
    forall p :: p in openedFiles ==> p in dir && openedFiles[p].inode == dir[p]
  }

  ghost predicate IsOldest(openedFiles: map<Path, OpenFile>, path: Path) {
    && path in openedFiles
    && forall q :: q in openedFiles ==> openedFiles[path].timestamp <= openedFiles[q].timestamp
  }

  /** `path` is open and was used just now, the other files as before. */
  predicate IsUsed(before: map<Path, OpenFile>, after: map<Path, OpenFile>, path: Path, now: nat) {
    && after.Keys == before.Keys + {path}
    && after[path].timestamp == now
    && forall p :: p in before && p != path ==> after[p] == before[p]
  }

  function AddHandle(openedFiles: map<Path, OpenFile>, dir: map<Path, nat>, path: Path, now: nat)
    : (r: map<Path, OpenFile>)
    requires path in dir
    ensures HandlesAgree(openedFiles, dir) ==> HandlesAgree(r, dir)
    ensures path !in openedFiles ==> |r| == |openedFiles| + 1
    ensures IsUsed(openedFiles, r, path, now)
  {
    var r := openedFiles[path := OpenFile(now, dir[path])];
    assert r.Keys == openedFiles.Keys + {path};
    r
  }

  lemma OpenThenWrite(disk: Disk, path: Path, pos: nat, data: Bytes)
    ensures WritePart(disk[path := FileOf(disk, path)], path, pos, data) == WritePart(disk, path, pos, data)
    ensures data == [] ==> disk[path := FileOf(disk, path)] == WritePart(disk, path, pos, data)
  {
  }

  lemma EmptyWrite(disk: Disk, path: Path, pos: nat)
    requires path in disk
    ensures disk[path := FileOf(disk, path)] == disk && WritePart(disk, path, pos, []) == disk
  {
  }

  lemma CreateKeepsDirectory(dir: map<Path, nat>, inodes: map<nat, Bytes>, n: nat, path: Path)
    requires IsDirectory(dir, inodes, n) && path !in dir
    ensures IsDirectory(dir[path := n], inodes[n := []], n + 1)
    ensures FilesIn(dir[path := n], inodes[n := []]) == FilesIn(dir, inodes)[path := []]
  {
  }

  lemma WriteKeepsDirectory(dir: map<Path, nat>, inodes: map<nat, Bytes>, n: nat, path: Path, content: Bytes)
    requires IsDirectory(dir, inodes, n) && path in dir
    ensures IsDirectory(dir, inodes[dir[path] := content], n)
    ensures FilesIn(dir, inodes[dir[path] := content]) == FilesIn(dir, inodes)[path := content]
  {
  }

  class Writer {
    const maxOpenedFiles: nat
    var dir: map<Path, nat>           // directory entries
    var inodes: map<nat, Bytes>       // file contents
    var nextInode: nat
    var openedFiles: map<Path, OpenFile>
    var log: seq<nat>
    var progress: nat
    var downloadedChunks: seq<nat>

    /** Handles refer to the file their path names, paths to different files,
        and the table is bounded. */
    ghost predicate Valid()
      reads this
    {
      && IsDirectory(dir, inodes, nextInode)
      && HandlesAgree(openedFiles, dir)
      && |openedFiles| <= Limit()
    }

    ghost function Limit(): nat {
      if maxOpenedFiles == 0 then 1 else maxOpenedFiles
    }

    ghost function Files(): Disk
      requires Valid()
      reads this
    {
      FilesIn(dir, inodes)
    }

    ghost function Stored(): Store
      requires Valid()
      reads this
    {
      Store(Files(), log)
    }

    /** Starts on a directory as found, nothing open. */
    constructor (maxOpenedFiles: nat, dir: map<Path, nat>, inodes: map<nat, Bytes>, nextInode: nat,
                 log: seq<nat>, downloadedChunks: seq<nat>)
      requires IsDirectory(dir, inodes, nextInode)
      ensures Valid() && Files() == FilesIn(dir, inodes)
      ensures this.maxOpenedFiles == maxOpenedFiles && openedFiles == map[]
      ensures this.log == log && this.downloadedChunks == downloadedChunks
    {
      this.maxOpenedFiles := maxOpenedFiles;
      this.dir, this.inodes, this.nextInode := dir, inodes, nextInode;
      openedFiles := map[];
      this.log, progress := log, 0;
      this.downloadedChunks := downloadedChunks;
    }

    /** The open file that was used least recently. */
    method Oldest() returns (oldest: Option<Path>)
      ensures oldest.None? <==> openedFiles == map[]
      ensures oldest.Some? ==>
                IsOldest(openedFiles, oldest.value)
    {
      oldest := None;
      var todo := openedFiles.Keys;
      while todo != {}
        invariant todo <= openedFiles.Keys
        invariant oldest.None? ==> todo == openedFiles.Keys
        invariant oldest.Some? ==>
                    && oldest.value in openedFiles
                    && forall p :: p in openedFiles && p !in todo ==>
                         openedFiles[oldest.value].timestamp <= openedFiles[p].timestamp
        decreases todo
      {
        var p :| p in todo;
        todo := todo - {p};
        if oldest.None? || openedFiles[p].timestamp < openedFiles[oldest.value].timestamp {
          oldest := Some(p);
        }
      }
    }

    /** The table after opening `path`: only a full table loses a file, the one
        that was not used for the longest time. */
    ghost predicate Replaces(before: map<Path, OpenFile>, after: map<Path, OpenFile>, path: Path, now: nat) {
      if |before| < maxOpenedFiles || before == map[] then IsUsed(before, after, path, now)
      else exists p :: IsOldest(before, p) && IsUsed(before - {p}, after, path, now)
    }

    /** Makes room for one more open file by closing the oldest. */
    method Evict() returns (closed: Option<Path>)
      requires Valid()
      modifies this`openedFiles
      ensures Valid() && Files() == old(Files())
      ensures |openedFiles| < Limit()
      ensures closed.Some? <==> |old(openedFiles)| >= maxOpenedFiles && old(openedFiles) != map[]
      ensures match closed
              case None => openedFiles == old(openedFiles)
              case Some(p) =>
                IsOldest(old(openedFiles), p) && openedFiles == old(openedFiles) - {p}
    {
      closed := None;
      if |openedFiles| >= maxOpenedFiles {
        closed := Oldest();
        if closed.Some? {
          var p := closed.value;
          assert (openedFiles - {p}).Keys == openedFiles.Keys - {p};
          openedFiles := openedFiles - {p};
        }
      }
    }

    /** Opens a file for writing, creating it when missing, never truncating. */
    method Open(path: Path, now: nat)
      requires Valid() && |openedFiles| < Limit() && path !in openedFiles
      modifies this`dir, this`inodes, this`nextInode, this`openedFiles
      ensures Valid()
      ensures Files() == old(Files())[path := FileOf(old(Files()), path)]
      ensures IsUsed(old(openedFiles), openedFiles, path, now)
    {
      if path in dir {
        EmptyWrite(Files(), path, 0);
      }
      if path !in dir {
        CreateKeepsDirectory(dir, inodes, nextInode, path);
        inodes := inodes[nextInode := []];
        dir := dir[path := nextInode];
        nextInode := nextInode + 1;
      }
      openedFiles := AddHandle(openedFiles, dir, path, now);
    }

    /** Writes through an open handle; a fault leaves a prefix written. */
    method WriteThrough(path: Path, pos: nat, data: Bytes, fault: Fault) returns (ok: bool)
      requires Valid() && path in openedFiles
      modifies this`inodes
      ensures Valid() && ok == !fault.WriteFails?
      ensures Files() == WritePart(old(Files()), path, pos,
                                   if fault.WriteFails? then data[..Min(fault.written, |data|)] else data)
    {
      var inode := openedFiles[path].inode;
      var part := if fault.WriteFails? then data[..Min(fault.written, |data|)] else data;
      WriteKeepsDirectory(dir, inodes, nextInode, path, WriteAt(inodes[inode], pos, part));
      inodes := inodes[inode := WriteAt(inodes[inode], pos, part)];
      ok := !fault.WriteFails?;
    }

    /** `write_to_file`: like writing directly, through at most `Limit()` handles. */
    method WriteToFile(path: Path, pos: nat, data: Bytes, now: nat, fault: Fault) returns (ok: bool)
      requires Valid()
      modifies this`dir, this`inodes, this`nextInode, this`openedFiles
      ensures Valid()
      ensures Files() == WriteEffect(old(Files()), path, pos, data, Effective(fault, path in old(openedFiles), data)).0
      ensures ok == WriteEffect(old(Files()), path, pos, data, Effective(fault, path in old(openedFiles), data)).1
      ensures path in old(openedFiles) ==>
                if data == [] then openedFiles == old(openedFiles) else IsUsed(old(openedFiles), openedFiles, path, now)
      ensures ok && path !in old(openedFiles) ==> Replaces(old(openedFiles), openedFiles, path, now)
    {
      if path in openedFiles {
        ok := WriteOpened(path, pos, data, now, fault);
        return;
      }
      ghost var before := Files();
      var _ := Evict();
      if fault.OpenFails? {
        return false;
      }
      Open(path, now);
      ok := true;
      OpenThenWrite(before, path, pos, data);
      if data != [] {
        OpenThenWrite(before, path, pos, if fault.WriteFails? then data[..Min(fault.written, |data|)] else data);
        ok := WriteThrough(path, pos, data, fault);
      }
    }

    /** `handle_chunk_data`: a chunk is logged only by its end marker. */
    method HandleChunkData(m: ChunkData, now: nat, fault: Fault) returns (ok: bool)
      requires Valid()
      modifies this
      ensures Valid()
      ensures (Stored(), ok) == Handle(old(Stored()), m, Possible(fault, m, old(openedFiles).Keys))
      ensures downloadedChunks == old(downloadedChunks) + log[|old(log)|..]
      ensures m.EndOfChunk? && ok ==> progress == |downloadedChunks|
    {
      match m
      case FilePart(path, pos, data) =>
        ok := WriteToFile(path, pos, data, now, fault);
      case EndOfChunk(index) =>
        if fault.SaveFails? {
          return false;
        }
        log := log + [index];
        downloadedChunks := downloadedChunks + [index];
        if fault.ProgressFails? {
          return false;
        }
        progress := |downloadedChunks|;
        ok := true;
    }

    /** `Writer::run` on the messages `ms` it would receive, stopped by the run
        flag before message `stopAt` or by the first error. */
    method Run(ms: seq<ChunkData>, clock: nat -> nat, faults: nat -> Fault, stopAt: nat)
      returns (ok: bool, handled: nat)
      requires Valid()
      modifies this
      ensures Valid() && openedFiles == map[]
      ensures handled <= |ms| && handled <= stopAt
      ensures ok ==> handled == Min(|ms|, stopAt) && Stored() == HandleAll(old(Stored()), ms[..handled])
      ensures !ok ==> handled < |ms| && exists f: Fault ::
                        Handle(HandleAll(old(Stored()), ms[..handled]), ms[handled], f) == (Stored(), false)
    {
      ok, handled := true, 0;
      while handled < |ms| && handled < stopAt
        invariant Valid() && handled <= |ms| && handled <= stopAt
        invariant Stored() == HandleAll(old(Stored()), ms[..handled])
      {
        ghost var before := Stored();
        ghost var f := Possible(faults(handled), ms[handled], openedFiles.Keys);
        ok := HandleChunkData(ms[handled], clock(handled), faults(handled));
        if !ok {
          assert Handle(before, ms[handled], f) == (Stored(), false);
          break;
        }
        HandleAllMore(old(Stored()), ms, handled);
        SucceedsAlike(before, ms[handled], f);
        handled := handled + 1;
      }
      openedFiles := map[];
    }

    method WriteOpened(path: Path, pos: nat, data: Bytes, now: nat, fault: Fault) returns (ok: bool)
      requires Valid() && path in openedFiles
      modifies this`inodes, this`openedFiles
      ensures Valid()
      ensures if data == [] then openedFiles == old(openedFiles) else IsUsed(old(openedFiles), openedFiles, path, now)
      ensures (Files(), ok) == WriteEffect(old(Files()), path, pos, data, Effective(fault, true, data))
    {
      ghost var before := Files();
      ghost var effect := WriteEffect(before, path, pos, data, Effective(fault, true, data));
      EmptyWrite(Files(), path, pos);
      ok := true;
      if data != [] {
        openedFiles := AddHandle(openedFiles, dir, path, now);
        assert openedFiles.Keys == old(openedFiles).Keys;
        assert |openedFiles.Keys| == |old(openedFiles).Keys|;
        assert Files() == before;
        ok := WriteThrough(path, pos, data, fault);
        assert (Files(), ok) == effect;
      } else {
        assert (Files(), ok) == effect;
      }
    }
  }

  /** The faults that can occur: nothing is opened twice, and an empty part is
      not written. */
  function Effective(fault: Fault, isOpen: bool, data: Bytes): Fault {
    match fault
    case OpenFails => if isOpen then NoFault else OpenFails
    case WriteFails(_) => if data == [] then NoFault else fault
    case _ => NoFault
  }

  function Possible(fault: Fault, m: ChunkData, openPaths: set<Path>): Fault {
    match m
    case FilePart(path, _, data) => Effective(fault, path in openPaths, data)
    case EndOfChunk(_) => fault
  }

  lemma SucceedsAlike(store: Store, m: ChunkData, fault: Fault)
    requires Handle(store, m, fault).1
    ensures Handle(store, m, fault).0 == Handle(store, m, NoFault).0
  {
  }

  lemma {:induction false} HandleAllMore(store: Store, ms: seq<ChunkData>, k: nat)
    requires k < |ms|
    ensures HandleAll(store, ms[..k + 1]) == Handle(HandleAll(store, ms[..k]), ms[k], NoFault).0
    decreases |ms|
  {
    assert ms[..k + 1][0] == ms[0];
    assert ms[..k + 1][1..] == ms[1..][..k];
    if k > 0 {
      HandleAllMore(Handle(store, ms[0], NoFault).0, ms[1..], k - 1);
      assert ms[..k][1..] == ms[1..][..k - 1];
    }
  }
}
