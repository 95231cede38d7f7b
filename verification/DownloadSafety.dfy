/** What every step of a download keeps: recorded chunks stay intact on disk,
    each index is recorded at most once, and success means complete. */
module DownloadSafety {
  import opened Layout
  import opened ChunkDownload
  import opened ChunkQueue
  import opened FileWriter
  import opened DownloadRun

  // ---- writes and the cells they leave alone ------------------------------

  /** No byte at `cells` is lost or changed from `disk` to `later`. */
  ghost predicate Preserves(disk: Disk, later: Disk, cells: seq<Cell>) {
    forall k, b :: 0 <= k < |cells| && HasByte(disk, cells[k], b) ==> HasByte(later, cells[k], b)
  }

  lemma WriteKeepsByte(disk: Disk, path: Path, pos: nat, data: Bytes, c: Cell, b: byte)
    requires HasByte(disk, c, b) && !(c.0 == path && pos <= c.1 < pos + |data|)
    ensures HasByte(WritePart(disk, path, pos, data), c, b)
  {
    if c.0 == path && data != [] {
      WriteAtBytes(FileOf(disk, path), pos, data);
    }
  }

  lemma WriteSetsByte(disk: Disk, path: Path, pos: nat, data: Bytes, k: nat)
    requires k < |data|
    ensures HasByte(WritePart(disk, path, pos, data), (path, pos + k), data[k])
  {
    WriteAtBytes(FileOf(disk, path), pos, data);
  }

  /** How many bytes the first `h` messages write. */
  function Before(ms: seq<ChunkData>, h: nat): nat
    requires h <= |ms|
  {
    if h == 0 then 0 else Before(ms, h - 1) + |PartWrites(ms[h - 1])|
  }

  lemma {:induction false} BeforeIsWrites(ms: seq<ChunkData>, h: nat)
    requires h <= |ms|
    ensures Before(ms, h) == |Writes(ms[..h])|
  {
    if h > 0 {
      BeforeIsWrites(ms, h - 1);
      WritesAt(ms, h - 1);
    }
  }

  lemma {:induction false} BeforeOfPrefix(ms: seq<ChunkData>, more: seq<ChunkData>, h: nat)
    requires h <= |ms| && ms <= more
    ensures Before(more, h) == Before(ms, h)
  {
    if h > 0 {
      BeforeOfPrefix(ms, more, h - 1);
    }
  }

  /** The `h`-th message of a legitimate script writes the next cells of its chunk. */
  ghost predicate WritesNext(a: Archive, i: nat, s: Script, h: nat)
    requires i < |a.chunks| && h < |s.msgs|
  {
    var m := s.msgs[h];
    && m.FilePart? && m.path in Paths(a.chunks[i])
    && CellsAndData(CellsOf(a, i), s.data, Before(s.msgs, h), m)
  }

  /** Where the writes of one part are among all the writes `ws`. */
  lemma ZippedByte(ws: seq<Write>, w: nat, m: ChunkData, cells: seq<Cell>, data: Bytes, k: nat)
    requires m.FilePart? && k < |m.data| && IsAt(ws, w, PartWrites(m))
    requires |data| <= |cells| && ws == Zip(cells, data)
    ensures w + k < |data| && cells[w + k] == (m.path, m.pos + k) && data[w + k] == m.data[k]
  {
    assert ws[w..w + |m.data|][k] == PartWrites(m)[k];
  }

  lemma ZippedPart(parts: seq<ChunkData>, cells: seq<Cell>, data: Bytes, h: nat)
    requires h < |parts| && parts[h].FilePart?
    requires |data| <= |cells| && Writes(parts) == Zip(cells, data)
    ensures CellsAndData(cells, data, Before(parts, h), parts[h])
  {
    WritesAt(parts, h);
    BeforeIsWrites(parts, h);
    ZippedBytes(Writes(parts), Before(parts, h), parts[h], cells, data);
  }

  lemma ZippedBytes(ws: seq<Write>, w: nat, m: ChunkData, cells: seq<Cell>, data: Bytes)
    requires m.FilePart? && IsAt(ws, w, PartWrites(m))
    requires |data| <= |cells| && ws == Zip(cells, data)
    ensures CellsAndData(cells, data, w, m)
  {
    forall k | w <= k < w + |m.data|
      ensures k < |data| && cells[k] == (m.path, m.pos + k - w) && data[k] == m.data[k - w]
    {
      ZippedByte(ws, w, m, cells, data, k - w);
    }
  }

  ghost predicate CellsAndData(cells: seq<Cell>, data: Bytes, w: nat, m: ChunkData)
    requires m.FilePart?
  {
    && w + |m.data| <= |data| <= |cells|
    && forall k :: w <= k < w + |m.data| ==> cells[k] == (m.path, m.pos + k - w) && data[k] == m.data[k - w]
  }

  lemma PartWritesNext(a: Archive, i: nat, s: Script, h: nat)
    requires Legit(a, i, s) && h < |Parts(s)|
    ensures WritesNext(a, i, s, h)
  {
    var parts := Parts(s);
    BeforeOfPrefix(parts, s.msgs, h);
    ZippedPart(parts, CellsOf(a, i), s.data, h);
    assert parts[h].path in Touched(parts);
  }

  /** Writing a prefix of that part keeps every cell outside it. */
  lemma PartKeeps(a: Archive, i: nat, s: Script, h: nat, n: nat, disk: Disk, cells: seq<Cell>)
    requires i < |a.chunks| && h < |s.msgs| && WritesNext(a, i, s, h) && n <= |s.msgs[h].data|
    requires forall k, l :: 0 <= k < |cells| && Before(s.msgs, h) <= l < Before(s.msgs, h) + n ==>
               cells[k] != CellsOf(a, i)[l]
    ensures Preserves(disk, WritePart(disk, s.msgs[h].path, s.msgs[h].pos, s.msgs[h].data[..n]), cells)
  {
    var m := s.msgs[h];
    var w := Before(s.msgs, h);
    forall k, b | 0 <= k < |cells| && HasByte(disk, cells[k], b)
      ensures HasByte(WritePart(disk, m.path, m.pos, m.data[..n]), cells[k], b)
    {
      var c := cells[k];
      if m.pos <= c.1 < m.pos + n {
        assert CellsOf(a, i)[w + (c.1 - m.pos)] == (m.path, c.1);
      }
      WriteKeepsByte(disk, m.path, m.pos, m.data[..n], c, b);
    }
  }

  /** No write of one chunk's worker touches another chunk. */
  lemma OtherChunksUntouched(a: Archive, i: nat, s: Script, h: nat, n: nat, disk: Disk, j: nat)
    requires Sound(a) && i < |a.chunks| && j < |a.chunks| && i != j
    requires h < |s.msgs| && WritesNext(a, i, s, h) && n <= |s.msgs[h].data|
    ensures Preserves(disk, WritePart(disk, s.msgs[h].path, s.msgs[h].pos, s.msgs[h].data[..n]), CellsOf(a, j))
  {
    assert Apart(CellsOf(a, if i < j then i else j), CellsOf(a, if i < j then j else i));
    PartKeeps(a, i, s, h, n, disk, CellsOf(a, j));
  }

  // ---- the disk during a run ----------------------------------------------

  /** Files never outgrow, and are never other than, the source files. */
  ghost predicate Within(files: Disk, disk: Disk) {
    forall p :: p in disk ==> p in files && |disk[p]| <= |files[p]|
  }

  lemma PartStaysWithin(a: Archive, i: nat, s: Script, h: nat, n: nat, disk: Disk)
    requires Sound(a) && i < |a.chunks| && h < |s.msgs| && WritesNext(a, i, s, h) && n <= |s.msgs[h].data|
    requires Within(a.files, disk)
    ensures Within(a.files, WritePart(disk, s.msgs[h].path, s.msgs[h].pos, s.msgs[h].data[..n]))
  {
    var m := s.msgs[h];
    var w := Before(s.msgs, h);
    assert m.path in a.files;
    if n > 0 {
      assert IsFileCell(a.files, CellsOf(a, i)[w + n - 1]);
      WriteAtBytes(FileOf(disk, m.path), m.pos, m.data[..n]);
    }
  }

  /** Chunk `i` is on disk: all its bytes are right and all its files exist. */
  ghost predicate IsStored(a: Archive, disk: Disk, i: nat) {
    && i < |a.chunks|
    && (forall k :: 0 <= k < |CellsOf(a, i)| ==> SameByte(a.files, disk, CellsOf(a, i)[k]))
    && Paths(a.chunks[i]) <= disk.Keys
  }

  predicate SameByte(files: Disk, disk: Disk, c: Cell) {
    IsFileCell(files, c) && HasByte(disk, c, files[c.0][c.1])
  }

  /** What the writer has handled of worker `w` is on disk. */
  ghost predicate IsHandled(a: Archive, disk: Disk, i: nat, w: Worker) {
    && Legit(a, i, w.script) && w.handled <= w.sent <= |w.script.msgs|
    && Holds(disk, CellsOf(a, i), w.script.data, Before(w.script.msgs, w.handled))
    && Touched(w.script.msgs[..w.handled]) <= disk.Keys
  }

  lemma KeptStored(a: Archive, disk: Disk, later: Disk, i: nat)
    requires IsStored(a, disk, i) && Preserves(disk, later, CellsOf(a, i)) && disk.Keys <= later.Keys
    ensures IsStored(a, later, i)
  {
  }

  lemma KeptHandled(a: Archive, disk: Disk, later: Disk, i: nat, w: Worker)
    requires IsHandled(a, disk, i, w) && Preserves(disk, later, CellsOf(a, i)) && disk.Keys <= later.Keys
    ensures IsHandled(a, later, i, w)
  {
  }

  /** The first `n` cells hold the first bytes of `data`. */
  ghost predicate Holds(disk: Disk, cells: seq<Cell>, data: Bytes, n: nat) {
    n <= |cells| && n <= |data| && forall k :: 0 <= k < n ==> HasByte(disk, cells[k], data[k])
  }

  lemma OldByteStays(disk: Disk, cells: seq<Cell>, data: Bytes, w: nat, m: ChunkData, k: nat)
    requires m.FilePart? && CellsAndData(cells, data, w, m) && NoRepeats(cells)
    requires k < w && HasByte(disk, cells[k], data[k])
    ensures HasByte(WritePart(disk, m.path, m.pos, m.data), cells[k], data[k])
  {
    var c := cells[k];
    if m.pos <= c.1 < m.pos + |m.data| {
      assert cells[w + (c.1 - m.pos)] == (m.path, c.1);
    }
    WriteKeepsByte(disk, m.path, m.pos, m.data, c, data[k]);
  }

  lemma NextBytesOnDisk(disk: Disk, cells: seq<Cell>, data: Bytes, w: nat, m: ChunkData)
    requires m.FilePart? && CellsAndData(cells, data, w, m) && NoRepeats(cells)
    requires Holds(disk, cells, data, w)
    ensures Holds(WritePart(disk, m.path, m.pos, m.data), cells, data, w + |m.data|)
  {
    forall k | 0 <= k < w + |m.data|
      ensures HasByte(WritePart(disk, m.path, m.pos, m.data), cells[k], data[k])
    {
      if k < w {
        OldByteStays(disk, cells, data, w, m, k);
      } else {
        WriteSetsByte(disk, m.path, m.pos, m.data, k - w);
      }
    }
  }

  lemma TouchedMore(ms: seq<ChunkData>, h: nat, disk: Disk)
    requires h < |ms| && ms[h].FilePart? && Touched(ms[..h]) <= disk.Keys
    ensures Touched(ms[..h + 1]) <= WritePart(disk, ms[h].path, ms[h].pos, ms[h].data).Keys
  {
    assert ms[..h + 1] == ms[..h] + [ms[h]];
    TouchedConcat(ms[..h], [ms[h]]);
  }

  /** Handling the worker's own next part. */
  lemma HandledMore(a: Archive, disk: Disk, i: nat, w: Worker)
    requires Sound(a) && IsHandled(a, disk, i, w) && w.handled < w.sent && w.handled < |Parts(w.script)|
    ensures var m := w.script.msgs[w.handled];
            m.FilePart? && IsHandled(a, WritePart(disk, m.path, m.pos, m.data), i, w.(handled := w.handled + 1))
  {
    PartWritesNext(a, i, w.script, w.handled);
    assert NoRepeats(CellsOf(a, i));
    NextBytesOnDisk(disk, CellsOf(a, i), w.script.data, Before(w.script.msgs, w.handled), w.script.msgs[w.handled]);
    TouchedMore(w.script.msgs, w.handled, disk);
  }

  /** A complete worker whose parts were all handled has stored its chunk. */
  lemma HandledIsStored(a: Archive, disk: Disk, i: nat, w: Worker)
    requires Sound(a) && IsHandled(a, disk, i, w) && w.script.complete && w.handled + 1 >= |w.script.msgs|
    ensures IsStored(a, disk, i)
  {
    AllPartsHandled(a, i, w);
    var data := w.script.data;
    forall k | 0 <= k < |CellsOf(a, i)|
      ensures SameByte(a.files, disk, CellsOf(a, i)[k])
    {
      assert HasByte(a.files, CellsOf(a, i)[k], data[k]);
    }
  }

  lemma AllPartsHandled(a: Archive, i: nat, w: Worker)
    requires Legit(a, i, w.script) && w.script.complete && |w.script.msgs| - 1 <= w.handled <= |w.script.msgs|
    ensures Before(w.script.msgs, w.handled) == |CellsOf(a, i)|
    ensures Touched(w.script.msgs[..w.handled]) == Paths(a.chunks[i])
  {
    AllPartsBefore(a, i, w.script);
    var ms := w.script.msgs;
    if w.handled == |ms| {
      MarkerWritesNothing(ms, |ms| - 1);
    }
  }

  lemma AllPartsBefore(a: Archive, i: nat, s: Script)
    requires Legit(a, i, s) && s.complete
    ensures Before(s.msgs, |s.msgs| - 1) == |CellsOf(a, i)|
    ensures Touched(s.msgs[..|s.msgs| - 1]) == Paths(a.chunks[i])
  {
    var parts := Parts(s);
    BeforeIsWrites(parts, |parts|);
    assert parts[..|parts|] == parts;
    BeforeOfPrefix(parts, s.msgs, |parts|);
  }

  lemma MarkerWritesNothing(ms: seq<ChunkData>, h: nat)
    requires h < |ms| && ms[h].EndOfChunk?
    ensures Before(ms, h + 1) == Before(ms, h) && Touched(ms[..h + 1]) == Touched(ms[..h])
  {
    assert ms[..h + 1] == ms[..h] + [ms[h]];
    TouchedConcat(ms[..h], [ms[h]]);
    assert Touched([ms[h]]) == {};
  }
}
