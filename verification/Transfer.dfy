/** The whole transfer: what an upload publishes, and what a download of it
    ends with. */
module Transfer {
  import opened Layout
  import opened Compression
  import opened Blueprint
  import opened ChunkReader
  import opened ChunkUpload
  import opened UploadRun
  import opened ChunkDownload
  import opened ChunkQueue
  import opened FileWriter
  import opened DownloadRun
  import opened DownloadSafety
  import opened DownloadProof

  // ---- recorded chunks are safe -------------------------------------------

  /** A step only adds to the log, and no byte of a recorded chunk changes,
      whatever fault interrupts the writer. */
  lemma StepIsSafe(c: Config, s: Sys, act: Action)
    requires Sound(c.archive) && Inv(c, s) && Enabled(c, s, act)
    ensures var later := Apply(c, s, act);
            && s.store.log <= later.store.log
            && forall j :: j in s.store.log ==>
                 j < Total(c) && Preserves(s.store.disk, later.store.disk, CellsOf(c.archive, j))
  {
    forall j | j in s.store.log
      ensures IsStored(c.archive, s.store.disk, j)
    {
    }
    match act
    case HandleNext(fault) => HandleIsSafe(c, s, fault);
    case _ =>
  }

  /** The part that the writer is about to handle does not meet the chunk `j`. */
  ghost predicate Misses(a: Archive, m: ChunkData, j: nat)
    requires j < |a.chunks|
  {
    m.FilePart? ==> forall l :: 0 <= l < |CellsOf(a, j)| ==> Beside(m, CellsOf(a, j)[l])
  }

  predicate Beside(m: ChunkData, cell: Cell)
    requires m.FilePart?
  {
    !(cell.0 == m.path && m.pos <= cell.1 < m.pos + |m.data|)
  }

  lemma OtherCellIsBeside(cells: seq<Cell>, data: Bytes, w: nat, m: ChunkData, cell: Cell)
    requires m.FilePart? && CellsAndData(cells, data, w, m) && forall k :: 0 <= k < |cells| ==> cells[k] != cell
    ensures Beside(m, cell)
  {
    if m.pos <= cell.1 < m.pos + |m.data| {
      assert cells[w + (cell.1 - m.pos)] == (m.path, cell.1);
    }
  }

  lemma NextPartMisses(a: Archive, i: nat, s: Script, h: nat, j: nat)
    requires Sound(a) && i < |a.chunks| && j < |a.chunks| && i != j
    requires h < |s.msgs| && WritesNext(a, i, s, h)
    ensures Misses(a, s.msgs[h], j)
  {
    assert Apart(CellsOf(a, if i < j then i else j), CellsOf(a, if i < j then j else i));
    forall l | 0 <= l < |CellsOf(a, j)|
      ensures Beside(s.msgs[h], CellsOf(a, j)[l])
    {
      OtherCellIsBeside(CellsOf(a, i), s.data, Before(s.msgs, h), s.msgs[h], CellsOf(a, j)[l]);
    }
  }

  lemma NextPart(a: Archive, i: nat, w: Worker)
    requires InBounds(a, i, w) && w.handled < w.sent && w.script.msgs[w.handled].FilePart?
    ensures WritesNext(a, i, w.script, w.handled)
  {
    if w.handled >= |Parts(w.script)| {
      EndIsLast(a, i, w);
    }
    PartWritesNext(a, i, w.script, w.handled);
  }

  /** No write ever touches a byte of a recorded chunk. */
  lemma NoWriteTouchesRecorded(c: Config, s: Sys, j: nat)
    requires Sound(c.archive) && Inv(c, s) && s.run.Some? && s.run.value.writer.Up? && s.run.value.channel != []
    requires j in s.store.log
    ensures j < Total(c) && Misses(c.archive, s.run.value.channel[0].1, j)
  {
    var r := s.run.value;
    var a := c.archive;
    assert IsStored(a, s.store.disk, j);
    NextMessage(c, s.store, r);
    var (i, m) := r.channel[0];
    var w := r.workers[i];
    assert InBounds(a, i, w);
    if m.FilePart? {
      NextPart(a, i, w);
      NextPartMisses(a, i, w.script, w.handled, j);
    }
  }

  lemma MissedKeeps(a: Archive, m: ChunkData, n: nat, disk: Disk, j: nat)
    requires j < |a.chunks| && m.FilePart? && Misses(a, m, j) && n <= |m.data|
    ensures Preserves(disk, WritePart(disk, m.path, m.pos, m.data[..n]), CellsOf(a, j))
  {
    forall k, b | 0 <= k < |CellsOf(a, j)| && HasByte(disk, CellsOf(a, j)[k], b)
      ensures HasByte(WritePart(disk, m.path, m.pos, m.data[..n]), CellsOf(a, j)[k], b)
    {
      var cell := CellsOf(a, j)[k];
      assert Beside(m, cell);
      WriteKeepsByte(disk, m.path, m.pos, m.data[..n], cell, b);
    }
  }

  lemma HandleKeepsChunk(a: Archive, store: Store, m: ChunkData, fault: Fault, j: nat)
    requires j < |a.chunks| && Misses(a, m, j)
    ensures Preserves(store.disk, Handle(store, m, fault).0.disk, CellsOf(a, j))
  {
    if m.FilePart? {
      MissedKeeps(a, m, Written(fault, m.data), store.disk, j);
      assert m.data[..|m.data|] == m.data;
    }
  }

  lemma HandleIsSafe(c: Config, s: Sys, fault: Fault)
    requires Sound(c.archive) && Inv(c, s) && Enabled(c, s, HandleNext(fault))
    ensures var later := Apply(c, s, HandleNext(fault));
            && s.store.log <= later.store.log
            && forall j :: j in s.store.log ==>
                 j < Total(c) && Preserves(s.store.disk, later.store.disk, CellsOf(c.archive, j))
  {
    var m := s.run.value.channel[0].1;
    assert Apply(c, s, HandleNext(fault)).store == Handle(s.store, m, fault).0;
    forall j | j in s.store.log
      ensures j < Total(c) && Preserves(s.store.disk, Handle(s.store, m, fault).0.disk, CellsOf(c.archive, j))
    {
      NoWriteTouchesRecorded(c, s, j);
      HandleKeepsChunk(c.archive, s.store, m, fault, j);
    }
  }

  /** Over any number of runs and crashes: a chunk once recorded stays recorded
      and stays whole on disk. */
  lemma {:induction false} RecordedStaysRecorded(c: Config, acts: seq<Action>, k: nat)
    requires Sound(c.archive) && IsExecution(c, acts) && k <= |acts|
    ensures After(c, acts[..k]).store.log <= After(c, acts).store.log
    ensures NoRepeats(After(c, acts).store.log)
    ensures forall i :: i in After(c, acts[..k]).store.log ==> IsStored(c.archive, After(c, acts).store.disk, i)
  {
    ExecutionKeeps(c, acts);
    if k == |acts| {
      assert acts[..k] == acts;
    } else {
      var front := acts[..|acts| - 1];
      assert front[..k] == acts[..k];
      RecordedStaysRecorded(c, front, k);
      ExecutionKeeps(c, front);
      StepIsSafe(c, After(c, front), acts[|acts| - 1]);
    }
  }

  /** A run starts with every chunk that is not recorded, and no other. */
  lemma ResumeSkipsRecorded(c: Config, acts: seq<Action>)
    requires Sound(c.archive) && IsExecution(c, acts) && After(c, acts).run.None?
    ensures var s := After(c, acts);
            var r := Apply(c, s, Begin).run.value;
            && r.queue.remaining == Indexes(Total(c)) - Elements(s.store.log)
            && r.base == Elements(s.store.log)
  {
    ExecutionKeeps(c, acts);
    assert After(c, acts).store.log == [] ==> Elements(After(c, acts).store.log) == {};
  }

  // ---- success ------------------------------------------------------------

  /** The last launch of the last run got an empty reply while indexes remained
      and no worker was in flight. */
  ghost predicate EndsOnEmptyReply(c: Config, acts: seq<Action>) {
    acts != [] &&
    var front, act := acts[..|acts| - 1], acts[|acts| - 1];
    match act
    case LaunchMore(_, reply, _) => After(c, front).run.Some? && Starves(After(c, front).run.value, reply)
    case Begin => false
    case _ => EndsOnEmptyReply(c, front)
  }

  function StarvedIn(s: Sys): bool {
    match s.run case Some(r) => r.starved case None => s.starved
  }

  lemma {:induction false} StarvedIffEmptyReply(c: Config, acts: seq<Action>)
    requires Sound(c.archive) && IsExecution(c, acts)
    ensures StarvedIn(After(c, acts)) <==> EndsOnEmptyReply(c, acts)
  {
    if acts != [] {
      var front, act := acts[..|acts| - 1], acts[|acts| - 1];
      StarvedIffEmptyReply(c, front);
      ExecutionKeeps(c, front);
      StarvedAfter(c, After(c, front), act);
    }
  }

  lemma StarvedAfter(c: Config, s: Sys, act: Action)
    requires Inv(c, s) && MayHappen(c, s, act)
    ensures StarvedIn(Apply(c, s, act)) <==>
              match act
              case LaunchMore(_, reply, _) => Starves(s.run.value, reply)
              case Begin => false
              case _ => StarvedIn(s)
  {
    match act
    case LaunchMore(_, reply, scripts) => StarvedByLaunch(c, s.run.value, reply, scripts);
    case HandleNext(fault) => StarvedBefore(s, s.run.value, fault);
    case _ =>
  }

  lemma StarvedByLaunch(c: Config, r: Run, reply: Option<seq<nat>>, scripts: map<nat, Script>)
    requires r.phase.Launching? && FlagInv(r)
    ensures ApplyLaunch(c, r, reply, scripts).starved <==> Starves(r, reply)
  {
  }

  lemma StarvedBefore(s: Sys, r: Run, fault: Fault)
    requires r.channel != []
    ensures ApplyHandle(s, r, fault).run.Some? && ApplyHandle(s, r, fault).run.value.starved == r.starved
  {
  }

  /** A run that returned Ok has recorded no chunk twice, and every chunk if and
      only if it did not end on an empty reply. */
  lemma SuccessMeansComplete(c: Config, acts: seq<Action>)
    requires Sound(c.archive) && IsExecution(c, acts) && After(c, acts).succeeded
    ensures NoRepeats(After(c, acts).store.log)
    ensures Elements(After(c, acts).store.log) == Indexes(Total(c)) <==> !EndsOnEmptyReply(c, acts)
  {
    ExecutionKeeps(c, acts);
    StarvedIffEmptyReply(c, acts);
  }

  /** Every request is answered with exactly the chunks requested, or fails. */
  ghost predicate RepliesExactly(c: Config, acts: seq<Action>) {
    acts != [] ==>
      && RepliesExactly(c, acts[..|acts| - 1])
      && var s, act := After(c, acts[..|acts| - 1]), acts[|acts| - 1];
         act.LaunchMore? && act.reply.Some? && s.run.Some? && Asks(s.run.value) ==>
           IsExactReply(act.reply.value, act.request)
  }

  /** Such a server never makes a run end on an empty reply. */
  lemma {:induction false} ExactRepliesNeverStarve(c: Config, acts: seq<Action>)
    requires Sound(c.archive) && IsExecution(c, acts) && RepliesExactly(c, acts)
    ensures !EndsOnEmptyReply(c, acts)
  {
    if acts != [] {
      var front, act := acts[..|acts| - 1], acts[|acts| - 1];
      ExactRepliesNeverStarve(c, front);
      ExecutionKeeps(c, front);
      if act.LaunchMore? && act.reply.Some? && Asks(After(c, front).run.value) {
        ExactIsUsable(act.reply.value, act.request, After(c, front).run.value.queue.remaining, Runners(c));
      }
    }
  }

  // ---- the files at the end -----------------------------------------------

  lemma StepStaysWithin(c: Config, s: Sys, act: Action)
    requires Sound(c.archive) && Inv(c, s) && Enabled(c, s, act) && Within(c.archive.files, s.store.disk)
    ensures Within(c.archive.files, Apply(c, s, act).store.disk)
  {
    if act.HandleNext? {
      NextStaysWithin(c, s, s.run.value, act.fault);
      assert Apply(c, s, act).store == Handle(s.store, s.run.value.channel[0].1, act.fault).0;
    }
  }

  lemma NextStaysWithin(c: Config, s: Sys, r: Run, fault: Fault)
    requires Sound(c.archive) && RunInv(c, s.store, r) && r.writer.Up? && r.channel != []
    requires Within(c.archive.files, s.store.disk)
    ensures Within(c.archive.files, Handle(s.store, r.channel[0].1, fault).0.disk)
  {
    var (i, m) := r.channel[0];
    NextMessage(c, s.store, r);
    assert InBounds(c.archive, i, r.workers[i]);
    if m.FilePart? {
      NextPart(c.archive, i, r.workers[i]);
      HandleStaysWithin(c.archive, s.store, i, r.workers[i].script, r.workers[i].handled, fault);
    }
  }

  lemma HandleStaysWithin(a: Archive, store: Store, i: nat, s: Script, h: nat, fault: Fault)
    requires Sound(a) && i < |a.chunks| && h < |s.msgs| && WritesNext(a, i, s, h) && Within(a.files, store.disk)
    ensures Within(a.files, Handle(store, s.msgs[h], fault).0.disk)
  {
    var m := s.msgs[h];
    PartStaysWithin(a, i, s, h, Written(fault, m.data), store.disk);
    assert m.data[..|m.data|] == m.data;
  }

  lemma {:induction false} ExecutionStaysWithin(c: Config, acts: seq<Action>)
    requires Sound(c.archive) && IsExecution(c, acts) && Within(c.archive.files, c.initial)
    ensures Within(c.archive.files, After(c, acts).store.disk)
  {
    if acts != [] {
      var front := acts[..|acts| - 1];
      ExecutionStaysWithin(c, front);
      ExecutionKeeps(c, front);
      StepStaysWithin(c, After(c, front), acts[|acts| - 1]);
    }
  }

  /** No file disappears or gets shorter. */
  ghost predicate Grown(disk: Disk, later: Disk) {
    forall p :: p in disk ==> p in later && |disk[p]| <= |later[p]|
  }

  lemma WriteGrows(disk: Disk, path: Path, pos: nat, data: Bytes)
    ensures Grown(disk, WritePart(disk, path, pos, data))
  {
    if data != [] {
      WriteAtBytes(FileOf(disk, path), pos, data);
    }
  }

  lemma StepGrows(c: Config, s: Sys, act: Action)
    ensures Grown(s.store.disk, Apply(c, s, act).store.disk)
  {
    if act.HandleNext? && s.run.Some? && s.run.value.channel != [] {
      var m := s.run.value.channel[0].1;
      if m.FilePart? {
        WriteGrows(s.store.disk, m.path, m.pos, m.data);
        WriteGrows(s.store.disk, m.path, m.pos, m.data[..Written(act.fault, m.data)]);
      }
      assert Apply(c, s, act).store == Handle(s.store, m, act.fault).0;
    }
  }

  lemma {:induction false} ExecutionGrows(c: Config, acts: seq<Action>)
    ensures Grown(c.initial, After(c, acts).store.disk)
  {
    if acts != [] {
      ExecutionGrows(c, acts[..|acts| - 1]);
      StepGrows(c, After(c, acts[..|acts| - 1]), acts[|acts| - 1]);
    }
  }

  lemma AllStoredIsWhole(a: Archive, disk: Disk)
    requires Sound(a) && Within(a.files, disk)
    requires forall i :: 0 <= i < |a.chunks| ==> IsStored(a, disk, i)
    ensures disk == a.files
  {
    forall p | p in a.files
      ensures p in disk && disk[p] == a.files[p]
    {
      var i :| 0 <= i < |a.chunks| && p in Paths(a.chunks[i]);
      assert IsStored(a, disk, i);
      forall k | 0 <= k < |a.files[p]|
        ensures HasByte(disk, (p, k), a.files[p][k])
      {
        StoredByte(a, disk, (p, k));
      }
      LastByteGivesLength(disk, p, a.files[p]);
    }
  }

  lemma StoredByte(a: Archive, disk: Disk, cell: Cell)
    requires Sound(a) && IsFileCell(a.files, cell)
    requires forall i :: 0 <= i < |a.chunks| ==> IsStored(a, disk, i)
    ensures SameByte(a.files, disk, cell)
  {
    var i :| 0 <= i < |a.chunks| && cell in CellsOf(a, i);
    assert IsStored(a, disk, i);
  }

  lemma LastByteGivesLength(disk: Disk, p: Path, content: Bytes)
    requires p in disk && |disk[p]| <= |content|
    requires forall k :: 0 <= k < |content| ==> HasByte(disk, (p, k), content[k])
    ensures disk[p] == content
  {
    if content != [] {
      assert HasByte(disk, (p, |content| - 1), content[|content| - 1]);
    }
    forall k | 0 <= k < |disk[p]|
      ensures disk[p][k] == content[k]
    {
      assert HasByte(disk, (p, k), content[k]);
    }
  }

  /** A download that returned Ok, after any number of crashed and failed runs
      and in any order of the workers' messages, leaves exactly the files, if and
      only if the destination held nothing else before: what is there is neither
      removed nor cut short. */
  lemma SuccessMeansSameFiles(c: Config, acts: seq<Action>)
    requires Sound(c.archive) && IsExecution(c, acts)
    requires After(c, acts).succeeded && !EndsOnEmptyReply(c, acts)
    ensures After(c, acts).store.disk == c.archive.files <==> Within(c.archive.files, c.initial)
  {
    ExecutionGrows(c, acts);
    if Within(c.archive.files, c.initial) {
      ExecutionStaysWithin(c, acts);
      CompleteIsWhole(c, acts);
    }
  }

  lemma CompleteIsWhole(c: Config, acts: seq<Action>)
    requires Sound(c.archive) && IsExecution(c, acts)
    requires After(c, acts).succeeded && !EndsOnEmptyReply(c, acts)
    requires Within(c.archive.files, After(c, acts).store.disk)
    ensures After(c, acts).store.disk == c.archive.files
  {
    ExecutionKeeps(c, acts);
    StarvedIffEmptyReply(c, acts);
    var s := After(c, acts);
    forall i | 0 <= i < Total(c)
      ensures IsStored(c.archive, s.store.disk, i)
    {
      assert i in Indexes(Total(c));
      assert i in Elements(s.store.log);
    }
    AllStoredIsWhole(c.archive, s.store.disk);
  }

  lemma AfterMore(c: Config, acts: seq<Action>, act: Action)
    ensures After(c, acts + [act]) == Apply(c, After(c, acts), act)
    ensures IsExecution(c, acts + [act]) <==> IsExecution(c, acts) && Enabled(c, After(c, acts), act)
  {
    var more := acts + [act];
    assert more[..|more| - 1] == acts;
  }

  /** One empty reply is enough: the run ends with Ok and nothing recorded. */
  lemma EmptyReplyEndsWithOk(c: Config, request: seq<nat>) returns (acts: seq<Action>)
    requires Total(c) > 0 && c.maxRunners > 0 && IsRequest(request, Indexes(Total(c)), Runners(c))
    ensures IsExecution(c, acts) && After(c, acts).succeeded && After(c, acts).store == Fresh(c).store
    ensures EndsOnEmptyReply(c, acts)
  {
    var launch := LaunchMore(request, Some([]), map[]);
    AfterMore(c, [], Begin);
    assert 0 in Indexes(Total(c));
    assert [] + [Begin] == [Begin];
    EmptyLaunch(c, After(c, [Begin]).run.value, request);
    AfterMore(c, [Begin], launch);
    acts := [Begin] + [launch];
    EndWithOk(c, acts);
    acts := acts + [NoMoreWorkers] + [WriterDrained] + [Finish];
  }

  /** A run without workers whose flags are up. */
  ghost predicate IsIdle(s: Sys) {
    s.run.Some? &&
    var r := s.run.value;
    Live(r) == {} && r.channel == [] && r.writer.Up? && !r.failed && r.parentUp
  }

  lemma IdleSteps(c: Config, s: Sys)
    requires IsIdle(s) && s.run.value.phase.Waiting?
    ensures Enabled(c, s, NoMoreWorkers)
    ensures var s1 := Apply(c, s, NoMoreWorkers);
            && Enabled(c, s1, WriterDrained)
            && var s2 := Apply(c, s1, WriterDrained);
               && Enabled(c, s2, Finish)
               && Apply(c, s2, Finish).succeeded && Apply(c, s2, Finish).store == s.store
  {
    assert Live(Apply(c, s, NoMoreWorkers).run.value) == {};
  }

  /** It ends with Ok. */
  lemma EndWithOk(c: Config, acts: seq<Action>)
    requires IsExecution(c, acts) && IsIdle(After(c, acts)) && After(c, acts).run.value.phase.Waiting?
    ensures var more := acts + [NoMoreWorkers] + [WriterDrained] + [Finish];
            && IsExecution(c, more) && After(c, more).succeeded && After(c, more).store == After(c, acts).store
            && (EndsOnEmptyReply(c, more) <==> EndsOnEmptyReply(c, acts))
  {
    IdleSteps(c, After(c, acts));
    var idle := acts + [NoMoreWorkers];
    AfterMore(c, acts, NoMoreWorkers);
    EndsMore(c, acts, NoMoreWorkers);
    var drained := idle + [WriterDrained];
    AfterMore(c, idle, WriterDrained);
    EndsMore(c, idle, WriterDrained);
    AfterMore(c, drained, Finish);
    EndsMore(c, drained, Finish);
  }

  lemma EndsMore(c: Config, acts: seq<Action>, act: Action)
    requires !act.LaunchMore? && !act.Begin?
    ensures EndsOnEmptyReply(c, acts + [act]) <==> EndsOnEmptyReply(c, acts)
  {
    var more := acts + [act];
    assert more[..|more| - 1] == acts;
  }

  lemma EmptyLaunch(c: Config, r: Run, request: seq<nat>)
    requires r.workers == map[] && r.queue.launched == [] && r.queue.buffered == [] && r.queue.remaining != {}
    requires r.phase.Launching? && r.childUp && IsRequest(request, r.queue.remaining, Runners(c))
    ensures var later := ApplyLaunch(c, r, Some([]), map[]);
            later == r.(phase := Waiting, starved := true) && Live(later) == {}
    ensures MayHappenInRun(c, r, LaunchMore(request, Some([]), map[]))
  {
    assert r.queue.(buffered := []) == r.queue;
    assert Elements([]) == {};
  }

  // ---- a published manifest is sound --------------------------------------

  /** `stack` lists exactly the files, each once and whole. */
  ghost predicate IsListing(files: Disk, stack: seq<FileLocation>) {
    && WholeFiles(stack)
    && (forall i :: 0 <= i < |stack| ==> stack[i].path in files && stack[i].size == |files[stack[i].path]|)
    && (forall p :: p in files ==> exists i :: 0 <= i < |stack| && stack[i].path == p)
  }

  /** A walk over a directory that meets each path once gives such a listing of
      the files that are not excluded. */
  lemma SourcesAreListing(files: Disk, entries: seq<Entry>, excluded: Path -> bool)
    requires forall i, j :: 0 <= i < j < |entries| ==> entries[i].path != entries[j].path
    requires forall i :: 0 <= i < |entries| && IsSource(entries[i], excluded) ==>
               entries[i].path in files && |files[entries[i].path]| == entries[i].size
    requires forall p :: p in files ==>
               exists i :: 0 <= i < |entries| && IsSource(entries[i], excluded) && entries[i].path == p
    ensures IsListing(files, Listed(entries, excluded))
  {
    var stack := Listed(entries, excluded);
    ListedAre(entries, excluded);
    forall i | 0 <= i < |stack|
      ensures stack[i].path in files && stack[i].size == |files[stack[i].path]|
    {
      assert stack[i] in stack;
    }
    forall p | p in files
      ensures exists k :: 0 <= k < |stack| && stack[k].path == p
    {
      var i :| 0 <= i < |entries| && IsSource(entries[i], excluded) && entries[i].path == p;
      assert FileLocation(p, 0, entries[i].size) in stack;
    }
  }

  lemma ApartParts<T(!new)>(a: seq<T>, b: seq<T>)
    requires NoRepeats(a + b)
    ensures NoRepeats(a) && NoRepeats(b)
    ensures forall k, l :: 0 <= k < |a| && 0 <= l < |b| ==> a[k] != b[l]
  {
    NoRepeatsConcat(a, b);
    forall k, l | 0 <= k < |a| && 0 <= l < |b|
      ensures a[k] != b[l]
    {
      assert a[k] in a && b[l] in b;
    }
  }

  lemma {:induction false} ChunkCellsApart(chunks: seq<seq<FileLocation>>)
    requires NoRepeats(AllCells(Flatten(chunks)))
    ensures forall i :: 0 <= i < |chunks| ==> NoRepeats(AllCells(chunks[i]))
    ensures forall i, j :: 0 <= i < j < |chunks| ==> Apart(AllCells(chunks[i]), AllCells(chunks[j]))
  {
    if chunks != [] {
      AllCellsConcat(chunks[0], Flatten(chunks[1..]));
      ApartParts(AllCells(chunks[0]), AllCells(Flatten(chunks[1..])));
      ChunkCellsApart(chunks[1..]);
      forall i, j | 0 <= i < j < |chunks|
        ensures Apart(AllCells(chunks[i]), AllCells(chunks[j]))
      {
        if i == 0 {
          CellsInFlat(chunks[1..]);
          FirstApart(AllCells(chunks[0]), chunks[1..], j - 1);
        } else {
          assert Apart(AllCells(chunks[1..][i - 1]), AllCells(chunks[1..][j - 1]));
        }
      }
      forall i | 0 <= i < |chunks|
        ensures NoRepeats(AllCells(chunks[i]))
      {
        if i > 0 {
          assert NoRepeats(AllCells(chunks[1..][i - 1]));
        }
      }
    }
  }

  lemma FirstApart(first: seq<Cell>, rest: seq<seq<FileLocation>>, j: nat)
    requires j < |rest|
    requires forall c: Cell :: c in AllCells(Flatten(rest)) <==> exists i :: 0 <= i < |rest| && c in AllCells(rest[i])
    requires forall k, l :: 0 <= k < |first| && 0 <= l < |AllCells(Flatten(rest))| ==>
             first[k] != AllCells(Flatten(rest))[l]
    ensures Apart(first, AllCells(rest[j]))
  {
    forall k, l | 0 <= k < |first| && 0 <= l < |AllCells(rest[j])|
      ensures first[k] != AllCells(rest[j])[l]
    {
      var c := AllCells(rest[j])[l];
      assert c in AllCells(rest[j]);
      assert c in AllCells(Flatten(rest));
    }
  }

  lemma {:induction false} CellsInFlat(chunks: seq<seq<FileLocation>>)
    ensures forall c: Cell :: c in AllCells(Flatten(chunks)) <==>
            exists i :: 0 <= i < |chunks| && c in AllCells(chunks[i])
  {
    if chunks != [] {
      AllCellsConcat(chunks[0], Flatten(chunks[1..]));
      CellsInFlat(chunks[1..]);
      forall c: Cell
        ensures c in AllCells(Flatten(chunks)) <==> exists i :: 0 <= i < |chunks| && c in AllCells(chunks[i])
      {
        if c in AllCells(Flatten(chunks[1..])) {
          var i :| 0 <= i < |chunks[1..]| && c in AllCells(chunks[1..][i]);
          assert c in AllCells(chunks[i + 1]);
        }
        if i :| 0 < i < |chunks| && c in AllCells(chunks[i]) {
          assert c in AllCells(chunks[1..][i - 1]);
        }
      }
    }
  }

  lemma {:induction false} PathsInFlat(chunks: seq<seq<FileLocation>>, p: Path)
    ensures p in Paths(Flatten(chunks)) <==> exists i :: 0 <= i < |chunks| && p in Paths(chunks[i])
  {
    if chunks != [] {
      PathsInFlat(chunks[1..], p);
      PathsOfConcat(chunks[0], Flatten(chunks[1..]));
      if p in Paths(Flatten(chunks[1..])) {
        var i :| 0 <= i < |chunks[1..]| && p in Paths(chunks[1..][i]);
        assert p in Paths(chunks[i + 1]);
      }
      if i :| 0 < i < |chunks| && p in Paths(chunks[i]) {
        assert p in Paths(chunks[1..][i - 1]);
      }
    }
  }

  lemma PathsOfConcat(a: seq<FileLocation>, b: seq<FileLocation>)
    ensures Paths(a + b) == Paths(a) + Paths(b)
  {
    assert forall d :: d in a + b <==> d in a || d in b;
  }

  /** A path is named by its bytes or, for an empty file, by an empty location. */
  lemma {:induction false} PathsAreCellsAndEmpties(ds: seq<FileLocation>, p: Path)
    ensures p in Paths(ds) <==> p in Empties(ds) || exists n: nat :: (p, n) in AllCells(ds)
  {
    if ds != [] {
      PathsAreCellsAndEmpties(ds[1..], p);
      assert ds == [ds[0]] + ds[1..];
      PathsOfConcat([ds[0]], ds[1..]);
      var cells := AllCells(ds);
      assert cells == Cells(ds[0]) + AllCells(ds[1..]);
      if p == ds[0].path && ds[0].size > 0 {
        assert Cells(ds[0])[0] == (p, ds[0].pos);
        assert (p, ds[0].pos) in cells;
      }
      if n: nat :| (p, n) in AllCells(ds[1..]) {
        assert (p, n) in cells;
      }
      if n: nat :| (p, n) in cells && (p, n) !in AllCells(ds[1..]) {
        assert (p, n) in Cells(ds[0]);
      }
    }
  }

  lemma {:induction false} StackEmptiesAre(stack: seq<FileLocation>, p: Path)
    ensures p in StackEmpties(stack) <==> exists i :: 0 <= i < |stack| && stack[i].size == 0 && stack[i].path == p
  {
    if stack != [] {
      var n := |stack| - 1;
      StackEmptiesAre(stack[..n], p);
      if i :| 0 <= i < n && stack[i].size == 0 && stack[i].path == p {
        assert stack[..n][i] == stack[i];
      }
    }
  }

  /** The manifest cut from a directory listing is sound exactly when the slots
      fit: each byte of each file in one place, each file named, none besides. */
  lemma ManifestIsSoundIff(files: Disk, slots: nat, stack: seq<FileLocation>)
    requires slots > 0 && IsListing(files, stack)
    ensures Sound(Archive(files, PlanAll(slots, stack).0)) <==> SlotsFit(slots, stack)
  {
    if SlotsFit(slots, stack) {
      FittingIsSound(files, slots, stack);
    } else {
      LeftoverIsUnsound(files, slots, stack);
    }
  }

  lemma FittingCells(files: Disk, slots: nat, stack: seq<FileLocation>)
    requires slots > 0 && IsListing(files, stack) && SlotsFit(slots, stack)
    ensures forall c: Cell :: c in AllCells(Flatten(PlanAll(slots, stack).0)) <==> IsFileCell(files, c)
  {
    ManifestTilesEveryFile(slots, stack);
    forall c: Cell
      ensures (exists i :: 0 <= i < |stack| && stack[i].path == c.0 && c.1 < stack[i].size) <==> IsFileCell(files, c)
    {
      if IsFileCell(files, c) {
        var i :| 0 <= i < |stack| && stack[i].path == c.0;
      }
    }
  }

  lemma FittingPaths(files: Disk, slots: nat, stack: seq<FileLocation>, p: Path)
    requires slots > 0 && IsListing(files, stack) && SlotsFit(slots, stack)
    ensures p in files <==> p in Paths(Flatten(PlanAll(slots, stack).0))
  {
    var ds := Flatten(PlanAll(slots, stack).0);
    PartitionIffSlotsFit(slots, stack);
    FittingCells(files, slots, stack);
    PathsAreCellsAndEmpties(ds, p);
    StackEmptiesAre(stack, p);
    if p in files {
      var i :| 0 <= i < |stack| && stack[i].path == p;
      if stack[i].size > 0 {
        assert IsFileCell(files, (p, 0));
        assert (p, 0) in AllCells(ds);
      }
    }
    if n: nat :| (p, n) in AllCells(ds) {
      assert IsFileCell(files, (p, n));
    }
  }

  lemma FittingIsSound(files: Disk, slots: nat, stack: seq<FileLocation>)
    requires slots > 0 && IsListing(files, stack) && SlotsFit(slots, stack)
    ensures Sound(Archive(files, PlanAll(slots, stack).0))
  {
    ManifestTilesEveryFile(slots, stack);
    FittingCells(files, slots, stack);
    forall p
      ensures p in files <==> p in Paths(Flatten(PlanAll(slots, stack).0))
    {
      FittingPaths(files, slots, stack, p);
    }
    TilingIsSound(Archive(files, PlanAll(slots, stack).0));
  }

  lemma TilingIsSound(a: Archive)
    requires NoRepeats(AllCells(Flatten(a.chunks)))
    requires forall c: Cell :: c in AllCells(Flatten(a.chunks)) <==> IsFileCell(a.files, c)
    requires forall p :: p in a.files <==> p in Paths(Flatten(a.chunks))
    ensures Sound(a)
  {
    CellsInFlat(a.chunks);
    ChunkCellsApart(a.chunks);
    forall i, k | 0 <= i < |a.chunks| && 0 <= k < |CellsOf(a, i)|
      ensures IsFileCell(a.files, CellsOf(a, i)[k])
    {
      assert CellsOf(a, i)[k] in AllCells(a.chunks[i]);
    }
    forall c: Cell | IsFileCell(a.files, c)
      ensures exists i :: 0 <= i < |a.chunks| && c in CellsOf(a, i)
    {
      var i :| 0 <= i < |a.chunks| && c in AllCells(a.chunks[i]);
      assert c in CellsOf(a, i);
    }
    forall p
      ensures p in a.files <==> exists i :: 0 <= i < |a.chunks| && p in Paths(a.chunks[i])
    {
      PathsInFlat(a.chunks, p);
    }
  }

  lemma LeftoverIsUnsound(files: Disk, slots: nat, stack: seq<FileLocation>)
    requires slots > 0 && IsListing(files, stack) && !SlotsFit(slots, stack)
    ensures !Sound(Archive(files, PlanAll(slots, stack).0))
  {
    var plan := PlanAll(slots, stack);
    var total := SumSizes(stack);
    var a := Archive(files, plan.0);
    SomethingLeft(slots, stack);
    StackCellCount(plan.1);
    PlanConserves(0, slots, total / slots, total / slots + total % slots, stack);
    StackCellsOfWholeFiles(stack);
    var c := StackCells(plan.1)[0];
    assert AllCells(Flatten(plan.0)) + StackCells(plan.1) == StackCells(stack);
    LostCell(AllCells(Flatten(plan.0)), StackCells(plan.1));
    assert c in StackCells(stack);
    CellsInFlat(plan.0);
    assert IsFileCell(files, c);
    forall i | 0 <= i < |plan.0|
      ensures c !in CellsOf(a, i)
    {
      assert c !in AllCells(Flatten(plan.0));
    }
  }

  lemma LostCell(a: seq<Cell>, b: seq<Cell>)
    requires NoRepeats(a + b) && b != []
    ensures b[0] !in a && b[0] in a + b
  {
    ApartParts(a, b);
  }

  // ---- from an uploaded chunk to a legitimate worker -----------------------

  /** No other bytes have the digest of `stored`. */
  ghost predicate Authenticates(hash: Bytes -> Bytes, stored: Bytes) {
    forall x: Bytes :: hash(x) == hash(stored) ==> x == stored
  }

  /** Decoding undoes encoding, and an object without bytes decodes to none. */
  ghost predicate Decodes(code: Bytes -> Bytes, decode: Bytes -> Bytes) {
    decode([]) == [] && forall x: Bytes :: decode(code(x)) == x
  }

  lemma BodyDecodes(u: Upload, ds: seq<FileLocation>, decode: Bytes -> Bytes)
    requires Body(u, ds).Some? && Decodes(u.code, decode)
    ensures BytesAt(u.files, AllCells(ds), decode(Body(u, ds).value))
    ensures |decode(Body(u, ds).value)| == |AllCells(ds)|
  {
    CellCount(ds);
    if SumSizes(ds) > 0 {
      SlicesAreCells(u.files, ds);
    }
  }

  /** What `DownloadChunk` promises of the worker of chunk `c`. */
  ghost predicate Fetched(hash: Bytes -> Bytes, decode: Bytes -> Bytes, c: Chunk, s: Script) {
    && Delivered(c.destinations, Parts(s), s.data)
    && (s.complete ==>
          && s.msgs != [] && s.msgs[|s.msgs| - 1] == EndOfChunk(c.index)
          && (exists raw: Bytes :: hash(raw) == c.checksum && s.data == decode(raw))
          && (|s.data| == |AllCells(c.destinations)| ==> Touched(Parts(s)) == Paths(c.destinations)))
  }

  /** The worker of an uploaded chunk is legitimate: a wrong object is caught by
      the digest before the end marker is sent. */
  lemma FetchedIsLegit(u: Upload, a: Archive, i: nat, c: Chunk, decode: Bytes -> Bytes, s: Script)
    requires i < |a.chunks| && a.files == u.files && IsUploaded(u, i, a.chunks[i], c.(url := None))
    requires Decodes(u.code, decode) && Authenticates(u.hash, Body(u, a.chunks[i]).value)
    requires Fetched(u.hash, decode, c, s)
    ensures Legit(a, i, s)
  {
    BodyDecodes(u, a.chunks[i], decode);
  }

  /** Downloads one chunk, whatever the server answers. */
  method FetchChunk<S(!new)>(c: Chunk, coder: Coder<S>, hash: Bytes -> Bytes, maxBufferSize: nat,
                             serve: (nat, nat) -> Option<seq<Bytes>>, interrupted: nat -> bool,
                             ghost promise: Promise<S>)
    returns (verdict: Verdict, sent: seq<ChunkData>, ghost data: Bytes)
    requires maxBufferSize > 0 && Keeps(coder, promise)
    ensures Fetched(hash, promise.code, c, Script(sent, data, verdict.Done?))
  {
    var downloader := new ChunkDownloader(c, coder, hash, maxBufferSize, serve);
    ghost var raw;
    verdict, raw, data := downloader.DownloadChunk(interrupted, promise, []);
    sent := downloader.sent;
  }

  // ---- from directory to directory ----------------------------------------

  /** The workers launched are those of the manifest's chunks. */
  ghost predicate FetchesFrom(hash: Bytes -> Bytes, decode: Bytes -> Bytes, manifest: seq<Chunk>, act: Action) {
    act.LaunchMore? ==>
      forall i :: i in act.scripts ==> i < |manifest| && Fetched(hash, decode, manifest[i], act.scripts[i])
  }

  /** Any number of runs and crashes of the download of a manifest. */
  ghost predicate IsDownloadOf(c: Config, hash: Bytes -> Bytes, decode: Bytes -> Bytes, manifest: seq<Chunk>,
                               acts: seq<Action>) {
    acts != [] ==>
      && IsDownloadOf(c, hash, decode, manifest, acts[..|acts| - 1])
      && MayHappen(c, After(c, acts[..|acts| - 1]), acts[|acts| - 1])
      && FetchesFrom(hash, decode, manifest, acts[|acts| - 1])
  }

  lemma {:induction false} DownloadIsExecution(u: Upload, decode: Bytes -> Bytes, manifest: seq<Chunk>, c: Config,
                                               acts: seq<Action>)
    requires c.archive.files == u.files && AllUploaded(u, c.archive.chunks, manifest)
    requires Decodes(u.code, decode)
    requires forall i :: 0 <= i < Total(c) ==> Authenticates(u.hash, Body(u, c.archive.chunks[i]).value)
    requires IsDownloadOf(c, u.hash, decode, manifest, acts)
    ensures IsExecution(c, acts)
  {
    if acts != [] {
      DownloadIsExecution(u, decode, manifest, c, acts[..|acts| - 1]);
      var act := acts[|acts| - 1];
      if act.LaunchMore? {
        forall i | i in act.scripts
          ensures Legit(c.archive, i, act.scripts[i])
        {
          var chunk := manifest[i];
          assert IsUploaded(u, i, c.archive.chunks[i], chunk);
          assert chunk.(url := None) == chunk;
          FetchedIsLegit(u, c.archive, i, chunk, decode, act.scripts[i]);
        }
      }
    }
  }

  /** From a directory to the same directory. The plan of the directory fits its
      slots, the manifest has every chunk in its uploaded form, and any number of
      runs and crashes downloads it, the last one with Ok and not after an empty
      reply. Then the destination holds the same files with the same bytes, if
      and only if it held nothing else before. */
  lemma RoundTrip(u: Upload, slots: nat, stack: seq<FileLocation>, manifest: seq<Chunk>, decode: Bytes -> Bytes,
                  c: Config, acts: seq<Action>)
    requires slots > 0 && IsListing(u.files, stack) && SlotsFit(slots, stack)
    requires c.archive == Archive(u.files, PlanAll(slots, stack).0)
    requires AllUploaded(u, c.archive.chunks, manifest) && Decodes(u.code, decode)
    requires forall i :: 0 <= i < Total(c) ==> Authenticates(u.hash, Body(u, c.archive.chunks[i]).value)
    requires IsDownloadOf(c, u.hash, decode, manifest, acts)
    requires After(c, acts).succeeded && !EndsOnEmptyReply(c, acts)
    ensures After(c, acts).store.disk == u.files <==> Within(u.files, c.initial)
  {
    ManifestIsSoundIff(u.files, slots, stack);
    DownloadIsExecution(u, decode, manifest, c, acts);
    SuccessMeansSameFiles(c, acts);
  }
}
