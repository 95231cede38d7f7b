/** How an upload cuts the source files into chunks: `build_destinations`,
    `prepare_manifest_blueprint` and the choice of the number of slots. */
module Blueprint {
  import opened Layout

  // ---- the sources --------------------------------------------------------

  datatype Entry = Entry(path: Path, isFile: bool, size: nat)

  /** The files among `entries` that no exclude pattern matches, whole. */
  function Listed(entries: seq<Entry>, excluded: Path -> bool): seq<FileLocation> {
    if entries == [] then []
    else
      var e := entries[|entries| - 1];
      Listed(entries[..|entries| - 1], excluded) +
      if e.isFile && !excluded(e.path) then [FileLocation(e.path, 0, e.size)] else []
  }

  predicate IsSource(e: Entry, excluded: Path -> bool) {
    e.isFile && !excluded(e.path)
  }

  /** The list has each file that is not excluded, whole, and nothing else; it
      names no path twice unless the entries do. */
  lemma {:induction false} ListedAre(entries: seq<Entry>, excluded: Path -> bool)
    ensures forall d :: d in Listed(entries, excluded) <==>
              exists i :: 0 <= i < |entries| && IsSource(entries[i], excluded) &&
                d == FileLocation(entries[i].path, 0, entries[i].size)
    ensures (forall i, j :: 0 <= i < j < |entries| ==> entries[i].path != entries[j].path) ==>
              WholeFiles(Listed(entries, excluded))
  {
    if entries != [] {
      var n := |entries| - 1;
      var front, sources := entries[..n], Listed(entries[..n], excluded);
      ListedAre(front, excluded);
      assert forall i :: 0 <= i < n ==> front[i] == entries[i];
      forall i | 0 <= i < |sources|
        ensures exists k :: 0 <= k < n && sources[i].path == entries[k].path
      {
        assert sources[i] in sources;
      }
    }
  }

  method ListSources(entries: seq<Entry>, excluded: Path -> bool)
    returns (sources: seq<FileLocation>, totalSize: nat)
    ensures sources == Listed(entries, excluded)
    ensures totalSize == SumSizes(sources)
  {
    sources, totalSize := [], 0;
    for i := 0 to |entries|
      invariant sources == Listed(entries[..i], excluded)
      invariant totalSize == SumSizes(sources)
    {
      assert entries[..i + 1][..i] == entries[..i];
      if excluded(entries[i].path) {
        continue;
      }
      if entries[i].isFile {
        var source := FileLocation(entries[i].path, 0, entries[i].size);
        SumSizesConcat(sources, [source]);
        sources := sources + [source];
        totalSize := totalSize + entries[i].size;
      }
    }
    assert entries[..|entries|] == entries;
  }

  // ---- one chunk ----------------------------------------------------------

  /** A chunk stops at the end of the sources, or when full at a non-empty file. */
  predicate Stops(room: nat, stack: seq<FileLocation>) {
    stack == [] || (room == 0 && stack[|stack| - 1].size > 0)
  }

  /** As much of the file on top as there is room for, and the stack after it. */
  function Take(room: nat, stack: seq<FileLocation>): (r: (FileLocation, seq<FileLocation>))
    requires !Stops(room, stack)
    ensures r.0.size <= room
    ensures |r.1| < |stack| || (|r.1| == |stack| && r.0.size > 0)
  {
    var n := |stack| - 1;
    var file := stack[n];
    if file.size <= room then (file, stack[..n])
    else
      (file.(size := room), CutTop(stack, room))
  }

  /** What one chunk takes from the stack of sources when `room` bytes are
      left in it, and the stack that remains. */
  function Fill(room: nat, stack: seq<FileLocation>): (r: (seq<FileLocation>, seq<FileLocation>))
    decreases |stack|, room
  {
    if Stops(room, stack) then ([], stack)
    else
      var (dest, rest) := Take(room, stack);
      var more := Fill(room - dest.size, rest);
      ([dest] + more.0, more.1)
  }

  /** From `stack`, `dests` was taken so far, `room` and `rest` are left. */
  ghost predicate FillsTo(size: nat, stack: seq<FileLocation>, dests: seq<FileLocation>, room: nat,
                          rest: seq<FileLocation>) {
    Fill(size, stack).0 == dests + Fill(room, rest).0 && Fill(size, stack).1 == Fill(room, rest).1
  }

  lemma FillStep(size: nat, start: seq<FileLocation>, dests: seq<FileLocation>, room: nat, stack: seq<FileLocation>)
    requires FillsTo(size, start, dests, room, stack) && !Stops(room, stack)
    ensures var (dest, rest) := Take(room, stack);
            FillsTo(size, start, dests + [dest], room - dest.size, rest)
  {
    var (dest, rest) := Take(room, stack);
    Associate(dests, [dest], Fill(room - dest.size, rest).0);
  }

  /** The same, as the loop computes it. */
  lemma TakeByLoop(room: nat, stack: seq<FileLocation>)
    requires !Stops(room, stack)
    ensures var n := |stack| - 1;
            var file := stack[n];
            var size := Min(file.size, room);
            var left := file.(pos := file.pos + size, size := file.size - size);
            Take(room, stack) == (FileLocation(file.path, file.pos, size),
              if left.size == 0 then stack[..n] else stack[..n] + [left])
  {
  }

  /** Chunk by chunk: the destinations of the slots `index..slots`, and the
      sources left over. A slot that gets nothing ends the plan. */
  function Plan(index: nat, slots: nat, size: nat, lastSize: nat, stack: seq<FileLocation>)
    : (r: (seq<seq<FileLocation>>, seq<FileLocation>))
    decreases slots - index
  {
    if index >= slots then ([], stack)
    else
      var one := Fill(if index < slots - 1 then size else lastSize, stack);
      if one.0 == [] then ([], one.1)
      else
        var more := Plan(index + 1, slots, size, lastSize, one.1);
        ([one.0] + more.0, more.1)
  }

  /** The next slot of a plan whose slots `index..slots` hold `chunks[index..]`. */
  lemma PlanNext(index: nat, slots: nat, size: nat, lastSize: nat, stack: seq<FileLocation>,
                 chunks: seq<seq<FileLocation>>)
    requires index < slots && index <= |chunks| && Plan(index, slots, size, lastSize, stack).0 == chunks[index..]
    ensures var one := Fill(if index < slots - 1 then size else lastSize, stack);
            var here := Plan(index, slots, size, lastSize, stack);
            if one.0 == [] then index == |chunks| && here.1 == one.1
            else
              && index < |chunks| && chunks[index] == one.0
              && Plan(index + 1, slots, size, lastSize, one.1) == (chunks[index + 1..], here.1)
  {
    var one := Fill(if index < slots - 1 then size else lastSize, stack);
    if one.0 != [] {
      var more := Plan(index + 1, slots, size, lastSize, one.1);
      assert chunks[index..] == [one.0] + more.0;
      assert chunks[index + 1..] == chunks[index..][1..];
    }
  }

  function PlanAll(slots: nat, stack: seq<FileLocation>): (r: (seq<seq<FileLocation>>, seq<FileLocation>))
    requires slots > 0
  {
    var total := SumSizes(stack);
    Plan(0, slots, total / slots, total / slots + total % slots, stack)
  }

  class SourcesList {
    var sources: seq<FileLocation>
    var totalSize: nat

    constructor (sources: seq<FileLocation>, totalSize: nat)
      ensures this.sources == sources && this.totalSize == totalSize
    {
      this.sources := sources;
      this.totalSize := totalSize;
    }

    /** Moves sources into the destinations of one chunk until it is full.
        A full chunk still takes the empty files on top of the stack. */
    method BuildDestinations(chunkSize: nat) returns (destinations: seq<FileLocation>)
      modifies this`sources
      ensures destinations == Fill(chunkSize, old(sources)).0
      ensures sources == Fill(chunkSize, old(sources)).1
    {
      destinations := [];
      var bytesInSlot := 0;
      while bytesInSlot <= chunkSize
        invariant bytesInSlot <= chunkSize
        invariant FillsTo(chunkSize, old(sources), destinations, chunkSize - bytesInSlot, sources)
        decreases |sources|, chunkSize - bytesInSlot
      {
        if |sources| == 0 {
          break;
        }
        var last := |sources| - 1;
        var file := sources[last];
        if bytesInSlot >= chunkSize && file.size > 0 {
          break;
        }
        var destSize := Min(file.size, chunkSize - bytesInSlot);
        FillStep(chunkSize, old(sources), destinations, chunkSize - bytesInSlot, sources);
        TakeByLoop(chunkSize - bytesInSlot, sources);
        destinations := destinations + [FileLocation(file.path, file.pos, destSize)];
        bytesInSlot := bytesInSlot + destSize;
        var left := file.(pos := file.pos + destSize, size := file.size - destSize);
        sources := if left.size == 0 then sources[..last] else sources[..last] + [left];
      }
    }

    /** The chunks of an upload, with no url, checksum or size yet. */
    method PrepareManifestBlueprint(totalSlots: nat) returns (chunks: seq<Chunk>)
      requires totalSlots > 0 && totalSize == SumSizes(sources)
      modifies this`sources
      ensures |chunks| == |PlanAll(totalSlots, old(sources)).0|
      ensures forall k :: 0 <= k < |chunks| ==>
                chunks[k] == Chunk(k, "", None, [], 0, PlanAll(totalSlots, old(sources)).0[k])
      ensures sources == PlanAll(totalSlots, old(sources)).1
    {
      var chunkSize := totalSize / totalSlots;
      var lastChunkSize := chunkSize + totalSize % totalSlots;
      ghost var plan := PlanAll(totalSlots, sources);
      chunks := [];
      var index := 0;
      while index < totalSlots
        invariant index == |chunks| <= |plan.0| && index <= totalSlots
        invariant forall k :: 0 <= k < |chunks| ==> chunks[k] == Chunk(k, "", None, [], 0, plan.0[k])
        invariant Plan(index, totalSlots, chunkSize, lastChunkSize, sources).0 == plan.0[index..]
        invariant Plan(index, totalSlots, chunkSize, lastChunkSize, sources).1 == plan.1
      {
        var size := if index < totalSlots - 1 then chunkSize else lastChunkSize;
        PlanNext(index, totalSlots, chunkSize, lastChunkSize, sources, plan.0);
        var destinations := BuildDestinations(size);
        if destinations == [] {
          break;
        }
        chunks := chunks + [Chunk(index, "", None, [], 0, destinations)];
        index := index + 1;
      }
    }
  }

  // ---- what a partition is ------------------------------------------------

  /** `ds` cuts exactly the files on `stack`: the same bytes in the same order,
      and a zero-size location for exactly the empty files. */
  ghost predicate IsPartition(ds: seq<FileLocation>, stack: seq<FileLocation>) {
    AllCells(ds) == StackCells(stack) && Empties(ds) == StackEmpties(stack)
  }

  lemma TakeConserves(room: nat, stack: seq<FileLocation>)
    requires !Stops(room, stack)
    ensures var (dest, rest) := Take(room, stack);
            && StackCells(stack) == Cells(dest) + StackCells(rest)
            && StackEmpties(stack) == (if dest.size == 0 then [dest.path] else []) + StackEmpties(rest)
  {
    var n := |stack| - 1;
    var (dest, rest) := Take(room, stack);
    if dest.size < stack[n].size {
      CutTopCells(stack, room);
      assert rest[..n] == stack[..n];
    }
  }

  lemma TakeAmount(room: nat, stack: seq<FileLocation>)
    requires !Stops(room, stack)
    ensures var (dest, rest) := Take(room, stack);
            SumSizes(stack) == dest.size + SumSizes(rest)
  {
    var n := |stack| - 1;
    var (dest, rest) := Take(room, stack);
    SumSizesTop(stack);
    if dest.size < stack[n].size {
      SumSizesTop(rest);
      assert rest[..n] == stack[..n];
    }
  }

  lemma {:induction false} FillConservesCells(room: nat, stack: seq<FileLocation>)
    ensures AllCells(Fill(room, stack).0) + StackCells(Fill(room, stack).1) == StackCells(stack)
    decreases |stack|, room
  {
    if !Stops(room, stack) {
      var (dest, rest) := Take(room, stack);
      var more := Fill(room - dest.size, rest);
      TakeConserves(room, stack);
      FillConservesCells(room - dest.size, rest);
      AllCellsCons(dest, more.0);
      Associate(Cells(dest), AllCells(more.0), StackCells(more.1));
    }
  }

  lemma {:induction false} FillConservesEmpties(room: nat, stack: seq<FileLocation>)
    ensures Empties(Fill(room, stack).0) + StackEmpties(Fill(room, stack).1) == StackEmpties(stack)
    decreases |stack|, room
  {
    if !Stops(room, stack) {
      var (dest, rest) := Take(room, stack);
      var more := Fill(room - dest.size, rest);
      TakeConserves(room, stack);
      FillConservesEmpties(room - dest.size, rest);
      EmptiesCons(dest, more.0);
      Associate(if dest.size == 0 then [dest.path] else [], Empties(more.0), StackEmpties(more.1));
    }
  }

  /** A chunk takes as many bytes as fit, stops only at a non-empty file, and
      is empty only when it has no room for the file on top. */
  lemma {:induction false} FillAmount(room: nat, stack: seq<FileLocation>)
    ensures var r := Fill(room, stack);
            && SumSizes(r.0) == Min(room, SumSizes(stack))
            && SumSizes(r.1) == SumSizes(stack) - SumSizes(r.0)
            && (r.1 != [] ==> r.1[|r.1| - 1].size > 0)
    ensures Fill(room, stack).0 == [] <==> Stops(room, stack)
    decreases |stack|, room
  {
    if Stops(room, stack) {
      if stack != [] {
        SumSizesTop(stack);
      }
    } else {
      var (dest, rest) := Take(room, stack);
      TakeAmount(room, stack);
      FillAmount(room - dest.size, rest);
    }
  }

  lemma {:induction false} PlanConserves(index: nat, slots: nat, size: nat, lastSize: nat, stack: seq<FileLocation>)
    ensures var r := Plan(index, slots, size, lastSize, stack);
            && AllCells(Flatten(r.0)) + StackCells(r.1) == StackCells(stack)
            && Empties(Flatten(r.0)) + StackEmpties(r.1) == StackEmpties(stack)
    decreases slots - index
  {
    if index < slots {
      var room := if index < slots - 1 then size else lastSize;
      var one := Fill(room, stack);
      FillConservesCells(room, stack);
      FillConservesEmpties(room, stack);
      if one.0 != [] {
        var more := Plan(index + 1, slots, size, lastSize, one.1);
        PlanConserves(index + 1, slots, size, lastSize, one.1);
        FlattenCons(one.0, more.0);
        AllCellsConcat(one.0, Flatten(more.0));
        Associate(AllCells(one.0), AllCells(Flatten(more.0)), StackCells(more.1));
        EmptiesConcat(one.0, Flatten(more.0));
        Associate(Empties(one.0), Empties(Flatten(more.0)), StackEmpties(more.1));
      }
    }
  }

  ghost predicate NoneEmpty(chunks: seq<seq<FileLocation>>) {
    forall k :: 0 <= k < |chunks| ==> chunks[k] != []
  }

  lemma {:induction false} PlannedChunksNotEmpty(index: nat, slots: nat, size: nat, lastSize: nat,
                                                 stack: seq<FileLocation>)
    ensures NoneEmpty(Plan(index, slots, size, lastSize, stack).0)
    decreases slots - index
  {
    if index < slots {
      var one := Fill(if index < slots - 1 then size else lastSize, stack);
      if one.0 == [] {
        assert Plan(index, slots, size, lastSize, stack).0 == [];
      } else {
        PlannedChunksNotEmpty(index + 1, slots, size, lastSize, one.1);
        var more := Plan(index + 1, slots, size, lastSize, one.1).0;
        assert Plan(index, slots, size, lastSize, stack).0 == [one.0] + more;
      }
    }
  }

  lemma OneSlotLess(slots: nat, size: nat)
    requires slots > 0
    ensures slots * size == size + (slots - 1) * size
    ensures (slots - 1) * size >= 0
  {
  }

  /** With a positive chunk size every slot but the last is filled exactly and
      the last one takes all the rest. */
  lemma {:induction false} PlanExhausts(index: nat, slots: nat, size: nat, extra: nat, stack: seq<FileLocation>,
                                        total: nat)
    requires index < slots && size > 0
    requires total == (slots - index) * size
    requires SumSizes(stack) == total + extra
    ensures Plan(index, slots, size, size + extra, stack).1 == []
    decreases slots - index
  {
    OneSlotLess(slots - index, size);
    if index < slots - 1 {
      FillAmount(size, stack);
      PlanExhausts(index + 1, slots, size, extra, Fill(size, stack).1, total - size);
    } else {
      LastSlotExhausts(size + extra, stack);
      assert Plan(index + 1, slots, size, size + extra, []).1 == [];
    }
  }

  lemma LastSlotExhausts(room: nat, stack: seq<FileLocation>)
    requires SumSizes(stack) <= room
    ensures Fill(room, stack).1 == []
  {
    FillAmount(room, stack);
    var rest := Fill(room, stack).1;
    if rest != [] {
      SumSizesTop(rest);
    }
  }

  /** The condition on the number of slots under which nothing is left over.
      The last disjunct is the one way two slots can share a single byte. */
  predicate SlotsFit(slots: nat, stack: seq<FileLocation>) {
    var total := SumSizes(stack);
    || total == 0
    || slots <= total
    || slots == 1
    || (slots == 2 && stack != [] && stack[|stack| - 1].size == 0)
  }

  lemma NothingLeft(slots: nat, stack: seq<FileLocation>)
    requires slots > 0 && SlotsFit(slots, stack)
    ensures PlanAll(slots, stack).1 == []
  {
    var total := SumSizes(stack);
    if slots == 1 {
      assert total / slots == total && total % slots == 0;
      LastSlotExhausts(total, stack);
    } else if total == 0 {
      assert total / slots == 0 && total % slots == 0;
      LastSlotExhausts(0, stack);
      assert Plan(1, slots, 0, 0, []).1 == [];
    } else if slots <= total {
      assert total == slots * (total / slots) + total % slots;
      assert total / slots > 0;
      PlanExhausts(0, slots, total / slots, total % slots, stack, slots * (total / slots));
    } else {
      FillAmount(0, stack);
      var rest := Fill(0, stack).1;
      LastSlotExhausts(1, rest);
      FillAmount(1, rest);
    }
  }

  lemma SomethingLeft(slots: nat, stack: seq<FileLocation>)
    requires slots > 0 && !SlotsFit(slots, stack)
    ensures SumSizes(PlanAll(slots, stack).1) > 0
  {
    var total := SumSizes(stack);
    MoreSlotsThanBytes(total, slots);
    FillAmount(0, stack);
    var one := Fill(0, stack);
    var plan := Plan(0, slots, 0, total, stack);
    if one.0 != [] {
      assert slots > 2;
      assert Plan(1, slots, 0, total, one.1).1 == one.1;
    }
    assert plan.1 == one.1;
  }

  lemma MoreSlotsThanBytes(total: nat, slots: nat)
    requires total < slots
    ensures total / slots == 0 && total % slots == total
  {
  }

  /** The manifest is a partition of the sources exactly when the slots fit. */
  lemma PartitionIffSlotsFit(slots: nat, stack: seq<FileLocation>)
    requires slots > 0
    ensures IsPartition(Flatten(PlanAll(slots, stack).0), stack) <==> SlotsFit(slots, stack)
    ensures SlotsFit(slots, stack) ==> PlanAll(slots, stack).1 == []
    ensures NoneEmpty(PlanAll(slots, stack).0)
  {
    var total := SumSizes(stack);
    var plan := PlanAll(slots, stack);
    PlanConserves(0, slots, total / slots, total / slots + total % slots, stack);
    PlannedChunksNotEmpty(0, slots, total / slots, total / slots + total % slots, stack);
    if SlotsFit(slots, stack) {
      NothingLeft(slots, stack);
    } else {
      SomethingLeft(slots, stack);
      StackCellCount(plan.1);
    }
  }

  /** The bytes of the `k`-th of `slots` chunks: the last one takes the remainder. */
  function SlotBytes(slots: nat, size: nat, extra: nat, k: nat): nat {
    if k + 1 < slots then size else size + extra
  }

  lemma {:induction false} PlanSizes(index: nat, slots: nat, size: nat, extra: nat, stack: seq<FileLocation>,
                                     total: nat)
    requires index < slots && total == (slots - index) * size && SumSizes(stack) == total + extra
    ensures var chunks := Plan(index, slots, size, size + extra, stack).0;
            && (size > 0 ==> |chunks| == slots - index)
            && |chunks| <= slots - index
            && forall k :: 0 <= k < |chunks| ==> SumSizes(chunks[k]) == SlotBytes(slots, size, extra, index + k)
    decreases slots - index
  {
    OneSlotLess(slots - index, size);
    var room := if index < slots - 1 then size else size + extra;
    FillAmount(room, stack);
    var one := Fill(room, stack);
    if one.0 == [] {
      assert Plan(index, slots, size, size + extra, stack).0 == [];
    } else if index < slots - 1 {
      PlanSizes(index + 1, slots, size, extra, one.1, total - size);
    } else {
      assert Plan(index + 1, slots, size, size + extra, one.1).0 == [];
    }
  }

  /** All chunks hold the same number of bytes but the last, which also takes what
      the division leaves; and there is one chunk for each slot if each slot gets
      a byte. */
  lemma ChunkSizes(slots: nat, stack: seq<FileLocation>)
    requires slots > 0
    ensures var chunks, total := PlanAll(slots, stack).0, SumSizes(stack);
            && |chunks| <= slots && (slots <= total ==> |chunks| == slots)
            && forall k :: 0 <= k < |chunks| ==>
                 SumSizes(chunks[k]) == total / slots + if k + 1 < slots then 0 else total % slots
  {
    var total := SumSizes(stack);
    DivideSlots(total, slots);
    PlanSizes(0, slots, total / slots, total % slots, stack, slots * (total / slots));
  }

  lemma DivideSlots(total: nat, slots: nat)
    requires slots > 0
    ensures slots * (total / slots) >= 0 && total == slots * (total / slots) + total % slots
    ensures slots <= total ==> total / slots > 0
  {
  }

  // ---- the partition, file by file ---------------------------------------

  ghost predicate WholeFiles(stack: seq<FileLocation>) {
    && (forall i :: 0 <= i < |stack| ==> stack[i].pos == 0)
    && (forall i, j :: 0 <= i < j < |stack| ==> stack[i].path != stack[j].path)
  }

  lemma {:induction false} StackCellsOfWholeFiles(stack: seq<FileLocation>)
    requires WholeFiles(stack)
    ensures forall c: Cell :: c in StackCells(stack) <==>
              exists i :: 0 <= i < |stack| && stack[i].path == c.0 && c.1 < stack[i].size
    ensures NoRepeats(StackCells(stack))
  {
    if stack != [] {
      var n := |stack| - 1;
      var front := stack[..n];
      StackCellsOfWholeFiles(front);
      var cells := StackCells(stack);
      assert cells == Cells(stack[n]) + StackCells(front);
      forall c: Cell
        ensures c in cells <==> exists i :: 0 <= i < |stack| && stack[i].path == c.0 && c.1 < stack[i].size
      {
        if c in StackCells(front) {
          var i :| 0 <= i < |front| && front[i].path == c.0 && c.1 < front[i].size;
          assert stack[i] == front[i];
        }
        if c.0 == stack[n].path && c.1 < stack[n].size {
          assert Cells(stack[n])[c.1] == c;
        }
        if i :| 0 <= i < n && stack[i].path == c.0 && c.1 < stack[i].size {
          assert front[i] == stack[i];
        }
      }
      forall i, j | 0 <= i < j < |cells|
        ensures cells[i] != cells[j]
      {
        var k := stack[n].size;
        if i < k <= j {
          assert cells[j] == StackCells(front)[j - k];
          assert cells[j] in StackCells(front);
        } else if k <= i {
          assert cells[i] == StackCells(front)[i - k] && cells[j] == StackCells(front)[j - k];
        }
      }
    }
  }

  /** Every byte of every file is in exactly one place of the manifest, and the
      manifest names no other byte. */
  lemma ManifestTilesEveryFile(slots: nat, stack: seq<FileLocation>)
    requires slots > 0 && SlotsFit(slots, stack) && WholeFiles(stack)
    ensures var cells := AllCells(Flatten(PlanAll(slots, stack).0));
            && NoRepeats(cells)
            && |cells| == SumSizes(stack)
            && forall c: Cell :: c in cells <==>
                 exists i :: 0 <= i < |stack| && stack[i].path == c.0 && c.1 < stack[i].size
  {
    PartitionIffSlotsFit(slots, stack);
    StackCellsOfWholeFiles(stack);
    StackCellCount(stack);
  }

  // ---- the automatic number of slots --------------------------------------

  const CHUNK_TARGET: nat := 500_000_000
  const U32: nat := 0x1_0000_0000

  /** `(1 + total_size / 500_000_000) as u32` */
  function AutomaticSlots(totalSize: nat): nat {
    (1 + totalSize / CHUNK_TARGET) % U32
  }

  /** The automatic number of slots fits unless its cast to 32 bits gives 0. */
  lemma AutomaticSlotsFit(stack: seq<FileLocation>)
    ensures var n := AutomaticSlots(SumSizes(stack));
            && (n > 0 ==> SlotsFit(n, stack))
            && (n == 0 <==> (SumSizes(stack) / CHUNK_TARGET) % U32 == U32 - 1)
  {
    var total := SumSizes(stack);
    var q := total / CHUNK_TARGET;
    assert (1 + q) % U32 <= 1 + q;
    assert q <= total;
    if q > 0 {
      assert 1 + q <= total by {
        assert total >= q * CHUNK_TARGET >= q * 2;
      }
    }
    assert (1 + q) % U32 == (1 + q % U32) % U32;
  }
}
