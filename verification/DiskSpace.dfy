/** The disk space that a download still needs (`required_disk_space`). */
module DiskSpace {
  import opened Layout
  import opened Blueprint

  function ChunkBytes(chunks: seq<Chunk>): nat {
    if chunks == [] then 0 else SumSizes(chunks[0].destinations) + ChunkBytes(chunks[1..])
  }

  /** The manifest's total size less what is recorded; an error when that is
      more than the total. */
  function RequiredDiskSpace(totalSize: nat, downloaded: seq<Chunk>): Option<nat> {
    var bytes := ChunkBytes(downloaded);
    if totalSize >= bytes then Some(totalSize - bytes) else None
  }

  /** The chunks of the manifest whose index is not recorded. */
  function Missing(manifest: seq<Chunk>, downloaded: seq<Chunk>): seq<Chunk> {
    if manifest == [] then []
    else (if HasIndex(downloaded, manifest[0].index) then [] else [manifest[0]]) + Missing(manifest[1..], downloaded)
  }

  /** Every recorded chunk is a chunk of the manifest, with its destinations. */
  ghost predicate AllFrom(downloaded: seq<Chunk>, manifest: seq<Chunk>) {
    forall k :: 0 <= k < |downloaded| ==> IsFrom(downloaded[k], manifest)
  }

  predicate IsFrom(c: Chunk, manifest: seq<Chunk>) {
    exists i :: 0 <= i < |manifest| && c.index == manifest[i].index && c.destinations == manifest[i].destinations
  }

  function Without(chunks: seq<Chunk>, k: nat): (r: seq<Chunk>)
    requires k < |chunks|
    ensures |r| == |chunks| - 1
    ensures forall j :: 0 <= j < |r| ==> r[j] == chunks[if j < k then j else j + 1]
  {
    chunks[..k] + chunks[k + 1..]
  }

  lemma {:induction false} ChunkBytesWithout(downloaded: seq<Chunk>, k: nat)
    requires k < |downloaded|
    ensures ChunkBytes(downloaded) ==
            ChunkBytes(Without(downloaded, k)) + SumSizes(downloaded[k].destinations)
  {
    var rest := Without(downloaded, k);
    if k == 0 {
      assert rest == downloaded[1..];
    } else {
      var tail := downloaded[1..];
      ChunkBytesWithout(tail, k - 1);
      assert rest[1..] == Without(tail, k - 1);
    }
  }

  lemma {:induction false} MissingIgnores(manifest: seq<Chunk>, downloaded: seq<Chunk>, fewer: seq<Chunk>)
    requires forall i :: 0 <= i < |manifest| ==> HasIndex(downloaded, manifest[i].index) == HasIndex(fewer,
             manifest[i].index)
    ensures Missing(manifest, downloaded) == Missing(manifest, fewer)
  {
    if manifest != [] {
      MissingIgnores(manifest[1..], downloaded, fewer);
    }
  }

  lemma IsFromRest(c: Chunk, manifest: seq<Chunk>)
    requires manifest != [] && IsFrom(c, manifest) && c.index != manifest[0].index
    ensures IsFrom(c, manifest[1..])
  {
    var i :| 0 <= i < |manifest| && c.index == manifest[i].index && c.destinations == manifest[i].destinations;
    assert manifest[1..][i - 1] == manifest[i];
  }

  lemma WithoutFirst(manifest: seq<Chunk>, downloaded: seq<Chunk>, k: nat)
    requires manifest != [] && k < |downloaded| && downloaded[k].index == manifest[0].index
    requires DistinctIndexes(downloaded) && AllFrom(downloaded, manifest)
    ensures DistinctIndexes(Without(downloaded, k)) && AllFrom(Without(downloaded, k), manifest[1..])
  {
    var fewer := Without(downloaded, k);
    forall j | 0 <= j < |fewer|
      ensures IsFrom(fewer[j], manifest[1..])
    {
      assert IsFrom(downloaded[if j < k then j else j + 1], manifest);
      IsFromRest(fewer[j], manifest);
    }
  }

  lemma SameMissing(manifest: seq<Chunk>, downloaded: seq<Chunk>, k: nat)
    requires manifest != [] && k < |downloaded| && downloaded[k].index == manifest[0].index
    requires DistinctIndexes(manifest)
    ensures Missing(manifest[1..], downloaded) == Missing(manifest[1..], Without(downloaded, k))
  {
    var fewer := Without(downloaded, k);
    forall i | 0 <= i < |manifest[1..]|
      ensures HasIndex(downloaded, manifest[1..][i].index) == HasIndex(fewer, manifest[1..][i].index)
    {
      var m := manifest[1..][i];
      assert m == manifest[i + 1];
      if j :| 0 <= j < |downloaded| && downloaded[j].index == m.index {
        assert fewer[if j < k then j else j - 1] == downloaded[j];
      }
    }
    MissingIgnores(manifest[1..], downloaded, fewer);
  }

  lemma FirstsRecord(manifest: seq<Chunk>, c: Chunk)
    requires manifest != [] && DistinctIndexes(manifest) && IsFrom(c, manifest) && c.index == manifest[0].index
    ensures c.destinations == manifest[0].destinations
  {
  }

  lemma {:induction false} SplitsTotal(manifest: seq<Chunk>, downloaded: seq<Chunk>)
    requires DistinctIndexes(manifest) && DistinctIndexes(downloaded) && AllFrom(downloaded, manifest)
    ensures ChunkBytes(manifest) == ChunkBytes(downloaded) + ChunkBytes(Missing(manifest, downloaded))
    decreases |manifest|
  {
    if manifest == [] {
      forall c
        ensures !IsFrom(c, [])
      {
      }
    } else if HasIndex(downloaded, manifest[0].index) {
      var k :| 0 <= k < |downloaded| && downloaded[k].index == manifest[0].index;
      assert IsFrom(downloaded[k], manifest);
      FirstsRecord(manifest, downloaded[k]);
      ChunkBytesWithout(downloaded, k);
      WithoutFirst(manifest, downloaded, k);
      SameMissing(manifest, downloaded, k);
      SplitsTotal(manifest[1..], Without(downloaded, k));
      assert Missing(manifest, downloaded) == Missing(manifest[1..], downloaded);
    } else {
      forall j | 0 <= j < |downloaded|
        ensures IsFrom(downloaded[j], manifest[1..])
      {
        assert IsFrom(downloaded[j], manifest);
        IsFromRest(downloaded[j], manifest);
      }
      SplitsTotal(manifest[1..], downloaded);
      assert Missing(manifest, downloaded) == [manifest[0]] + Missing(manifest[1..], downloaded);
    }
  }

  /** For any recorded chunks of a manifest, none twice, the space required is
      exactly the bytes of the chunks not yet recorded, and never an error. */
  lemma RequiredIsExact(manifest: seq<Chunk>, totalSize: nat, downloaded: seq<Chunk>)
    requires DistinctIndexes(manifest) && DistinctIndexes(downloaded) && AllFrom(downloaded, manifest)
    requires totalSize == ChunkBytes(manifest)
    ensures RequiredDiskSpace(totalSize, downloaded) == Some(ChunkBytes(Missing(manifest, downloaded)))
  {
    SplitsTotal(manifest, downloaded);
  }

  /** The chunks of a plan hold the bytes of its destinations. */
  lemma {:induction false} ChunkBytesAreAllBytes(manifest: seq<Chunk>, plan: seq<seq<FileLocation>>)
    requires |manifest| == |plan| && forall k :: 0 <= k < |plan| ==> manifest[k].destinations == plan[k]
    ensures ChunkBytes(manifest) == SumSizes(Flatten(plan))
  {
    if plan != [] {
      SumSizesConcat(plan[0], Flatten(plan[1..]));
      ChunkBytesAreAllBytes(manifest[1..], plan[1..]);
    }
  }

  lemma PlanBytesFor(slots: nat, size: nat, lastSize: nat, stack: seq<FileLocation>)
    ensures var plan := Plan(0, slots, size, lastSize, stack);
            SumSizes(stack) == SumSizes(Flatten(plan.0)) + SumSizes(plan.1)
  {
    var plan := Plan(0, slots, size, lastSize, stack);
    PlanConserves(0, slots, size, lastSize, stack);
    CountBoth(Flatten(plan.0), plan.1, stack);
  }

  lemma PlanBytes(slots: nat, stack: seq<FileLocation>)
    requires slots > 0
    ensures var plan := PlanAll(slots, stack);
            SumSizes(stack) == SumSizes(Flatten(plan.0)) + SumSizes(plan.1)
  {
    var total := SumSizes(stack);
    PlanBytesFor(slots, total / slots, total / slots + total % slots, stack);
  }

  lemma CountBoth(ds: seq<FileLocation>, rest: seq<FileLocation>, stack: seq<FileLocation>)
    requires AllCells(ds) + StackCells(rest) == StackCells(stack)
    ensures SumSizes(stack) == SumSizes(ds) + SumSizes(rest)
  {
    CellCount(ds);
    StackCellCount(rest);
    StackCellCount(stack);
  }

  /** The published total is the sum over the chunks exactly when the slots fit;
      otherwise it is larger, and so is the space required. */
  lemma PublishedTotal(slots: nat, stack: seq<FileLocation>, manifest: seq<Chunk>)
    requires slots > 0
    requires var plan := PlanAll(slots, stack).0;
             |manifest| == |plan| && forall k :: 0 <= k < |plan| ==> manifest[k].destinations == plan[k]
    ensures ChunkBytes(manifest) <= SumSizes(stack)
    ensures ChunkBytes(manifest) == SumSizes(stack) <==> SlotsFit(slots, stack)
  {
    var plan := PlanAll(slots, stack);
    ChunkBytesAreAllBytes(manifest, plan.0);
    PlanBytes(slots, stack);
    if SlotsFit(slots, stack) {
      NothingLeft(slots, stack);
    } else {
      SomethingLeft(slots, stack);
    }
  }

  /** A chunk recorded twice is counted twice. */
  lemma RecordedTwice(m: Chunk)
    requires SumSizes(m.destinations) > 0
    ensures RequiredDiskSpace(ChunkBytes([m]), [m, m]).None?
  {
    assert [m, m][1..] == [m];
    assert ChunkBytes([m, m]) == SumSizes(m.destinations) + ChunkBytes([m]);
  }
}
