/** Reading one chunk for upload: file slices through an encoder and a digest
    (`DestinationsReader`, `consume_reader`). */
module ChunkReader {
  import opened Layout
  import opened Compression

  // ---- the bytes a list of locations denotes ------------------------------

  /** The file can be opened and, if any byte is wanted, is long enough. */
  predicate IsReadable(disk: Disk, d: FileLocation) {
    d.path in disk && (d.size == 0 || d.pos + d.size <= |disk[d.path]|)
  }

  predicate AllReadable(disk: Disk, ds: seq<FileLocation>) {
    forall i :: 0 <= i < |ds| ==> IsReadable(disk, ds[i])
  }

  function Slice(disk: Disk, d: FileLocation): (r: Bytes)
    requires IsReadable(disk, d)
    ensures |r| == d.size
  {
    if d.size == 0 then [] else disk[d.path][d.pos..d.pos + d.size]
  }

  function Slices(disk: Disk, ds: seq<FileLocation>): Bytes
    requires AllReadable(disk, ds)
  {
    if ds == [] then [] else Slice(disk, ds[0]) + Slices(disk, ds[1..])
  }

  function StackSlices(disk: Disk, stack: seq<FileLocation>): Bytes
    requires AllReadable(disk, stack)
  {
    if stack == [] then []
    else Slice(disk, stack[|stack| - 1]) + StackSlices(disk, stack[..|stack| - 1])
  }

  lemma {:induction false} SlicesOfReversed(disk: Disk, ds: seq<FileLocation>)
    requires AllReadable(disk, ds)
    ensures AllReadable(disk, Reversed(ds))
    ensures StackSlices(disk, Reversed(ds)) == Slices(disk, ds)
  {
    if ds != [] {
      SlicesOfReversed(disk, ds[1..]);
      var r := Reversed(ds);
      assert r[..|r| - 1] == Reversed(ds[1..]);
    }
  }

  lemma {:induction false} ReversedReadable(disk: Disk, ds: seq<FileLocation>)
    ensures AllReadable(disk, Reversed(ds)) <==> AllReadable(disk, ds)
  {
    if ds != [] {
      ReversedReadable(disk, ds[1..]);
      var r := Reversed(ds);
      assert r[..|r| - 1] == Reversed(ds[1..]) && r[|r| - 1] == ds[0];
      assert AllReadable(disk, ds) <==> IsReadable(disk, ds[0]) && AllReadable(disk, ds[1..]);
      assert AllReadable(disk, r) <==> AllReadable(disk, r[..|r| - 1]) && IsReadable(disk, ds[0]);
    }
  }

  /** The slices are the files' bytes at the cells of the locations. */
  lemma {:induction false} SlicesAreCells(disk: Disk, ds: seq<FileLocation>)
    requires AllReadable(disk, ds)
    ensures BytesAt(disk, AllCells(ds), Slices(disk, ds))
  {
    if ds != [] {
      SlicesAreCells(disk, ds[1..]);
      assert BytesAt(disk, Cells(ds[0]), Slice(disk, ds[0]));
      BytesAtConcat(disk, Cells(ds[0]), Slice(disk, ds[0]), AllCells(ds[1..]), Slices(disk, ds[1..]));
    }
  }

  // ---- the reader ---------------------------------------------------------

  /** What is left to read: the rest of the open file, then the stack. */
  function Rest(disk: Disk, current: FileLocation, stack: seq<FileLocation>): Bytes
    requires IsReadable(disk, current) && AllReadable(disk, stack)
  {
    Slice(disk, current) + StackSlices(disk, stack)
  }

  function Left(current: FileLocation, stack: seq<FileLocation>): nat {
    current.size + SumSizes(stack)
  }

  /** `all` is what was read so far followed by what is left. */
  ghost predicate Reads(disk: Disk, all: Bytes, data: Bytes, current: FileLocation, stack: seq<FileLocation>) {
    && IsReadable(disk, current) && AllReadable(disk, stack)
    && all == data + Rest(disk, current, stack)
  }

  lemma OpenNext(disk: Disk, all: Bytes, data: Bytes, current: FileLocation, stack: seq<FileLocation>)
    requires current.size == 0 && stack != [] && current.path in disk
    ensures AllReadable(disk, stack) <==>
              IsReadable(disk, stack[|stack| - 1]) && AllReadable(disk, stack[..|stack| - 1])
    ensures Left(current, stack) == Left(stack[|stack| - 1], stack[..|stack| - 1])
    ensures Reads(disk, all, data, current, stack) ==>
              Reads(disk, all, data, stack[|stack| - 1], stack[..|stack| - 1])
  {
    SumSizesTop(stack);
    if Reads(disk, all, data, current, stack) {
      assert Slice(disk, current) == [];
      assert Rest(disk, current, stack) == Rest(disk, stack[|stack| - 1], stack[..|stack| - 1]);
    }
  }

  lemma SliceSplits(disk: Disk, d: FileLocation, n: nat)
    requires n <= d.size && IsReadable(disk, d)
    ensures var left := d.(pos := d.pos + n, size := d.size - n);
            Slice(disk, d) == Slice(disk, d.(size := n)) + Slice(disk, left)
  {
  }

  lemma ReadPiece(disk: Disk, all: Bytes, data: Bytes, current: FileLocation, stack: seq<FileLocation>, n: nat)
    requires n <= current.size && IsReadable(disk, current.(size := n))
    ensures var left := current.(pos := current.pos + n, size := current.size - n);
            && (IsReadable(disk, left) <==> IsReadable(disk, current))
            && (Reads(disk, all, data, current, stack) ==>
                  Reads(disk, all, data + Slice(disk, current.(size := n)), left, stack))
  {
    if Reads(disk, all, data, current, stack) {
      SliceSplits(disk, current, n);
      var left := current.(pos := current.pos + n, size := current.size - n);
      var piece := Slice(disk, current.(size := n));
      Associate(piece, Slice(disk, left), StackSlices(disk, stack));
      Associate(data, piece, Rest(disk, left, stack));
    }
  }

  lemma ReadsOn(disk: Disk, all: Bytes, data: Bytes, buffer: Bytes,
                current: FileLocation, stack: seq<FileLocation>, rest: Bytes)
    requires all == data + rest && Reads(disk, rest, buffer, current, stack)
    ensures Reads(disk, all, data + buffer, current, stack)
    ensures current.size == 0 && stack == [] ==> data + buffer == all
  {
    assert data + (buffer + Rest(disk, current, stack)) == data + buffer + Rest(disk, current, stack);
  }

  datatype InterimBuffer<S> = InterimBuffer(digest: Bytes, encoder: S)
  datatype Next = Part(data: Bytes) | End | Failed

  /** Feeding one buffer in the middle of a chunk: what comes out, and the
      buffer afterwards. */
  function EncodeMore<S>(c: Coder<S>, b: InterimBuffer<S>, data: Bytes): Option<(InterimBuffer<S>, Bytes)> {
    match c.feed(b.encoder, data)
    case None => None
    case Some(s) =>
      match c.consume(s)
      case None => None
      case Some(out) => Some((InterimBuffer(b.digest + out.1, out.0), out.1))
  }

  function EncodeLast<S>(c: Coder<S>, b: InterimBuffer<S>, data: Bytes): Option<Bytes> {
    match c.feed(b.encoder, data)
    case None => None
    case Some(s) => c.finalize(s)
  }

  /** The encoder stands for `fed` bytes in and `emitted` bytes out, holds
      nothing that feeding would lose, and the digest has seen what came out. */
  ghost predicate Encoding<S(!new)>(p: Promise<S>, b: InterimBuffer<S>, fed: Bytes, emitted: Bytes) {
    p.rep(b.encoder, fed, emitted) && p.ready(b.encoder) && b.digest == emitted
  }

  lemma EncodeMoreKeeps<S(!new)>(c: Coder<S>, p: Promise<S>, b: InterimBuffer<S>, fed: Bytes, emitted: Bytes,
                          data: Bytes)
    requires Keeps(c, p) && Encoding(p, b, fed, emitted)
    ensures var r := EncodeMore(c, b, data);
            r.Some? ==> Encoding(p, r.value.0, fed + data, emitted + r.value.1)
  {
    if c.feed(b.encoder, data).Some? {
      var s := c.feed(b.encoder, data).value;
      assert p.rep(s, fed + data, emitted);
    }
  }

  lemma EncodeLastKeeps<S(!new)>(c: Coder<S>, p: Promise<S>, b: InterimBuffer<S>, fed: Bytes, emitted: Bytes,
                          data: Bytes)
    requires Keeps(c, p) && Encoding(p, b, fed, emitted)
    ensures var r := EncodeLast(c, b, data);
            r.Some? ==> emitted + r.value == p.code(fed + data)
  {
  }

  lemma EncodeFails<S(!new)>(c: Coder<S>, b: InterimBuffer<S>, data: Bytes)
    ensures EncodeMore(c, b, data).None? || EncodeLast(c, b, data).None? ==> MayFail(c)
  {
    if c.feed(b.encoder, data).Some? {
      assert FailsIn(c, c.feed(b.encoder, data).value) ==> MayFail(c);
    }
  }

  lemma {:induction false} ReversedSize(ds: seq<FileLocation>)
    ensures SumSizes(Reversed(ds)) == SumSizes(ds)
  {
    if ds != [] {
      ReversedSize(ds[1..]);
      SumSizesConcat(Reversed(ds[1..]), [ds[0]]);
      assert SumSizes([ds[0]]) == ds[0].size;
    }
  }

  class DestinationsReader<S(!new)> {
    const disk: Disk
    const maxBufferSize: nat
    const coder: Coder<S>
    const hash: Bytes -> Bytes
    ghost const promise: Promise<S>
    ghost const destinations: seq<FileLocation>
    var iter: seq<FileLocation>      // next destination last
    var current: FileLocation        // unread part of the open file
    var bytesRead: nat
    var interim: Option<InterimBuffer<S>>
    var published: Bytes             // the checksum the uploader will see
    ghost var fed: Bytes
    ghost var emitted: Bytes

    ghost predicate Readable()
      reads this
    {
      IsReadable(disk, current) && AllReadable(disk, iter)
    }

    ghost predicate Valid()
      reads this
    {
      && maxBufferSize > 0 && Keeps(coder, promise) && current.path in disk
      && (Readable() <==> AllReadable(disk, destinations))
      && (Readable() ==> Reads(disk, Slices(disk, destinations), fed, current, iter))
      && match interim
         case Some(b) => Encoding(promise, b, fed, emitted)
         case None => Readable() && Published()
    }

    /** The chunk was emitted whole and its checksum is the one published. */
    ghost predicate Published()
      reads this
    {
      && AllReadable(disk, destinations)
      && emitted == promise.code(Slices(disk, destinations))
      && published == hash(emitted)
    }

    /** Opens the first destination; the others follow in order. */
    constructor (disk: Disk, destinations: seq<FileLocation>, maxBufferSize: nat,
                 coder: Coder<S>, hash: Bytes -> Bytes, ghost promise: Promise<S>)
      requires destinations != [] && destinations[0].path in disk
      requires maxBufferSize > 0 && Keeps(coder, promise)
      ensures Valid() && interim.Some? && emitted == []
      ensures this.disk == disk && this.destinations == destinations
      ensures this.hash == hash && this.promise == promise && published == hash([])
      ensures this.coder == coder && Left(current, iter) == SumSizes(destinations)
    {
      ReversedSize(destinations);
      SumSizesTop(Reversed(destinations));
      var stack := Reversed(destinations);
      this.disk := disk;
      this.maxBufferSize := maxBufferSize;
      this.coder := coder;
      this.hash := hash;
      this.promise := promise;
      this.destinations := destinations;
      this.iter := stack[..|stack| - 1];
      this.current := stack[|stack| - 1];
      this.bytesRead := 0;
      this.interim := Some(InterimBuffer([], coder.init));
      this.published := hash([]);
      this.fed := [];
      this.emitted := [];
      ReversedReadable(disk, destinations);
      if AllReadable(disk, destinations) {
        SlicesOfReversed(disk, destinations);
      }
    }

    /** Fills one buffer from the destinations, crossing file boundaries. It is
        short only at the end of the chunk, and fails only on an unreadable one. */
    method ReadData() returns (buffer: Option<Bytes>)
      modifies this`iter, this`current
      requires current.path in disk
      ensures old(Readable()) ==> buffer.Some?
      ensures buffer.Some? ==> current.path in disk && (Readable() <==> old(Readable()))
      ensures buffer.Some? && old(Readable()) ==>
                Reads(disk, old(Rest(disk, current, iter)), buffer.value, current, iter)
      ensures buffer.Some? ==>
                && |buffer.value| <= maxBufferSize
                && Left(current, iter) + |buffer.value| == old(Left(current, iter))
                && (|buffer.value| < maxBufferSize ==> iter == [] && current.size == 0)
    {
      ghost var readable := Readable();
      ghost var all := if readable then Rest(disk, current, iter) else [];
      ghost var left := Left(current, iter);
      var data: Bytes := [];
      var file, stack := current, iter;
      while |data| < maxBufferSize
        invariant |data| <= maxBufferSize
        invariant Left(file, stack) + |data| == left
        invariant file.path in disk
        invariant readable <==> IsReadable(disk, file) && AllReadable(disk, stack)
        invariant readable ==> Reads(disk, all, data, file, stack)
        decreases |stack|, maxBufferSize - |data|
      {
        if file.size == 0 {
          if stack == [] {
            break;
          }
          OpenNext(disk, all, data, file, stack);
          file, stack := stack[|stack| - 1], stack[..|stack| - 1];
          if file.path !in disk {
            return None;
          }
        }
        var n := Min(file.size, maxBufferSize - |data|);
        if n > 0 && file.pos + n > |disk[file.path]| {
          return None;
        }
        ReadPiece(disk, all, data, file, stack, n);
        data := data + Slice(disk, file.(size := n));
        file := file.(pos := file.pos + n, size := file.size - n);
      }
      current, iter := file, stack;
      buffer := Some(data);
    }

    /** Reads one buffer and encodes it; the part may be empty. */
    method Advance() returns (next: Next)
      requires Valid() && interim.Some?
      modifies this
      ensures !next.End?
      ensures next.Failed? ==> !old(Readable()) || MayFail(coder)
      ensures next.Part? ==> Valid() && emitted == old(emitted) + next.data
      ensures next.Part? && interim.Some? ==> Left(current, iter) < old(Left(current, iter))
    {
      var read := ReadData();
      if read.None? {
        return Failed;
      }
      var buffer := read.value;
      ghost var before := fed;
      if Readable() {
        ReadsOn(disk, Slices(disk, destinations), fed, buffer, current, iter, old(Rest(disk, current, iter)));
      }
      bytesRead := bytesRead + |buffer|;
      fed := fed + buffer;
      var b := interim.value;
      if iter == [] && current.size == 0 {
        EncodeLastKeeps(coder, promise, b, before, emitted, buffer);
        var last := EncodeLast(coder, b, buffer);
        EncodeFails(coder, b, buffer);
        interim := None;
        if last.None? {
          return Failed;
        }
        emitted := emitted + last.value;
        published := hash(b.digest + last.value);
        next := Part(last.value);
      } else {
        EncodeMoreKeeps(coder, promise, b, before, emitted, buffer);
        var more := EncodeMore(coder, b, buffer);
        EncodeFails(coder, b, buffer);
        if more.None? {
          return Failed;
        }
        interim := Some(more.value.0);
        emitted := emitted + more.value.1;
        next := Part(more.value.1);
      }
    }

    /** One step of the iterator: the next encoded part, feeding the encoder
        until it yields something or the chunk ends. */
    method TryNext() returns (next: Next)
      requires Valid()
      modifies this
      ensures next.Failed? || Valid()
      ensures next.Failed? ==> !AllReadable(disk, destinations) || MayFail(coder)
      ensures next.End? <==> old(interim).None?
      ensures next.Part? ==> emitted == old(emitted) + next.data
      ensures next.End? ==> interim.None? && emitted == old(emitted)
      ensures next.Part? && interim.Some? ==> Left(current, iter) < old(Left(current, iter))
    {
      if interim.None? {
        return End;
      }
      while true
        invariant Valid() && interim.Some? && emitted == old(emitted)
        invariant Left(current, iter) <= old(Left(current, iter))
        decreases Left(current, iter)
      {
        next := Advance();
        if next.Failed? || interim.None? || next.data != [] {
          return;
        }
      }
    }

    /** Drains the iterator: the non-empty parts in order and their total size.
        `stopAfter` is the number of parts after which the run flag is down; a
        chunk has at most one part more than bytes. */
    method ConsumeReader(stopAfter: nat) returns (parts: Option<seq<Bytes>>, totalSize: nat)
      requires Valid() && interim.Some? && emitted == []
      modifies this
      ensures parts.Some? ==>
                && Published()
                && Flatten(parts.value) == emitted
                && totalSize == |emitted|
                && (forall k :: 0 <= k < |parts.value| ==> parts.value[k] != [])
      ensures parts.None? ==>
                !AllReadable(disk, destinations) || MayFail(coder) || stopAfter <= old(Left(current, iter)) + 1
    {
      ghost var left := Left(current, iter);
      var taken: seq<Bytes> := [];
      var seen := 0;
      totalSize := 0;
      while true
        invariant Valid() && Flatten(taken) == emitted && totalSize == |emitted|
        invariant forall k :: 0 <= k < |taken| ==> taken[k] != []
        invariant seen + (if interim.Some? then Left(current, iter) + 1 else 0) <= left + 1
        decreases interim.Some?, Left(current, iter)
      {
        var next := TryNext();
        if next.End? {
          return Some(taken), totalSize;
        }
        if seen >= stopAfter || next.Failed? {
          return None, totalSize;
        }
        seen := seen + 1;
        if next.data != [] {
          totalSize := totalSize + |next.data|;
          FlattenAppend(taken, next.data);
          taken := taken + [next.data];
        }
      }
    }
  }

  /** `DestinationsReader::new`: an empty chunk or a missing first file is an error. */
  method OpenReader<S(!new)>(disk: Disk, destinations: seq<FileLocation>, maxBufferSize: nat,
                             coder: Coder<S>, hash: Bytes -> Bytes, ghost promise: Promise<S>)
    returns (reader: Option<DestinationsReader<S>>)
    requires maxBufferSize > 0 && Keeps(coder, promise)
    ensures reader.None? <==> destinations == [] || destinations[0].path !in disk
    ensures reader.Some? ==>
              var r := reader.value;
              && fresh(r) && r.Valid() && r.interim.Some? && r.emitted == []
              && r.disk == disk && r.destinations == destinations
              && r.hash == hash && r.promise == promise && r.published == hash([])
              && r.coder == coder && Left(r.current, r.iter) == SumSizes(destinations)
  {
    if destinations == [] || destinations[0].path !in disk {
      return None;
    }
    var r := new DestinationsReader<S>(disk, destinations, maxBufferSize, coder, hash, promise);
    reader := Some(r);
  }
}
