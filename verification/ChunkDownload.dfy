/** Downloading one chunk: bounded ranges in, file parts out
    (`DestinationsIter`, `send_to_writer`, `download_chunk`). */
module ChunkDownload {
  import opened Layout
  import opened Compression

  // ---- what a worker sends to the writer ----------------------------------

  datatype ChunkData = FilePart(path: Path, pos: nat, data: Bytes) | EndOfChunk(index: nat)

  type Write = (Cell, byte)

  function PartWrites(m: ChunkData): (r: seq<Write>)
    ensures m.FilePart? ==> |r| == |m.data|
  {
    match m
    case FilePart(path, pos, data) => seq(|data|, i requires 0 <= i < |data| => ((path, pos + i), data[i]))
    case EndOfChunk(_) => []
  }

  function Writes(ms: seq<ChunkData>): seq<Write> {
    if ms == [] then [] else PartWrites(ms[0]) + Writes(ms[1..])
  }

  function Touched(ms: seq<ChunkData>): set<Path> {
    set m | m in ms && m.FilePart? :: m.path
  }

  function Paths(ds: seq<FileLocation>): set<Path> {
    set d | d in ds :: d.path
  }

  function Zip(cells: seq<Cell>, data: Bytes): (r: seq<Write>)
    requires |data| <= |cells|
    ensures |r| == |data|
  {
    seq(|data|, i requires 0 <= i < |data| => (cells[i], data[i]))
  }

  predicate PartsOnly(ms: seq<ChunkData>) {
    forall i :: 0 <= i < |ms| ==> ms[i].FilePart?
  }

  lemma {:induction false} WritesConcat(a: seq<ChunkData>, b: seq<ChunkData>)
    ensures Writes(a + b) == Writes(a) + Writes(b)
  {
    if a == [] {
      assert a + b == b;
    } else {
      assert (a + b)[1..] == a[1..] + b;
      WritesConcat(a[1..], b);
    }
  }

  ghost predicate IsAt(all: seq<Write>, w: nat, part: seq<Write>) {
    w + |part| <= |all| && all[w..w + |part|] == part
  }

  lemma MiddleIsAt(a: seq<Write>, b: seq<Write>, c: seq<Write>)
    ensures IsAt(a + b + c, |a|, b)
  {
  }

  /** The writes of message `h` follow those of the messages before it. */
  lemma {:induction false} WritesAt(ms: seq<ChunkData>, h: nat)
    requires h < |ms|
    ensures |Writes(ms[..h + 1])| == |Writes(ms[..h])| + |PartWrites(ms[h])|
    ensures IsAt(Writes(ms), |Writes(ms[..h])|, PartWrites(ms[h]))
  {
    assert ms[..h + 1] == ms[..h] + [ms[h]];
    WritesConcat(ms[..h], [ms[h]]);
    assert Writes([ms[h]]) == PartWrites(ms[h]);
    assert ms == ms[..h + 1] + ms[h + 1..];
    WritesConcat(ms[..h + 1], ms[h + 1..]);
    MiddleIsAt(Writes(ms[..h]), PartWrites(ms[h]), Writes(ms[h + 1..]));
  }

  lemma ZipConcat(cells: seq<Cell>, a: Bytes, b: Bytes)
    requires |a + b| <= |cells|
    ensures Zip(cells, a + b) == Zip(cells, a) + Zip(cells[|a|..], b)
  {
  }

  // ---- splitting one buffer over the destinations -------------------------

  /** The next location to write `bytes` bytes to, and the stack after it. */
  function NextLocation(stack: seq<FileLocation>, bytes: nat): Option<(FileLocation, seq<FileLocation>)> {
    if stack == [] then None
    else
      var n := |stack| - 1;
      var top := stack[n];
      if top.size <= bytes then Some((top, stack[..n]))
      else if bytes > 0 then
        Some((top.(size := bytes), CutTop(stack, bytes)))
      else None
  }

  datatype Pieces = Pieces(parts: seq<ChunkData>, stack: seq<FileLocation>, excess: Bytes)

  /** The parts one buffer is sent as, the destinations left, the bytes that
      have nowhere to go. */
  function Split(stack: seq<FileLocation>, buffer: Bytes): Pieces
    decreases |stack|, |buffer|
  {
    match NextLocation(stack, |buffer|)
    case None => Pieces([], stack, buffer)
    case Some((d, rest)) =>
      var more := Split(rest, buffer[d.size..]);
      more.(parts := [FilePart(d.path, d.pos, buffer[..d.size])] + more.parts)
  }

  class DestinationsIter {
    var stack: seq<FileLocation>

    constructor (destinations: seq<FileLocation>)
      ensures stack == Reversed(destinations)
    {
      stack := Reversed(destinations);
    }

    method Next(bytes: nat) returns (next: Option<FileLocation>)
      modifies this
      ensures match NextLocation(old(stack), bytes)
              case None => next == None && stack == old(stack)
              case Some((d, rest)) => next == Some(d) && stack == rest
    {
      if |stack| > 0 {
        var n := |stack| - 1;
        var current := stack[n];
        if current.size <= bytes {
          stack := stack[..n];
          return Some(current);
        } else if bytes > 0 {
          stack := stack[..n] + [current.(pos := current.pos + bytes, size := current.size - bytes)];
          return Some(current.(size := bytes));
        }
      }
      next := None;
    }
  }

  /** No destination is waiting with nothing to write to it. */
  predicate Flushed(stack: seq<FileLocation>) {
    stack != [] ==> stack[|stack| - 1].size > 0
  }

  lemma NextTakesTheFirstCells(stack: seq<FileLocation>, bytes: nat)
    requires NextLocation(stack, bytes).Some?
    ensures var (d, rest) := NextLocation(stack, bytes).value;
            && d.size <= bytes
            && StackCells(stack) == Cells(d) + StackCells(rest)
  {
    var n := |stack| - 1;
    var (d, rest) := NextLocation(stack, bytes).value;
    if d.size < stack[n].size {
      CutTopCells(stack, bytes);
    }
  }

  lemma PathsTop(stack: seq<FileLocation>)
    requires stack != []
    ensures Paths(stack) == Paths(stack[..|stack| - 1]) + {stack[|stack| - 1].path}
  {
    var n := |stack| - 1;
    assert stack == stack[..n] + [stack[n]];
    assert forall d :: d in stack <==> d in stack[..n] || d == stack[n];
  }

  lemma NextTakesAPath(stack: seq<FileLocation>, bytes: nat)
    requires NextLocation(stack, bytes).Some?
    ensures var (d, rest) := NextLocation(stack, bytes).value;
            Paths(stack) == {d.path} + Paths(rest)
  {
    var n := |stack| - 1;
    var (d, rest) := NextLocation(stack, bytes).value;
    PathsTop(stack);
    if d.size < stack[n].size {
      PathsTop(rest);
      assert rest[..n] == stack[..n];
    }
  }

  lemma FirstPiece(cells: seq<Cell>, d: FileLocation, more: seq<Cell>, buffer: Bytes, k: nat)
    requires cells == Cells(d) + more && d.size <= k <= |buffer| && k <= |cells|
    ensures Zip(cells, buffer[..k]) ==
            PartWrites(FilePart(d.path, d.pos, buffer[..d.size])) + Zip(more, buffer[d.size..][..k - d.size])
  {
    assert buffer[..k] == buffer[..d.size] + buffer[d.size..][..k - d.size];
    assert cells[d.size..] == more;
    ZipConcat(cells, buffer[..d.size], buffer[d.size..][..k - d.size]);
    forall i | 0 <= i < d.size
      ensures cells[i] == (d.path, d.pos + i)
    {
      assert cells[i] == Cells(d)[i];
    }
    assert PartWrites(FilePart(d.path, d.pos, buffer[..d.size])) == Zip(cells, buffer[..d.size]);
  }

  lemma DropMore<T>(a: seq<T>, b: seq<T>, k: nat)
    requires |a| <= k <= |a + b|
    ensures (a + b)[k..] == b[k - |a|..]
  {
  }

  lemma WritesCons(m: ChunkData, ms: seq<ChunkData>)
    ensures Writes([m] + ms) == PartWrites(m) + Writes(ms)
  {
    assert ([m] + ms)[1..] == ms;
  }

  lemma {:induction false} SplitConsumes(stack: seq<FileLocation>, buffer: Bytes)
    ensures var r := Split(stack, buffer);
            var k := Min(|buffer|, |StackCells(stack)|);
            && PartsOnly(r.parts)
            && StackCells(r.stack) == StackCells(stack)[k..]
            && r.excess == buffer[k..]
    decreases |stack|, |buffer|
  {
    match NextLocation(stack, |buffer|)
    case Some((d, rest)) =>
      var k := Min(|buffer|, |StackCells(stack)|);
      NextTakesTheFirstCells(stack, |buffer|);
      var tail := buffer[d.size..];
      SplitConsumes(rest, tail);
      DropMore(Cells(d), StackCells(rest), k);
      DropMore(buffer[..d.size], tail, k);
      assert buffer == buffer[..d.size] + tail;
    case None =>
      assert buffer == [] || stack == [];
  }

  /** A buffer is written to the next cells in order, byte for byte. */
  lemma {:induction false} SplitWrites(stack: seq<FileLocation>, buffer: Bytes)
    ensures var k := Min(|buffer|, |StackCells(stack)|);
            Writes(Split(stack, buffer).parts) == Zip(StackCells(stack), buffer[..k])
    decreases |stack|, |buffer|
  {
    match NextLocation(stack, |buffer|)
    case Some((d, rest)) =>
      NextTakesTheFirstCells(stack, |buffer|);
      var tail := buffer[d.size..];
      SplitWrites(rest, tail);
      FirstPiece(StackCells(stack), d, StackCells(rest), buffer, Min(|buffer|, |StackCells(stack)|));
      WritesCons(FilePart(d.path, d.pos, buffer[..d.size]), Split(rest, tail).parts);
    case None =>
      assert buffer == [] || stack == [];
  }

  /** Every destination is opened, those of size 0 as soon as they are reached. */
  lemma {:induction false} SplitTouches(stack: seq<FileLocation>, buffer: Bytes)
    ensures var r := Split(stack, buffer);
            && Flushed(r.stack)
            && Touched(r.parts) + Paths(r.stack) == Paths(stack)
    decreases |stack|, |buffer|
  {
    match NextLocation(stack, |buffer|)
    case Some((d, rest)) =>
      NextTakesAPath(stack, |buffer|);
      var more := Split(rest, buffer[d.size..]);
      SplitTouches(rest, buffer[d.size..]);
      TouchedCons(FilePart(d.path, d.pos, buffer[..d.size]), more.parts);
    case None =>
  }

  lemma TouchedCons(m: ChunkData, ms: seq<ChunkData>)
    ensures Touched([m] + ms) == (if m.FilePart? then {m.path} else {}) + Touched(ms)
  {
    assert forall x :: x in [m] + ms <==> x == m || x in ms;
  }

  lemma TouchedConcat(a: seq<ChunkData>, b: seq<ChunkData>)
    ensures Touched(a + b) == Touched(a) + Touched(b)
  {
    assert forall x :: x in a + b <==> x in a || x in b;
  }

  // ---- any cut of the stream into buffers ---------------------------------

  /** After `data`, `ms` has been sent and `stack` is what still expects bytes. */
  ghost predicate Sent(ds: seq<FileLocation>, ms: seq<ChunkData>, data: Bytes, stack: seq<FileLocation>) {
    && |data| <= |AllCells(ds)|
    && PartsOnly(ms)
    && Writes(ms) == Zip(AllCells(ds), data)
    && StackCells(stack) == AllCells(ds)[|data|..]
    && Touched(ms) + Paths(stack) == Paths(ds)
  }

  lemma {:induction false} PathsReversed(ds: seq<FileLocation>)
    ensures Paths(Reversed(ds)) == Paths(ds)
  {
    if ds != [] {
      var r := Reversed(ds);
      PathsReversed(ds[1..]);
      PathsTop(r);
      assert r[..|r| - 1] == Reversed(ds[1..]);
      assert ds == [ds[0]] + ds[1..];
      assert forall d :: d in ds <==> d == ds[0] || d in ds[1..];
    }
  }

  lemma NothingSent(ds: seq<FileLocation>)
    ensures Sent(ds, [], [], Reversed(ds))
  {
    StackOfReversed(ds);
    PathsReversed(ds);
    assert Zip(AllCells(ds), []) == [];
  }

  lemma SendMoreWrites(cells: seq<Cell>, ms: seq<ChunkData>, data: Bytes, stack: seq<FileLocation>, buffer: Bytes,
                       k: nat)
    requires |data| <= |cells| && Writes(ms) == Zip(cells, data) && StackCells(stack) == cells[|data|..]
    requires k == Min(|buffer|, |StackCells(stack)|)
    ensures Writes(ms + Split(stack, buffer).parts) == Zip(cells, data + buffer[..k])
  {
    SplitWrites(stack, buffer);
    WritesConcat(ms, Split(stack, buffer).parts);
    ZipConcat(cells, data, buffer[..k]);
  }

  lemma SendMoreTouches(ds: seq<FileLocation>, ms: seq<ChunkData>, stack: seq<FileLocation>, buffer: Bytes)
    requires Touched(ms) + Paths(stack) == Paths(ds)
    ensures Touched(ms + Split(stack, buffer).parts) + Paths(Split(stack, buffer).stack) == Paths(ds)
    ensures Flushed(Split(stack, buffer).stack)
  {
    SplitTouches(stack, buffer);
    TouchedConcat(ms, Split(stack, buffer).parts);
  }

  /** Sending one more buffer: it fits exactly when the bytes so far do. */
  lemma SendMore(ds: seq<FileLocation>, ms: seq<ChunkData>, data: Bytes, stack: seq<FileLocation>, buffer: Bytes)
    requires Sent(ds, ms, data, stack)
    ensures var r := Split(stack, buffer);
            && |r.excess| <= |buffer|
            && Sent(ds, ms + r.parts, data + buffer[..|buffer| - |r.excess|], r.stack)
            && Flushed(r.stack)
            && (r.excess == [] <==> |data| + |buffer| <= |AllCells(ds)|)
  {
    var k := Min(|buffer|, |StackCells(stack)|);
    SendMoreCells(AllCells(ds), |data|, stack, buffer, k);
    SendMoreWrites(AllCells(ds), ms, data, stack, buffer, k);
    SendMoreTouches(ds, ms, stack, buffer);
  }

  lemma SendMoreCells(cells: seq<Cell>, n: nat, stack: seq<FileLocation>, buffer: Bytes, k: nat)
    requires n <= |cells| && StackCells(stack) == cells[n..] && k == Min(|buffer|, |StackCells(stack)|)
    ensures var r := Split(stack, buffer);
            && PartsOnly(r.parts) && StackCells(r.stack) == cells[n + k..] && |r.excess| == |buffer| - k
            && (r.excess == [] <==> n + |buffer| <= |cells|)
  {
    SplitConsumes(stack, buffer);
    DropTwice(cells, n, k);
  }

  lemma DropTwice<T>(s: seq<T>, a: nat, b: nat)
    requires a + b <= |s|
    ensures s[a..][b..] == s[a + b..]
  {
  }

  /** A flushed worker that has sent all bytes has opened every destination. */
  lemma AllSent(ds: seq<FileLocation>, ms: seq<ChunkData>, data: Bytes, stack: seq<FileLocation>)
    requires Sent(ds, ms, data, stack) && Flushed(stack) && |data| == |AllCells(ds)|
    ensures stack == [] && Touched(ms) == Paths(ds)
  {
    StackCellCount(stack);
    if stack != [] {
      SumSizesTop(stack);
    }
  }

  datatype Outcome = Outcome(sent: seq<ChunkData>, stack: seq<FileLocation>, ok: bool)

  /** Buffers sent one after the other, up to the first that does not fit. */
  function SendAll(stack: seq<FileLocation>, buffers: seq<Bytes>): Outcome
    decreases |buffers|
  {
    if buffers == [] then Outcome([], stack, true)
    else
      var r := Split(stack, buffers[0]);
      if r.excess != [] then Outcome(r.parts, r.stack, false)
      else
        var more := SendAll(r.stack, buffers[1..]);
        more.(sent := r.parts + more.sent)
  }

  lemma {:induction false} SendAllFrom(ds: seq<FileLocation>, ms: seq<ChunkData>, data: Bytes,
                                       stack: seq<FileLocation>, buffers: seq<Bytes>)
    requires Sent(ds, ms, data, stack)
    ensures var r := SendAll(stack, buffers);
            && (r.ok <==> |data| + |Flatten(buffers)| <= |AllCells(ds)|)
            && (r.ok ==> Sent(ds, ms + r.sent, data + Flatten(buffers), r.stack))
    decreases |buffers|
  {
    if buffers == [] {
      assert ms + [] == ms && data + [] == data;
    } else {
      var r := Split(stack, buffers[0]);
      SendMore(ds, ms, data, stack, buffers[0]);
      if r.excess == [] {
        assert buffers[0][..|buffers[0]|] == buffers[0];
        SendAllFrom(ds, ms + r.parts, data + buffers[0], r.stack, buffers[1..]);
        Associate(ms, r.parts, SendAll(r.stack, buffers[1..]).sent);
        Associate(data, buffers[0], Flatten(buffers[1..]));
      }
    }
  }

  /** Where the stream is cut does not matter: any two cuts of the same bytes
      succeed together, exactly when the bytes do not exceed the destinations,
      and then write the same bytes to the same cells in the same order. */
  lemma CutsDoNotMatter(ds: seq<FileLocation>, cut: seq<Bytes>, other: seq<Bytes>)
    requires Flatten(cut) == Flatten(other)
    ensures var a, b := SendAll(Reversed(ds), cut), SendAll(Reversed(ds), other);
            && (a.ok <==> |Flatten(cut)| <= |AllCells(ds)|)
            && (b.ok <==> a.ok)
            && (a.ok ==> Writes(a.sent) == Writes(b.sent) == Zip(AllCells(ds), Flatten(cut)))
  {
    NothingSent(ds);
    SendAllFrom(ds, [], [], Reversed(ds), cut);
    SendAllFrom(ds, [], [], Reversed(ds), other);
    var a, b := SendAll(Reversed(ds), cut), SendAll(Reversed(ds), other);
    assert [] + a.sent == a.sent && [] + b.sent == b.sent && [] + Flatten(cut) == Flatten(cut);
  }

  // ---- one chunk ----------------------------------------------------------

  /** Inclusive byte ranges (section 14.1.2 of RFC 9110) that cut `[0, n)` in order. */
  predicate RangesTile(ranges: seq<(nat, nat)>, n: nat) {
    if ranges == [] then n == 0
    else
      var (first, last) := ranges[|ranges| - 1];
      first <= last && last + 1 == n && RangesTile(ranges[..|ranges| - 1], first)
  }

  predicate InRange(range: (nat, nat), b: nat) {
    range.0 <= b <= range.1
  }

  /** Ranges that tile an object ask for each of its bytes once, and for no other. */
  lemma {:induction false} TiledOnce(ranges: seq<(nat, nat)>, n: nat, b: nat)
    requires RangesTile(ranges, n)
    ensures b < n <==> exists i :: 0 <= i < |ranges| && InRange(ranges[i], b)
    ensures forall i, j :: 0 <= i < j < |ranges| && InRange(ranges[i], b) ==> !InRange(ranges[j], b)
  {
    if ranges != [] {
      var k := |ranges| - 1;
      var front := ranges[..k];
      TiledOnce(front, ranges[k].0, b);
      assert forall i :: 0 <= i < k ==> front[i] == ranges[i];
      if b < ranges[k].0 {
        var i :| 0 <= i < k && InRange(front[i], b);
        assert InRange(ranges[i], b);
      } else if b < n {
        assert InRange(ranges[k], b);
      }
    }
  }

  /** Successful replies carry the bytes of `stored` that were asked for. */
  ghost predicate Serves(serve: (nat, nat) -> Option<seq<Bytes>>, stored: Bytes) {
    forall a: nat, b: nat :: a <= b < |stored| && serve(a, b).Some? ==>
      Flatten(serve(a, b).value) == stored[a..b + 1]
  }

  lemma {:induction false} FlattenTake<T>(ss: seq<seq<T>>, i: nat)
    requires i < |ss|
    ensures Flatten(ss[..i + 1]) == Flatten(ss[..i]) + ss[i]
    ensures |Flatten(ss[..i + 1])| <= |Flatten(ss)|
  {
    assert ss[..i + 1] == ss[..i] + [ss[i]];
    FlattenAppend(ss[..i], ss[i]);
    assert ss == ss[..i + 1] + ss[i + 1..];
    FlattenConcat(ss[..i + 1], ss[i + 1..]);
  }

  /** `ms` writes `data` to the first cells of `ds` and opens no other file. */
  ghost predicate Delivered(ds: seq<FileLocation>, ms: seq<ChunkData>, data: Bytes) {
    && |data| <= |AllCells(ds)|
    && PartsOnly(ms)
    && Writes(ms) == Zip(AllCells(ds), data)
    && Touched(ms) <= Paths(ds)
  }

  lemma ServedMore(serve: (nat, nat) -> Option<seq<Bytes>>, stored: Bytes, raw: Bytes, size: nat, n: nat)
    requires 0 < n && |raw| + n <= size
    ensures Serves(serve, stored) && |stored| == size && raw == stored[..|raw|]
            && serve(|raw|, |raw| + n - 1).Some? ==>
              raw + Flatten(serve(|raw|, |raw| + n - 1).value) == stored[..|raw| + n]
  {
  }

  lemma DecodeKeeps<S(!new)>(c: Coder<S>, p: Promise<S>, s: S, fed: Bytes, emitted: Bytes, x: Bytes)
    requires Keeps(c, p) && p.rep(s, fed, emitted) && p.ready(s)
    ensures c.feed(s, x).Some? && c.consume(c.feed(s, x).value).Some? ==>
              var (t, out) := c.consume(c.feed(s, x).value).value;
              p.rep(t, fed + x, emitted + out) && p.ready(t)
  {
    if c.feed(s, x).Some? {
      assert p.rep(c.feed(s, x).value, fed + x, emitted);
    }
  }

  datatype Verdict = Done | Corrupted | Interrupted | BadPart | DecoderError | TooLong | ChecksumMismatch

  class ChunkDownloader<S(!new)> {
    const chunk: Chunk
    const coder: Coder<S>
    const hash: Bytes -> Bytes
    const maxBufferSize: nat
    const serve: (nat, nat) -> Option<seq<Bytes>>   // one range request, all its frames
    var sent: seq<ChunkData>
    var ranges: seq<(nat, nat)>

    constructor (chunk: Chunk, coder: Coder<S>, hash: Bytes -> Bytes, maxBufferSize: nat,
                 serve: (nat, nat) -> Option<seq<Bytes>>)
      ensures this.chunk == chunk && this.coder == coder && this.hash == hash
      ensures this.maxBufferSize == maxBufferSize && this.serve == serve
      ensures sent == [] && ranges == []
    {
      this.chunk := chunk;
      this.coder := coder;
      this.hash := hash;
      this.maxBufferSize := maxBufferSize;
      this.serve := serve;
      sent, ranges := [], [];
    }

    /** Requests one bounded range; anything but exactly the bytes asked for is an error. */
    method DownloadPart(pos: nat) returns (part: Option<Bytes>)
      requires pos < chunk.size && maxBufferSize > 0
      modifies this`ranges
      ensures var n := Min(chunk.size - pos, maxBufferSize);
              var reply := serve(pos, pos + n - 1);
              && ranges == old(ranges) + [(pos, pos + n - 1)]
              && part == if chunk.url.Some? && reply.Some? && |Flatten(reply.value)| == n
                         then Some(Flatten(reply.value)) else None
    {
      var bufferSize := Min(chunk.size - pos, maxBufferSize);
      ranges := ranges + [(pos, pos + bufferSize - 1)];
      if chunk.url.None? {
        return None;
      }
      var reply := serve(pos, pos + bufferSize - 1);
      if reply.None? {
        return None;
      }
      var frames := reply.value;
      var buffer: Bytes := [];
      for i := 0 to |frames|
        invariant buffer == Flatten(frames[..i]) && |buffer| <= bufferSize
        invariant ranges == old(ranges) + [(pos, pos + bufferSize - 1)]
      {
        FlattenTake(frames, i);
        if |frames[i]| + |buffer| > bufferSize {
          return None;
        }
        buffer := buffer + frames[i];
      }
      assert frames[..|frames|] == frames;
      if |buffer| != bufferSize {
        return None;
      }
      part := Some(buffer);
    }

    /** Maps one buffer to file parts and sends them. */
    method SendToWriter(buffer: Bytes, destination: DestinationsIter) returns (ok: bool)
      modifies this`sent, destination
      ensures var r := Split(old(destination.stack), buffer);
              && sent == old(sent) + r.parts
              && destination.stack == r.stack
              && (ok <==> r.excess == [])
    {
      var rest := buffer;
      var next := destination.Next(|rest|);
      ghost var whole := Split(old(destination.stack), buffer);
      assert next.None? ==> whole == Pieces([], destination.stack, rest);
      while next.Some?
        invariant match next
                  case None =>
                    sent == old(sent) + whole.parts && destination.stack == whole.stack && rest == whole.excess
                  case Some(d) =>
                    && d.size <= |rest|
                    && var more := Split(destination.stack, rest[d.size..]);
                       && old(sent) + whole.parts == sent + [FilePart(d.path, d.pos, rest[..d.size])] + more.parts
                       && whole.stack == more.stack && whole.excess == more.excess
        decreases next.Some?, |rest| - (if next.Some? then next.value.size else 0), |destination.stack|
      {
        var d := next.value;
        sent := sent + [FilePart(d.path, d.pos, rest[..d.size])];
        rest := rest[d.size..];
        next := destination.Next(|rest|);
      }
      ok := rest == [];
    }

    /** Sends one decoded buffer; fails when the destinations are full. */
    method Deliver(buffer: Bytes, destination: DestinationsIter, ghost data: Bytes)
      returns (excess: bool, ghost sentData: Bytes)
      requires Sent(chunk.destinations, sent, data, destination.stack)
      modifies this`sent, destination
      ensures Sent(chunk.destinations, sent, sentData, destination.stack)
      ensures !excess ==> sentData == data + buffer && Flushed(destination.stack)
      ensures excess <==> |data + buffer| > |AllCells(chunk.destinations)|
      ensures excess ==> |sentData| == |AllCells(chunk.destinations)|
    {
      SendMore(chunk.destinations, sent, data, destination.stack, buffer);
      ghost var r := Split(destination.stack, buffer);
      SplitConsumes(destination.stack, buffer);
      var ok := SendToWriter(buffer, destination);
      sentData := data + buffer[..|buffer| - |r.excess|];
      excess := !ok;
      assert ok ==> buffer[..|buffer|] == buffer;
    }

    /** Between two rounds: `raw` was fetched in order, `data` decoded from it
        and sent, and the decoder holds nothing that feeding would lose. */
    ghost predicate Fetching(promise: Promise<S>, stored: Bytes, decoder: S, raw: Bytes, data: Bytes,
                             stack: seq<FileLocation>)
      reads this
    {
      && |raw| <= chunk.size && RangesTile(ranges, |raw|)
      && Faithful(stored, raw)
      && Sent(chunk.destinations, sent, data, stack)
      && promise.rep(decoder, raw, data) && promise.ready(decoder)
    }

    ghost predicate Faithful(stored: Bytes, raw: Bytes) {
      && |raw| <= chunk.size
      && (Serves(serve, stored) && |stored| == chunk.size ==> raw == stored[..|raw|])
    }

    /** The range after the first `pos` bytes is not answered with exactly the
        bytes asked for. */
    predicate RefusesAt(pos: nat) {
      pos < chunk.size && (chunk.url.None? || !AnsweredExactly(pos, pos + Min(chunk.size - pos, maxBufferSize) - 1))
    }

    predicate AnsweredExactly(a: nat, b: int) {
      a <= b && serve(a, b).Some? && |Flatten(serve(a, b).value)| == b - a + 1
    }

    /** The decoder that stands for `raw` in and `data` out fails on `part`. */
    ghost predicate FailsOn(promise: Promise<S>, raw: Bytes, data: Bytes, part: Bytes) {
      exists s: S :: promise.rep(s, raw, data) && promise.ready(s) && Rejects(s, part)
    }

    predicate Rejects(s: S, x: Bytes) {
      coder.feed(s, x).None? || coder.consume(coder.feed(s, x).value).None?
    }

    /** Or it fails at the end. */
    ghost predicate FailsAtEnd(promise: Promise<S>, raw: Bytes, data: Bytes) {
      exists s: S :: promise.rep(s, raw, data) && promise.ready(s) && coder.finalize(s).None?
    }

    /** The bytes fetched decode to more than the destinations hold. */
    ghost predicate Overflows(promise: Promise<S>, raw: Bytes) {
      || |promise.code(raw)| > |AllCells(chunk.destinations)|
      || exists s: S, decoded: Bytes ::
           promise.rep(s, raw, decoded) && |decoded| > |AllCells(chunk.destinations)|
    }

    /** One round: fetch a range, decode it, send it. */
    method Round(decoder: S, pos: nat, destination: DestinationsIter,
                 ghost promise: Promise<S>, ghost stored: Bytes, ghost raw0: Bytes, ghost data0: Bytes)
      returns (verdict: Verdict, decoder': S, part: Bytes, ghost data: Bytes)
      requires maxBufferSize > 0 && Keeps(coder, promise) && pos == |raw0| < chunk.size
      requires Fetching(promise, stored, decoder, raw0, data0, destination.stack)
      modifies this`sent, this`ranges, destination
      ensures Faithful(stored, raw0 + part)
      ensures Sent(chunk.destinations, sent, data, destination.stack)
      ensures verdict in {Done, BadPart, DecoderError, TooLong}
      ensures verdict.Done? ==>
                && |part| > 0 && Flushed(destination.stack)
                && Fetching(promise, stored, decoder', raw0 + part, data, destination.stack)
      ensures verdict.TooLong? ==>
                Overflows(promise, raw0 + part) && |data| == |AllCells(chunk.destinations)|
      ensures verdict.BadPart? ==> RefusesAt(pos) && part == [] && data == data0
      ensures verdict.DecoderError? ==> FailsOn(promise, raw0, data0, part) && data == data0
      ensures |ranges| == old(|ranges|) + 1
    {
      data, decoder', part := data0, decoder, [];
      assert raw0 + part == raw0;
      ghost var before := ranges;
      var fetched := DownloadPart(pos);
      if fetched.None? {
        return BadPart, decoder', part, data;
      }
      part := fetched.value;
      assert ranges[..|ranges| - 1] == before;
      assert RangesTile(ranges, pos + |part|);
      ServedMore(serve, stored, raw0, chunk.size, |part|);
      DecodeKeeps(coder, promise, decoder, raw0, data0, part);
      var fed := coder.feed(decoder, part);
      if fed.None? {
        assert Rejects(decoder, part);
        return DecoderError, decoder', part, data;
      }
      var out := coder.consume(fed.value);
      if out.None? {
        assert Rejects(decoder, part);
        return DecoderError, decoder', part, data;
      }
      decoder' := out.value.0;
      var excess;
      excess, data := Deliver(out.value.1, destination, data0);
      verdict := if excess then TooLong else Done;
    }

    /** Fetches the chunk range by range, decodes it and sends it, the end
        marker only once its checksum is right. `raw` is what was fetched and
        `data` what was decoded and sent. */
    method DownloadChunk(interrupted: nat -> bool, ghost promise: Promise<S>, ghost stored: Bytes)
      returns (verdict: Verdict, ghost raw: Bytes, ghost data: Bytes)
      requires maxBufferSize > 0 && Keeps(coder, promise)
      requires sent == [] && ranges == []
      modifies this
      ensures Faithful(stored, raw)
      ensures verdict.Done? ==>
                && |raw| == chunk.size && RangesTile(ranges, |raw|)
                && hash(raw) == chunk.checksum && data == promise.code(raw)
                && |sent| > 0 && sent[|sent| - 1] == EndOfChunk(chunk.index)
                && Delivered(chunk.destinations, sent[..|sent| - 1], data)
                && (|data| == |AllCells(chunk.destinations)| ==>
                      Touched(sent[..|sent| - 1]) == Paths(chunk.destinations))
      ensures !verdict.Done? ==> Delivered(chunk.destinations, sent, data)
      ensures verdict.ChecksumMismatch? ==> |raw| == chunk.size && hash(raw) != chunk.checksum
      ensures verdict.TooLong? ==> Overflows(promise, raw) && |data| == |AllCells(chunk.destinations)|
      ensures verdict.BadPart? ==> RefusesAt(|raw|)
      ensures verdict.DecoderError? ==>
                || (|raw| == chunk.size && FailsAtEnd(promise, raw, data))
                || exists n: nat :: n <= |raw| && FailsOn(promise, raw[..n], data, raw[n..])
      ensures verdict.Interrupted? ==> interrupted(|ranges|)
      ensures verdict.Corrupted? <==> chunk.destinations == []
    {
      raw, data := [], [];
      NothingSent(chunk.destinations);
      if chunk.destinations == [] {
        return Corrupted, raw, data;
      }
      var destination := new DestinationsIter(chunk.destinations);
      var decoder := coder.init;
      var digest: Bytes := [];
      var pos, round := 0, 0;
      while pos < chunk.size
        invariant pos == |raw| && digest == raw && round == |ranges|
        invariant Fetching(promise, stored, decoder, raw, data, destination.stack)
        decreases chunk.size - pos
      {
        if interrupted(round) {
          return Interrupted, raw, data;
        }
        round := round + 1;
        var part;
        verdict, decoder, part, data := Round(decoder, pos, destination, promise, stored, raw, data);
        ghost var before := raw;
        raw := raw + part;
        assert raw[..|before|] == before && raw[|before|..] == part;
        if !verdict.Done? {
          return verdict, raw, data;
        }
        pos := pos + |part|;
        digest := digest + part;
      }
      verdict, data := FinishChunk(decoder, destination, digest, promise, stored, data);
    }

    /** After the last range: the digest, what the decoder still holds, and
        only then the end marker. */
    method FinishChunk(decoder: S, destination: DestinationsIter, raw: Bytes,
                       ghost promise: Promise<S>, ghost stored: Bytes, ghost data0: Bytes)
      returns (verdict: Verdict, ghost data: Bytes)
      requires Keeps(coder, promise) && |raw| == chunk.size
      requires Fetching(promise, stored, decoder, raw, data0, destination.stack)
      modifies this`sent, destination
      ensures verdict in {Done, DecoderError, TooLong, ChecksumMismatch}
      ensures verdict.Done? ==>
                && hash(raw) == chunk.checksum && data == promise.code(raw)
                && |sent| > 0 && sent[|sent| - 1] == EndOfChunk(chunk.index)
                && Delivered(chunk.destinations, sent[..|sent| - 1], data)
                && (|data| == |AllCells(chunk.destinations)| ==>
                      Touched(sent[..|sent| - 1]) == Paths(chunk.destinations))
      ensures !verdict.Done? ==> Delivered(chunk.destinations, sent, data)
      ensures verdict.ChecksumMismatch? ==> hash(raw) != chunk.checksum
      ensures verdict.TooLong? ==> Overflows(promise, raw) && |data| == |AllCells(chunk.destinations)|
      ensures verdict.DecoderError? ==> FailsAtEnd(promise, raw, data)
    {
      data := data0;
      if hash(raw) != chunk.checksum {
        return ChecksumMismatch, data;
      }
      var last := coder.finalize(decoder);
      if last.None? {
        return DecoderError, data;
      }
      var excess;
      excess, data := Deliver(last.value, destination, data);
      if excess {
        return TooLong, data;
      }
      if |data| == |AllCells(chunk.destinations)| {
        AllSent(chunk.destinations, sent, data, destination.stack);
      }
      ghost var parts := sent;
      sent := sent + [EndOfChunk(chunk.index)];
      assert sent[..|sent| - 1] == parts;
      verdict := Done;
    }
  }
}
