/** Uploading one chunk (`upload_chunk`): what is sent and what the chunk
    becomes in the manifest. */
module ChunkUpload {
  import opened Layout
  import opened Compression
  import opened ChunkReader

  /** The source files, the meaning of the encoder, and the digest. */
  datatype Upload = Upload(files: Disk, code: Bytes -> Bytes, hash: Bytes -> Bytes)

  /** The object stored for a chunk; a chunk without data stores nothing. */
  function Body(u: Upload, ds: seq<FileLocation>): Option<Bytes> {
    if SumSizes(ds) == 0 then Some([])
    else if AllReadable(u.files, ds) then Some(u.code(Slices(u.files, ds)))
    else None
  }

  /** `c` describes the uploaded object of the chunk with destinations `ds`. */
  ghost predicate IsUploaded(u: Upload, index: nat, ds: seq<FileLocation>, c: Chunk) {
    && Body(u, ds).Some?
    && var body := Body(u, ds).value;
       c == Chunk(index, c.key, None, u.hash(body), |body|, ds)
  }

  /** What an upload of `c` that succeeds turns it into; only a chunk with data
      needs a url. */
  function Published(u: Upload, c: Chunk): (r: Option<Chunk>)
    ensures r.Some? ==> IsUploaded(u, c.index, c.destinations, r.value)
    ensures r.None? <==> Body(u, c.destinations).None? || (SumSizes(c.destinations) > 0 && c.url.None?)
  {
    match Body(u, c.destinations)
    case None => None
    case Some(body) =>
      if SumSizes(c.destinations) > 0 && c.url.None? then None
      else Some(c.(size := |body|, checksum := u.hash(body), url := None))
  }

  datatype ChunkResult = Ok(chunk: Chunk) | MissingUrl | CannotUpload

  lemma SlicesCount(disk: Disk, ds: seq<FileLocation>)
    requires AllReadable(disk, ds)
    ensures |Slices(disk, ds)| == SumSizes(ds)
  {
    SlicesAreCells(disk, ds);
    CellCount(ds);
  }

  /** The body sent for a chunk: url, announced length, bytes. */
  type Request = (string, nat, Bytes)

  /** `put` is the outcome of the request that `sent` reports, if one was sent.
      Only a chunk with data needs a url; without compression the body is streamed
      under the length that the destinations announce. The upload fails only for
      one of the causes named. */
  method UploadChunk<S(!new)>(u: Upload, chunk: Chunk, compress: bool, maxBufferSize: nat, coder: Coder<S>,
                              put: Request -> bool, stopAfter: nat, ghost promise: Promise<S>)
    returns (result: ChunkResult, sent: Option<Request>)
    requires maxBufferSize > 0 && Keeps(coder, promise) && promise.code == u.code
    requires !compress ==> forall x: Bytes :: |u.code(x)| == |x|
    ensures result.Ok? ==> Published(u, chunk) == Some(result.chunk)
    ensures SumSizes(chunk.destinations) == 0 ==> result.Ok? && sent == None
    ensures sent.Some? ==>
              && chunk.url.Some? && Body(u, chunk.destinations).Some?
              && var body := Body(u, chunk.destinations).value;
                 sent.value == (chunk.url.value, |body|, body)
    ensures SumSizes(chunk.destinations) > 0 ==> (result.Ok? <==> sent.Some? && put(sent.value))
    ensures result.MissingUrl? ==> chunk.url.None? && sent == None
    ensures result.CannotUpload? && sent == None ==>
              !AllReadable(u.files, chunk.destinations) || MayFail(coder) ||
                stopAfter <= SumSizes(chunk.destinations) + 1
  {
    sent := None;
    var size := 0;
    for i := 0 to |chunk.destinations|
      invariant size == SumSizes(chunk.destinations[..i])
    {
      SumSizesTop(chunk.destinations[..i + 1]);
      assert chunk.destinations[..i + 1][..i] == chunk.destinations[..i];
      size := size + chunk.destinations[i].size;
    }
    assert chunk.destinations[..|chunk.destinations|] == chunk.destinations;
    var checksum := u.hash([]);
    if size > 0 {
      var reader := OpenReader(u.files, chunk.destinations, maxBufferSize, coder, u.hash, promise);
      if reader.None? {
        assert !IsReadable(u.files, chunk.destinations[0]);
        return CannotUpload, None;
      }
      if !compress && chunk.url.None? {
        return MissingUrl, None;
      }
      var parts, totalSize := reader.value.ConsumeReader(stopAfter);
      if parts.None? {
        return CannotUpload, None;
      }
      SlicesCount(u.files, chunk.destinations);
      if compress {
        size := totalSize;
      }
      if chunk.url.None? {
        return MissingUrl, None;
      }
      sent := Some((chunk.url.value, size, Flatten(parts.value)));
      if !put(sent.value) {
        return CannotUpload, sent;
      }
      checksum := reader.value.published;
    }
    result := Ok(chunk.(size := size, checksum := checksum, url := None));
  }

  /** Uncompressed, nothing can fail but the files, the server and the run flag. */
  method UploadPlain(u: Upload, chunk: Chunk, maxBufferSize: nat, put: Request -> bool, stopAfter: nat)
    returns (result: ChunkResult, sent: Option<Request>)
    requires maxBufferSize > 0 && u.code == Identity().code
    requires AllReadable(u.files, chunk.destinations) && chunk.url.Some? && stopAfter > SumSizes(chunk.destinations) + 1
    ensures result.Ok? <==> SumSizes(chunk.destinations) == 0 || (sent.Some? && put(sent.value))
    ensures SumSizes(chunk.destinations) > 0 ==>
              sent == Some((chunk.url.value, SumSizes(chunk.destinations), Slices(u.files, chunk.destinations)))
  {
    NoCoderKeeps();
    SlicesCount(u.files, chunk.destinations);
    result, sent := UploadChunk(u, chunk, false, maxBufferSize, NO_CODER, put, stopAfter, Identity());
  }
}
