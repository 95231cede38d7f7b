/** The encoder/decoder protocol of the transfer jobs: feed, consume, finalize. */
module Compression {
  import opened Layout

  /** A coder as its three operations over a state `S`; `None` is an error. */
  datatype Coder<!S> = Coder(
    init: S,
    feed: (S, Bytes) -> Option<S>,
    consume: S -> Option<(S, Bytes)>,
    finalize: S -> Option<Bytes>)

  /** What a coder promises. `rep(s, fed, emitted)` relates a state to the bytes
      it was fed and the bytes taken out of it so far; `ready(s)` says that it
      may be fed; `code` is the whole-input meaning. */
  datatype Promise<!S> = Promise(
    rep: (S, Bytes, Bytes) -> bool,
    ready: S -> bool,
    code: Bytes -> Bytes)

  ghost predicate Keeps<S(!new)>(c: Coder<S>, p: Promise<S>) {
    && p.rep(c.init, [], []) && p.ready(c.init)
    && (forall s: S, fed: Bytes, emitted: Bytes, x: Bytes {:trigger p.rep(s, fed, emitted), c.feed(s, x)} ::
          p.rep(s, fed, emitted) && p.ready(s) && c.feed(s, x).Some? ==>
            p.rep(c.feed(s, x).value, fed + x, emitted))
    && (forall s: S, fed: Bytes, emitted: Bytes {:trigger p.rep(s, fed, emitted), c.consume(s)} ::
          p.rep(s, fed, emitted) && c.consume(s).Some? ==>
            && p.rep(c.consume(s).value.0, fed, emitted + c.consume(s).value.1)
            && p.ready(c.consume(s).value.0))
    && (forall s: S, fed: Bytes, emitted: Bytes {:trigger p.rep(s, fed, emitted), c.finalize(s)} ::
          p.rep(s, fed, emitted) && c.finalize(s).Some? ==>
            emitted + c.finalize(s).value == p.code(fed))
  }

  /** Some operation of the coder may report an error. */
  ghost predicate MayFail<S(!new)>(c: Coder<S>) {
    (exists s: S, x: Bytes :: c.feed(s, x).None?) || (exists s: S :: FailsIn(c, s))
  }

  predicate FailsIn<S>(c: Coder<S>, s: S) {
    c.consume(s).None? || c.finalize(s).None?
  }

  // ---- no compression -----------------------------------------------------

  /** The buffer of a `NoCoder`: feeding it replaces what it holds. */
  const NO_CODER: Coder<Option<Bytes>> := Coder(
    None,
    (s: Option<Bytes>, x: Bytes) => Some(Some(x)),
    (s: Option<Bytes>) => Some((None, GetOrEmpty(s))),
    (s: Option<Bytes>) => Some(GetOrEmpty(s)))

  function GetOrEmpty(s: Option<Bytes>): Bytes {
    match s case None => [] case Some(x) => x
  }

  ghost function Identity(): Promise<Option<Bytes>> {
    Promise(
      (s: Option<Bytes>, fed: Bytes, emitted: Bytes) => fed == emitted + GetOrEmpty(s),
      (s: Option<Bytes>) => GetOrEmpty(s) == [],
      (x: Bytes) => x)
  }

  /** A `NoCoder` passes its input through, provided it is only fed when empty. */
  lemma NoCoderKeeps()
    ensures Keeps(NO_CODER, Identity())
  {
    var p := Identity();
    forall s: Option<Bytes>, fed: Bytes, emitted: Bytes, x: Bytes
      | p.rep(s, fed, emitted) && p.ready(s)
      ensures p.rep(NO_CODER.feed(s, x).value, fed + x, emitted)
    {
      assert fed == emitted;
    }
    forall s: Option<Bytes>, fed: Bytes, emitted: Bytes | p.rep(s, fed, emitted)
      ensures p.rep(NO_CODER.consume(s).value.0, fed, emitted + NO_CODER.consume(s).value.1)
    {
      assert emitted + GetOrEmpty(s) + [] == fed;
    }
  }

  /** Without that discipline it loses data: `ready` cannot be dropped. */
  lemma FeedingOverDataLosesIt(s: Bytes, x: Bytes)
    ensures var twice := NO_CODER.feed(NO_CODER.feed(None, s).value, x).value;
            NO_CODER.finalize(twice).value == s + x <==> s == []
  {
    if s != [] {
      assert |s + x| > |x|;
    } else {
      assert s + x == x;
    }
  }

  class NoCoder {
    var data: Option<Bytes>

    constructor ()
      ensures data == NO_CODER.init
    {
      data := None;
    }

    method Feed(x: Bytes)
      modifies this
      ensures Some(data) == NO_CODER.feed(old(data), x)
    {
      data := Some(x);
    }

    method Consume() returns (out: Bytes)
      modifies this
      ensures Some((data, out)) == NO_CODER.consume(old(data))
    {
      out := GetOrEmpty(data);
      data := None;
    }

    method Finalize() returns (out: Bytes)
      ensures Some(out) == NO_CODER.finalize(data)
    {
      out := GetOrEmpty(data);
    }
  }
}
