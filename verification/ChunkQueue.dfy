/** Which chunk is downloaded next: `launch_more` of the two chunk downloaders. */
module ChunkQueue {
  import opened Layout

  /** Indexes still to be launched, chunks fetched but not launched (the last is
      next), and every index launched in this run, in order. */
  datatype Queue = Queue(remaining: set<nat>, buffered: seq<nat>, launched: seq<nat>)

  /** `ClientChunkDownloaders`: launches whatever the server sent. */
  function LaunchAny(q: Queue, room: nat): Queue
    decreases |q.buffered|
  {
    if room == 0 || q.buffered == [] then q
    else
      var n := |q.buffered| - 1;
      var index := q.buffered[n];
      LaunchAny(Queue(q.remaining - {index}, q.buffered[..n], q.launched + [index]), room - 1)
  }

  /** `ParallelChunkDownloaders`: skips what is not remaining. */
  function LaunchRemaining(q: Queue, room: nat): Queue
    decreases |q.buffered|
  {
    if room == 0 || q.buffered == [] then q
    else
      var n := |q.buffered| - 1;
      var index := q.buffered[n];
      if index in q.remaining
      then LaunchRemaining(Queue(q.remaining - {index}, q.buffered[..n], q.launched + [index]), room - 1)
      else LaunchRemaining(q.(buffered := q.buffered[..n]), room)
  }

  /** A request names `count` different indexes that remain. */
  ghost predicate IsRequest(request: seq<nat>, remaining: set<nat>, count: nat) {
    && NoRepeats(request) && Elements(request) <= remaining
    && |request| == Min(count, |remaining|)
  }

  /** The server answers with exactly the requested chunks, in any order. */
  ghost predicate IsExactReply(reply: seq<nat>, request: seq<nat>) {
    NoRepeats(reply) && Elements(reply) == Elements(request)
  }

  /** An answer without repeats that names only remaining chunks: some of those
      requested, all of them, or none. */
  ghost predicate IsUsableReply(reply: seq<nat>, remaining: set<nat>) {
    NoRepeats(reply) && Elements(reply) <= remaining
  }

  /** Exact answers are usable, and not empty while anything remains. */
  lemma ExactIsUsable(reply: seq<nat>, request: seq<nat>, remaining: set<nat>, count: nat)
    requires IsRequest(request, remaining, count) && IsExactReply(reply, request)
    ensures IsUsableReply(reply, remaining)
    ensures reply == [] <==> count == 0 || remaining == {}
  {
    NoneNamed(request);
    NoneNamed(reply);
  }

  lemma NoneNamed(s: seq<nat>)
    ensures Elements(s) == {} <==> s == []
  {
    if s != [] {
      assert s[0] in Elements(s);
    }
  }

  datatype Source = Client | Parallel

  class ChunkDownloaders {
    const source: Source
    const maxRunners: nat
    var chunkIndexes: set<nat>
    var chunks: seq<nat>
    var futures: nat
    ghost var launched: seq<nat>

    ghost function State(): Queue
      reads this
    {
      Queue(chunkIndexes, chunks, launched)
    }

    constructor (source: Source, maxRunners: nat, totalChunks: nat, downloaded: set<nat>)
      ensures this.source == source && this.maxRunners == maxRunners
      ensures State() == Queue(Indexes(totalChunks) - downloaded, [], [])
      ensures futures == 0
    {
      this.source := source;
      this.maxRunners := maxRunners;
      chunkIndexes := Indexes(totalChunks) - downloaded;
      chunks, futures, launched := [], 0, [];
    }

    /** The first indexes of the set, in the arbitrary order of the set. */
    method Request() returns (request: seq<nat>)
      ensures IsRequest(request, chunkIndexes, maxRunners)
    {
      request := [];
      var left := chunkIndexes;
      while |request| < maxRunners && left != {}
        invariant left <= chunkIndexes && |request| + |left| == |chunkIndexes| && |request| <= maxRunners
        invariant NoRepeats(request) && Elements(request) == chunkIndexes - left
        decreases left
      {
        var i :| i in left;
        ElementsAppend(request, i);
        left := left - {i};
        request := request + [i];
      }
    }

    method LaunchMore(fetch: seq<nat> -> Option<seq<nat>>) returns (ok: bool, request: seq<nat>)
      requires futures <= maxRunners
      modifies this
      ensures futures <= maxRunners
      ensures old(chunkIndexes) != {} && old(chunks) == [] ==>
                IsRequest(request, old(chunkIndexes), maxRunners) && (ok <==> fetch(request).Some?)
      ensures old(chunkIndexes) == {} || old(chunks) != [] ==> ok
      ensures !ok || old(chunkIndexes) == {} ==> State() == old(State()) && futures == old(futures)
      ensures ok && old(chunkIndexes) != {} ==>
                && State() == Launch(source, Refilled(old(State()), fetch, request), maxRunners - old(futures))
                && futures == old(futures) + |launched| - |old(launched)|
    {
      ok, request := true, [];
      if chunkIndexes == {} {
        return;
      }
      if chunks == [] {
        request := Request();
        var reply := fetch(request);
        if reply.None? {
          return false, request;
        }
        chunks := reply.value;
      }
      ghost var start := State();
      while futures < maxRunners && |chunks| > 0
        invariant old(futures) <= futures <= maxRunners
        invariant |launched| - |old(launched)| == futures - old(futures)
        invariant Launch(source, State(), maxRunners - futures) == Launch(source, start, maxRunners - old(futures))
        decreases |chunks|
      {
        var n := |chunks| - 1;
        var index := chunks[n];
        chunks := chunks[..n];
        if source == Parallel && index !in chunkIndexes {
          continue;
        }
        chunkIndexes := chunkIndexes - {index};
        futures := futures + 1;
        launched := launched + [index];
      }
    }
  }

  function Launch(source: Source, q: Queue, room: nat): Queue {
    match source
    case Client => LaunchAny(q, room)
    case Parallel => LaunchRemaining(q, room)
  }

  function Refilled(q: Queue, fetch: seq<nat> -> Option<seq<nat>>, request: seq<nat>): Queue {
    if q.buffered == [] && fetch(request).Some? then q.(buffered := fetch(request).value) else q
  }

  // ---- conservation -------------------------------------------------------

  /** Launched and remaining indexes, with those downloaded in earlier runs,
      make up `0..total`, each exactly once. */
  ghost predicate Conserved(q: Queue, total: nat, downloaded: set<nat>) {
    && NoRepeats(q.launched)
    && Elements(q.launched) !! q.remaining && Elements(q.launched) !! downloaded && q.remaining !! downloaded
    && Elements(q.launched) + q.remaining + downloaded == Indexes(total)
  }

  ghost predicate BufferRemains(q: Queue) {
    NoRepeats(q.buffered) && Elements(q.buffered) <= q.remaining
  }

  lemma OneLaunch(q: Queue, index: nat, total: nat, downloaded: set<nat>)
    requires Conserved(q, total, downloaded) && index in q.remaining
    ensures Conserved(Queue(q.remaining - {index}, [], q.launched + [index]), total, downloaded)
  {
    ElementsAppend(q.launched, index);
    assert index !in q.launched;
  }

  /** The parallel downloader launches no index twice whatever the server
      answers; launches fill the room unless the buffer runs out. */
  lemma {:induction false} RemainingConserves(q: Queue, room: nat, total: nat, downloaded: set<nat>)
    requires Conserved(q, total, downloaded)
    ensures var r := LaunchRemaining(q, room);
            && Conserved(r, total, downloaded)
            && q.launched <= r.launched && |r.launched| <= |q.launched| + room
            && (|r.launched| < |q.launched| + room ==> r.buffered == [])
            && (room > 0 ==> (r.launched == q.launched <==> Elements(q.buffered) !! q.remaining))
    decreases |q.buffered|
  {
    if room > 0 && q.buffered != [] {
      var n := |q.buffered| - 1;
      var index := q.buffered[n];
      assert Elements(q.buffered) == Elements(q.buffered[..n]) + {index} by {
        assert q.buffered == q.buffered[..n] + [index];
      }
      if index in q.remaining {
        OneLaunch(q, index, total, downloaded);
        RemainingConserves(Queue(q.remaining - {index}, q.buffered[..n], q.launched + [index]), room - 1, total,
          downloaded);
      } else {
        RemainingConserves(q.(buffered := q.buffered[..n]), room, total, downloaded);
      }
    }
  }

  /** The client downloader does so when every reply is exact. */
  lemma {:induction false} AnyConserves(q: Queue, room: nat, total: nat, downloaded: set<nat>)
    requires Conserved(q, total, downloaded) && BufferRemains(q)
    ensures var r := LaunchAny(q, room);
            && Conserved(r, total, downloaded) && BufferRemains(r)
            && q.launched <= r.launched && |r.launched| <= |q.launched| + room
            && (|r.launched| < |q.launched| + room ==> r.buffered == [])
    decreases |q.buffered|
  {
    if room > 0 && q.buffered != [] {
      var n := |q.buffered| - 1;
      var index := q.buffered[n];
      assert q.buffered == q.buffered[..n] + [index];
      assert index in Elements(q.buffered);
      assert index !in Elements(q.buffered[..n]);
      assert Elements(q.buffered[..n]) <= Elements(q.buffered);
      OneLaunch(q, index, total, downloaded);
      AnyConserves(Queue(q.remaining - {index}, q.buffered[..n], q.launched + [index]), room - 1, total, downloaded);
    }
  }

  lemma {:induction false} AnyLaunchesIffBuffered(q: Queue, room: nat)
    requires room > 0
    ensures LaunchAny(q, room).launched == q.launched <==> q.buffered == []
  {
    if q.buffered != [] {
      var n := |q.buffered| - 1;
      AnyExtends(Queue(q.remaining - {q.buffered[n]}, q.buffered[..n], q.launched + [q.buffered[n]]), room - 1);
    }
  }

  lemma {:induction false} AnyExtends(q: Queue, room: nat)
    ensures q.launched <= LaunchAny(q, room).launched
    decreases |q.buffered|
  {
    if room > 0 && q.buffered != [] {
      var n := |q.buffered| - 1;
      AnyExtends(Queue(q.remaining - {q.buffered[n]}, q.buffered[..n], q.launched + [q.buffered[n]]), room - 1);
    }
  }

  /** An idle downloader that just asked the server and still launches nothing
      has nothing remaining, or got an answer that is useless to it: for the
      client one an empty answer, for the parallel one an answer without any
      remaining index. */
  lemma IdleMeansDoneOrUselessReply(source: Source, q: Queue, reply: seq<nat>, maxRunners: nat,
                                    total: nat, downloaded: set<nat>)
    requires maxRunners > 0 && q.remaining != {} && q.buffered == []
    requires Conserved(q, total, downloaded)
    ensures var r := Launch(source, q.(buffered := reply), maxRunners);
            r.launched == q.launched <==>
              if source == Client then reply == [] else Elements(reply) !! q.remaining
  {
    match source
    case Client => AnyLaunchesIffBuffered(q.(buffered := reply), maxRunners);
    case Parallel => RemainingConserves(q.(buffered := reply), maxRunners, total, downloaded);
  }

  /** What `LaunchAny` takes from the buffer, the last first. */
  function Taken(q: Queue, room: nat): (r: seq<nat>)
    ensures |r| == Min(room, |q.buffered|)
  {
    Last(q.buffered, room)
  }

  function Last(s: seq<nat>, count: nat): (r: seq<nat>)
    ensures |r| == Min(count, |s|)
  {
    s[|s| - Min(count, |s|)..]
  }

  /** The queue after one launch. */
  function LaunchOne(q: Queue): Queue
    requires q.buffered != []
  {
    var n := |q.buffered| - 1;
    Queue(q.remaining - {q.buffered[n]}, q.buffered[..n], q.launched + [q.buffered[n]])
  }

  lemma TakenMore(q: Queue, room: nat)
    requires room > 0 && q.buffered != []
    ensures Taken(q, room) == Taken(LaunchOne(q), room - 1) + [q.buffered[|q.buffered| - 1]]
  {
  }

  lemma {:induction false} AnyLaunches(q: Queue, room: nat)
    ensures LaunchAny(q, room).launched == q.launched + Reversed(Taken(q, room))
    decreases |q.buffered|
  {
    if room > 0 && q.buffered != [] {
      var next, index := LaunchOne(q), q.buffered[|q.buffered| - 1];
      AnyLaunches(next, room - 1);
      TakenMore(q, room);
      ReversedAppend(Taken(next, room - 1), index);
      Associate(q.launched, [index], Reversed(Taken(next, room - 1)));
    } else {
      NothingTaken(q, room);
    }
  }

  lemma MinusTwice(a: set<nat>, x: nat, b: set<nat>)
    ensures a - {x} - b == a - (b + {x})
  {
  }

  lemma NothingTaken(q: Queue, room: nat)
    requires room == 0 || q.buffered == []
    ensures LaunchAny(q, room) == q && Taken(q, room) == [] && q.remaining - Elements([]) == q.remaining
  {
  }

  lemma {:induction false} AnyRemains(q: Queue, room: nat)
    ensures LaunchAny(q, room).remaining == q.remaining - Elements(Taken(q, room))
    decreases |q.buffered|, 1
  {
    if room == 0 || q.buffered == [] {
      NothingTaken(q, room);
    } else {
      OneRemains(q, room);
    }
  }

  lemma OneRemains(q: Queue, room: nat)
    requires room > 0 && q.buffered != []
    ensures LaunchAny(q, room).remaining == q.remaining - Elements(Taken(q, room))
    decreases |q.buffered|, 0
  {
    var next, index := LaunchOne(q), q.buffered[|q.buffered| - 1];
    AnyRemains(next, room - 1);
    TakenMore(q, room);
    ElementsAppend(Taken(next, room - 1), index);
    MinusTwice(q.remaining, index, Elements(Taken(next, room - 1)));
    assert LaunchAny(q, room) == LaunchAny(next, room - 1);
  }

  lemma {:induction false} ReversedNames(s: seq<nat>)
    ensures Elements(Reversed(s)) == Elements(s)
    ensures NoRepeats(Reversed(s)) <==> NoRepeats(s)
  {
    if s != [] {
      ReversedNames(s[1..]);
      ElementsAppend(Reversed(s[1..]), s[0]);
      assert s == [s[0]] + s[1..];
      assert forall x :: x in s <==> x == s[0] || x in s[1..];
      NoRepeatsConcat([s[0]], s[1..]);
      NoRepeatsConcat(Reversed(s[1..]), [s[0]]);
      assert forall x :: x in Reversed(s[1..]) <==> x in Elements(Reversed(s[1..]));
      assert forall x :: x in s[1..] <==> x in Elements(s[1..]);
    }
  }

  /** The client downloader conserves the indexes if and only if what it takes
      from the buffer has no repeats and still remains. */
  lemma AnyConservesIff(q: Queue, room: nat, total: nat, downloaded: set<nat>)
    requires Conserved(q, total, downloaded)
    ensures Conserved(LaunchAny(q, room), total, downloaded) <==>
              NoRepeats(Taken(q, room)) && Elements(Taken(q, room)) <= q.remaining
  {
    AnyLaunches(q, room);
    AnyRemains(q, room);
    ReversedNames(Taken(q, room));
    LaunchedMore(q, Reversed(Taken(q, room)), total, downloaded);
  }

  lemma LaunchedMore(q: Queue, more: seq<nat>, total: nat, downloaded: set<nat>)
    requires Conserved(q, total, downloaded)
    ensures Conserved(Queue(q.remaining - Elements(more), q.buffered, q.launched + more), total, downloaded) <==>
              NoRepeats(more) && Elements(more) <= q.remaining
  {
    NoRepeatsConcat(q.launched, more);
    assert Elements(q.launched + more) == Elements(q.launched) + Elements(more);
    assert forall x :: x in more <==> x in Elements(more);
    assert forall x :: x in q.launched <==> x in Elements(q.launched);
  }

  /** So, with room for the whole buffer, if and only if the buffer is usable. */
  lemma AnyConservesIffBufferRemains(q: Queue, room: nat, total: nat, downloaded: set<nat>)
    requires Conserved(q, total, downloaded) && room >= |q.buffered|
    ensures Conserved(LaunchAny(q, room), total, downloaded) <==> BufferRemains(q)
  {
    AnyConservesIff(q, room, total, downloaded);
    assert Taken(q, room) == q.buffered;
  }

  /** An index that a reply repeats is launched twice by the client downloader,
      and once by the parallel one. */
  lemma RepeatedIndexLaunchedTwice(q: Queue, i: nat, j: nat, room: nat, total: nat, downloaded: set<nat>)
    requires Conserved(q, total, downloaded) && i < j < |q.buffered| && q.buffered[i] == q.buffered[j]
    requires room >= |q.buffered|
    ensures !NoRepeats(LaunchAny(q, room).launched)
    ensures NoRepeats(LaunchRemaining(q, room).launched)
  {
    AnyLaunches(q, room);
    assert Taken(q, room) == q.buffered;
    ReversedNames(q.buffered);
    NoRepeatsConcat(q.launched, Reversed(q.buffered));
    RemainingConserves(q, room, total, downloaded);
  }
}
