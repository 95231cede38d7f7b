/** The invariant of the download system, kept by every step of every run. */
module DownloadProof {
  import opened Layout
  import opened ChunkDownload
  import opened ChunkQueue
  import opened FileWriter
  import opened DownloadRun
  import opened DownloadSafety

  // ---- the invariant ------------------------------------------------------

  /** What survives a crash: every recorded chunk is on disk, none twice. */
  ghost predicate Persisted(c: Config, s: Sys) {
    && NoRepeats(s.store.log)
    && (forall i :: i in s.store.log ==> IsStored(c.archive, s.store.disk, i))
    && (s.store.log != [] ==> s.header)
  }

  ghost predicate QueueInv(c: Config, r: Run) {
    && Conserved(r.queue, Total(c), r.base) && BufferRemains(r.queue)
    && r.workers.Keys == Elements(r.queue.launched)
    && |Live(r)| <= Runners(c)
  }

  /** Recorded means recorded before, or all messages handled; the marker is
      handled last, and only a failed writer can have logged it without more. */
  ghost predicate LogInv(log: seq<nat>, r: Run) {
    && r.base <= Elements(log)
    && (forall i :: i in log ==> i in r.base || (i in r.workers && IsRecorded(r, r.workers[i])))
    && (forall i :: i in r.workers && AllHandled(r.workers[i]) ==> i in log)
  }

  ghost predicate AllHandled(w: Worker) {
    w.script.complete && w.handled == |w.script.msgs|
  }

  ghost predicate IsRecorded(r: Run, w: Worker) {
    w.script.complete && (w.handled == |w.script.msgs| || r.writer.Failed?)
  }

  ghost predicate ScriptsInv(a: Archive, r: Run) {
    forall i :: i in r.workers ==> InBounds(a, i, r.workers[i])
  }

  ghost predicate InBounds(a: Archive, i: nat, w: Worker) {
    Legit(a, i, w.script) && w.handled <= w.sent <= |w.script.msgs|
  }

  ghost predicate DiskInv(a: Archive, disk: Disk, r: Run) {
    !r.writer.Failed? ==> forall i :: i in r.workers ==> IsHandled(a, disk, i, r.workers[i])
  }

  /** The messages of one sender that are in the channel, in order. */
  function Tagged(channel: seq<(nat, ChunkData)>, i: nat): seq<ChunkData> {
    if channel == [] then []
    else (if channel[0].0 == i then [channel[0].1] else []) + Tagged(channel[1..], i)
  }

  /** The channel holds, for each worker, what it sent and the writer has not
      handled yet, in the order sent. */
  ghost predicate ChannelInv(r: Run) {
    !r.writer.Failed? ==>
      && (forall k :: 0 <= k < |r.channel| ==> r.channel[k].0 in r.workers)
      && (forall i :: i in r.workers ==> InFlight(r, i))
  }

  ghost predicate InFlight(r: Run, i: nat)
    requires i in r.workers
  {
    var w := r.workers[i];
    && w.handled <= w.sent <= |w.script.msgs|
    && Tagged(r.channel, i) == w.script.msgs[w.handled..w.sent]
  }

  /** The flags account for everything that went wrong; with the flag up, a
      finished worker was complete, and an idle loop has nothing left to launch. */
  ghost predicate FlagInv(r: Run) {
    && (r.childUp <==> r.parentUp && !r.failed && !r.writer.Failed?)
    && (r.writer.Stopped? ==> !r.childUp || (r.phase.Draining? && r.channel == []))
    && (r.phase.Draining? ==> Live(r) == {})
    && (!r.phase.Launching? && Live(r) == {} && r.childUp ==> (r.queue.remaining == {} <==> !r.starved))
    && (r.starved ==> !r.phase.Launching? && Live(r) == {})
    && (r.childUp ==> forall i :: i in r.workers && !r.workers[i].live ==> Completed(r.workers[i]))
  }

  ghost predicate Completed(w: Worker) {
    w.script.complete && w.sent == |w.script.msgs|
  }

  ghost predicate RunInv(c: Config, store: Store, r: Run) {
    && QueueInv(c, r) && LogInv(store.log, r) && ScriptsInv(c.archive, r)
    && DiskInv(c.archive, store.disk, r) && ChannelInv(r) && FlagInv(r)
  }

  /** Every chunk is recorded. */
  ghost predicate IsComplete(c: Config, log: seq<nat>) {
    Elements(log) == Indexes(Total(c))
  }

  ghost predicate Inv(c: Config, s: Sys) {
    && Persisted(c, s)
    && (s.run.Some? ==> s.header && Runners(c) > 0 && RunInv(c, s.store, s.run.value))
    && (s.succeeded ==> s.run.None? && (IsComplete(c, s.store.log) <==> !s.starved))
  }

  // ---- begin and launch ---------------------------------------------------

  lemma BeginKeepsRun(c: Config, store: Store, r: Run)
    requires Elements(store.log) <= Indexes(Total(c))
    requires r == Run(Queue(Indexes(Total(c)) - Elements(store.log), [], []), Elements(store.log), map[], [],
                      Launching, true, true, false, Up, false)
    ensures RunInv(c, store, r)
  {
    assert Live(r) == {};
  }

  lemma BeginKeeps(c: Config, s: Sys)
    requires Inv(c, s) && Enabled(c, s, Begin)
    ensures Inv(c, Apply(c, s, Begin))
  {
    RecordedAreChunks(c, s);
    assert s.store.log == [] ==> Elements(s.store.log) == {};
    BeginKeepsRun(c, s.store, Apply(c, s, Begin).run.value);
  }

  lemma RecordedAreChunks(c: Config, s: Sys)
    requires Persisted(c, s)
    ensures Elements(s.store.log) <= Indexes(Total(c))
  {
    forall i | i in Elements(s.store.log)
      ensures i in Indexes(Total(c))
    {
      assert IsStored(c.archive, s.store.disk, i);
    }
  }

  lemma LaunchedConserves(c: Config, r: Run, reply: Option<seq<nat>>)
    requires QueueInv(c, r)
    requires Asks(r) ==> reply.Some? && IsUsableReply(reply.value, r.queue.remaining)
    ensures var q := Launched(c, r, reply);
            && Conserved(q, Total(c), r.base) && BufferRemains(q)
            && r.queue.launched <= q.launched
            && |q.launched| - |r.queue.launched| + |Live(r)| <= Runners(c)
            && (q.launched == r.queue.launched ==> q.remaining == r.queue.remaining)
  {
    if r.queue.remaining != {} {
      var q := if Asks(r) then r.queue.(buffered := reply.value) else r.queue;
      AnyConserves(q, Runners(c) - |Live(r)|, Total(c), r.base);
    }
    SameLaunchedSameRemaining(r.queue, Launched(c, r, reply), Total(c), r.base);
  }

  lemma SameLaunchedSameRemaining(q: Queue, later: Queue, total: nat, base: set<nat>)
    requires Conserved(q, total, base) && Conserved(later, total, base)
    ensures later.launched == q.launched ==> later.remaining == q.remaining
  {
    assert later.remaining == Indexes(total) - base - Elements(later.launched);
    assert q.remaining == Indexes(total) - base - Elements(q.launched);
  }

  /** With no worker in flight, nothing is launched exactly when nothing remains
      or the reply was empty. */
  lemma IdleLaunch(c: Config, r: Run, reply: Option<seq<nat>>)
    requires Runners(c) > 0 && Live(r) == {} && (Asks(r) ==> reply.Some?)
    ensures Launched(c, r, reply).launched == r.queue.launched <==> r.queue.remaining == {} || Starves(r, reply)
  {
    if r.queue.remaining != {} {
      var q := if Asks(r) then r.queue.(buffered := reply.value) else r.queue;
      AnyLaunchesIffBuffered(q, Runners(c));
    }
  }

  lemma {:induction false} ElementsCount(s: seq<nat>)
    ensures |Elements(s)| <= |s|
  {
    if s != [] {
      var front := s[..|s| - 1];
      assert s == front + [s[|s| - 1]];
      ElementsAppend(front, s[|s| - 1]);
      ElementsCount(front);
    }
  }

  lemma UnionCount(a: set<nat>, b: set<nat>)
    ensures |a + b| <= |a| + |b|
  {
    assert |a + b| == |a| + |b| - |a * b|;
  }

  ghost predicate IsFresh(a: Archive, i: nat, w: Worker) {
    w.sent == 0 && w.handled == 0 && w.live && Legit(a, i, w.script)
  }

  /** `later` has the same workers and fresh ones, for exactly the indexes launched. */
  ghost predicate Grows(a: Archive, r: Run, later: Run) {
    && r.workers.Keys <= later.workers.Keys
    && (forall i :: i in r.workers ==> later.workers[i] == r.workers[i])
    && (forall i :: i in later.workers && i !in r.workers ==> IsFresh(a, i, later.workers[i]))
  }

  lemma NewWorkers(a: Archive, r: Run, q: Queue, scripts: map<nat, Script>, later: Run)
    requires r.workers.Keys <= Elements(q.launched)
    requires forall i :: i in q.launched && i !in r.workers ==> i in scripts && Legit(a, i, scripts[i])
    requires later.workers ==
             r.workers + map i | i in q.launched && i !in r.workers && i in scripts :: Worker(scripts[i], 0, 0, true)
    ensures Grows(a, r, later) && later.workers.Keys == Elements(q.launched)
  {
  }

  lemma GrowsLive(a: Archive, r: Run, later: Run)
    requires Grows(a, r, later)
    ensures Live(later) == Live(r) + (later.workers.Keys - r.workers.Keys)
  {
  }

  lemma NewLiveCount(r: Run, q: Queue, later: Run, max: nat)
    requires Live(later) == Live(r) + (Elements(q.launched) - Elements(r.queue.launched))
    requires r.queue.launched <= q.launched && |q.launched| - |r.queue.launched| + |Live(r)| <= max
    ensures |Live(later)| <= max
  {
    var added := q.launched[|r.queue.launched|..];
    assert q.launched == r.queue.launched + added;
    var news := Elements(q.launched) - Elements(r.queue.launched);
    assert news <= Elements(added);
    ElementsCount(added);
    SubsetCount(news, Elements(added));
    UnionCount(Live(r), news);
  }

  lemma {:induction false} TaggedAbsent(channel: seq<(nat, ChunkData)>, i: nat)
    requires forall k :: 0 <= k < |channel| ==> channel[k].0 != i
    ensures Tagged(channel, i) == []
  {
    if channel != [] {
      TaggedAbsent(channel[1..], i);
    }
  }

  lemma LaunchKeepsLog(a: Archive, log: seq<nat>, r: Run, later: Run)
    requires LogInv(log, r) && Grows(a, r, later)
    requires later.base == r.base && later.writer == r.writer
    ensures LogInv(log, later)
  {
    forall i | i in later.workers && AllHandled(later.workers[i])
      ensures i in log
    {
      assert i in r.workers;
    }
    forall i | i in log && i !in r.base
      ensures i in later.workers && IsRecorded(later, later.workers[i])
    {
      assert IsRecorded(r, r.workers[i]);
    }
  }

  lemma LaunchKeepsDisk(a: Archive, disk: Disk, r: Run, later: Run)
    requires ScriptsInv(a, r) && DiskInv(a, disk, r) && Grows(a, r, later) && later.writer == r.writer
    ensures ScriptsInv(a, later) && DiskInv(a, disk, later)
  {
    forall i | i in later.workers
      ensures InBounds(a, i, later.workers[i])
      ensures !later.writer.Failed? ==> IsHandled(a, disk, i, later.workers[i])
    {
      if i in r.workers {
        assert InBounds(a, i, r.workers[i]);
      } else {
        assert later.workers[i].script.msgs[..0] == [];
      }
    }
  }

  lemma LaunchKeepsChannel(a: Archive, r: Run, later: Run)
    requires ChannelInv(r) && Grows(a, r, later) && later.writer == r.writer && later.channel == r.channel
    ensures ChannelInv(later)
  {
    if !r.writer.Failed? {
      forall i | i in later.workers
        ensures InFlight(later, i)
      {
        if i in r.workers {
          assert InFlight(r, i);
        } else {
          TaggedAbsent(r.channel, i);
        }
      }
    }
  }

  lemma LaunchKeepsFlags(a: Archive, r: Run, later: Run)
    requires FlagInv(r) && Grows(a, r, later) && r.phase.Launching? && later.phase.Waiting?
    requires later == r.(phase := Waiting, queue := later.queue, workers := later.workers, starved := later.starved)
    requires Live(later) == {} ==> (later.queue.remaining == {} <==> !later.starved)
    requires later.starved ==> Live(later) == {}
    ensures FlagInv(later)
  {
    forall i | i in later.workers && !later.workers[i].live && later.childUp
      ensures Completed(later.workers[i])
    {
      assert i in r.workers;
    }
  }

  /** After a launch no worker is in flight only if nothing remains or the run starves. */
  lemma LaunchLeavesIdle(c: Config, r: Run, reply: Option<seq<nat>>, later: Run)
    requires QueueInv(c, r) && Runners(c) > 0
    requires Asks(r) ==> reply.Some? && IsUsableReply(reply.value, r.queue.remaining)
    requires later.queue == Launched(c, r, reply) && later.starved == Starves(r, reply)
    requires Live(later) == Live(r) + (Elements(later.queue.launched) - Elements(r.queue.launched))
    ensures Live(later) == {} ==> (later.queue.remaining == {} <==> !later.starved)
    ensures later.starved ==> Live(later) == {}
  {
    LaunchedConserves(c, r, reply);
    if Live(r) == {} {
      IdleLaunch(c, r, reply);
    }
    if Live(later) == {} {
      NoneLaunched(r.queue, later.queue);
    }
  }

  lemma LaunchKeepsRun(c: Config, store: Store, r: Run, reply: Option<seq<nat>>, later: Run)
    requires Runners(c) > 0 && RunInv(c, store, r) && r.phase.Launching?
    requires Asks(r) ==> reply.Some? && IsUsableReply(reply.value, r.queue.remaining)
    requires later == r.(phase := Waiting, queue := Launched(c, r, reply), workers := later.workers,
                         starved := Starves(r, reply))
    requires Grows(c.archive, r, later) && later.workers.Keys == Elements(later.queue.launched)
    ensures RunInv(c, store, later)
  {
    LaunchedConserves(c, r, reply);
    GrowsLive(c.archive, r, later);
    NewLiveCount(r, later.queue, later, Runners(c));
    LaunchLeavesIdle(c, r, reply, later);
    LaunchKeepsLog(c.archive, store.log, r, later);
    LaunchKeepsDisk(c.archive, store.disk, r, later);
    LaunchKeepsChannel(c.archive, r, later);
    LaunchKeepsFlags(c.archive, r, later);
  }

  lemma NoneLaunched(q: Queue, later: Queue)
    requires q.launched <= later.launched && NoRepeats(later.launched)
    requires Elements(later.launched) - Elements(q.launched) == {}
    ensures later.launched == q.launched
  {
    if |q.launched| < |later.launched| {
      LongerHasMore(q.launched, later.launched);
    }
  }

  lemma LongerHasMore(a: seq<nat>, b: seq<nat>)
    requires a <= b && NoRepeats(b) && |a| < |b|
    ensures Elements(b) - Elements(a) != {}
  {
    assert b[|a|] in Elements(b) - Elements(a);
  }

  lemma LaunchKeeps(c: Config, s: Sys, request: seq<nat>, reply: Option<seq<nat>>, scripts: map<nat, Script>)
    requires Inv(c, s) && Enabled(c, s, LaunchMore(request, reply, scripts))
    ensures Inv(c, Apply(c, s, LaunchMore(request, reply, scripts)))
  {
    var r := s.run.value;
    var later := ApplyLaunch(c, r, reply, scripts);
    if Asks(r) && reply.None? {
      FailKeeps(c, s.store, r, later);
    } else {
      LaunchedConserves(c, r, reply);
      NewWorkers(c.archive, r, Launched(c, r, reply), scripts, later);
      LaunchKeepsRun(c, s.store, r, reply, later);
    }
  }

  /** Latching an error stops the child flag and changes nothing else. */
  lemma FailKeeps(c: Config, store: Store, r: Run, later: Run)
    requires RunInv(c, store, r) && r.phase.Launching?
    requires later == r.(phase := Waiting, failed := true, childUp := false)
    ensures RunInv(c, store, later)
  {
    assert Live(later) == Live(r);
    SameWorkers(c, store, r, later);
  }

  /** The invariants that do not mention flags, phases or the queue. */
  lemma SameWorkers(c: Config, store: Store, r: Run, later: Run)
    requires LogInv(store.log, r) && ScriptsInv(c.archive, r) && DiskInv(c.archive, store.disk, r) && ChannelInv(r)
    requires later.workers == r.workers && later.channel == r.channel && later.base == r.base
    requires later.writer == r.writer || (r.writer.Up? && later.writer.Stopped?)
    ensures LogInv(store.log, later) && ScriptsInv(c.archive, later)
    ensures DiskInv(c.archive, store.disk, later) && ChannelInv(later)
  {
    forall i | i in store.log && i !in r.base
      ensures i in later.workers && IsRecorded(later, later.workers[i])
    {
      assert IsRecorded(r, r.workers[i]);
    }
    if !later.writer.Failed? {
      forall i | i in later.workers
        ensures InFlight(later, i)
      {
        assert InFlight(r, i);
      }
    }
  }

  // ---- sending and handling -----------------------------------------------

  lemma {:induction false} TaggedAppend(channel: seq<(nat, ChunkData)>, j: nat, m: ChunkData, i: nat)
    ensures Tagged(channel + [(j, m)], i) == Tagged(channel, i) + (if j == i then [m] else [])
  {
    if channel == [] {
      assert channel + [(j, m)] == [(j, m)];
      assert Tagged([(j, m)], i) == (if j == i then [m] else []) + Tagged([], i);
    } else {
      assert (channel + [(j, m)])[1..] == channel[1..] + [(j, m)];
      TaggedAppend(channel[1..], j, m, i);
    }
  }

  lemma SendKeepsChannel(r: Run, i: nat)
    requires ChannelInv(r) && i in r.workers && r.workers[i].sent < |r.workers[i].script.msgs|
    ensures ChannelInv(ApplySend(r, i))
  {
    var later := ApplySend(r, i);
    if !r.writer.Failed? {
      forall j | j in later.workers
        ensures InFlight(later, j)
      {
        assert InFlight(r, j);
        TaggedAppend(r.channel, i, r.workers[i].script.msgs[r.workers[i].sent], j);
      }
    }
  }

  lemma SendKeepsFlags(r: Run, i: nat)
    requires FlagInv(r) && i in r.workers && r.workers[i].live && r.workers[i].sent < |r.workers[i].script.msgs|
    requires r.writer.Up?
    ensures FlagInv(ApplySend(r, i)) && Live(ApplySend(r, i)) == Live(r)
  {
    var later := ApplySend(r, i);
    assert Live(later) == Live(r);
    forall j | j in later.workers && !later.workers[j].live && later.childUp
      ensures Completed(later.workers[j])
    {
      assert later.workers[j] == r.workers[j];
    }
  }

  lemma SendKeepsProgress(c: Config, store: Store, r: Run, i: nat)
    requires LogInv(store.log, r) && ScriptsInv(c.archive, r) && DiskInv(c.archive, store.disk, r)
    requires i in r.workers && r.workers[i].sent < |r.workers[i].script.msgs|
    ensures LogInv(store.log, ApplySend(r, i)) && ScriptsInv(c.archive, ApplySend(r, i))
    ensures DiskInv(c.archive, store.disk, ApplySend(r, i))
  {
    forall j | j in r.workers
      ensures SameScript(r.workers[j], ApplySend(r, i).workers[j])
    {
      assert InBounds(c.archive, j, r.workers[j]);
    }
    SameProgress(c, store, r, ApplySend(r, i));
  }

  lemma SendKeepsRun(c: Config, store: Store, r: Run, i: nat)
    requires RunInv(c, store, r) && i in r.workers && r.workers[i].live
    requires r.workers[i].sent < |r.workers[i].script.msgs| && r.writer.Up?
    ensures RunInv(c, store, ApplySend(r, i))
  {
    SendKeepsFlags(r, i);
    SendKeepsChannel(r, i);
    SendKeepsProgress(c, store, r, i);
  }

  lemma SendKeeps(c: Config, s: Sys, i: nat)
    requires Inv(c, s) && Enabled(c, s, Send(i))
    ensures Inv(c, Apply(c, s, Send(i)))
  {
    SendKeepsRun(c, s.store, s.run.value, i);
  }

  /** Workers that only differ in what they sent or in being live. */
  lemma SameProgress(c: Config, store: Store, r: Run, later: Run)
    requires LogInv(store.log, r) && ScriptsInv(c.archive, r) && DiskInv(c.archive, store.disk, r)
    requires later.workers.Keys == r.workers.Keys && later.base == r.base && later.writer == r.writer
    requires forall i :: i in r.workers ==> SameScript(r.workers[i], later.workers[i])
    ensures LogInv(store.log, later) && ScriptsInv(c.archive, later) && DiskInv(c.archive, store.disk, later)
  {
    forall i | i in later.workers
      ensures InBounds(c.archive, i, later.workers[i])
      ensures !later.writer.Failed? ==> IsHandled(c.archive, store.disk, i, later.workers[i])
      ensures AllHandled(later.workers[i]) ==> i in store.log
    {
      assert InBounds(c.archive, i, r.workers[i]);
    }
    forall i | i in store.log && i !in r.base
      ensures i in later.workers && IsRecorded(later, later.workers[i])
    {
      assert IsRecorded(r, r.workers[i]);
    }
  }

  predicate SameScript(w: Worker, v: Worker) {
    v.script == w.script && v.handled == w.handled && w.sent <= v.sent <= |w.script.msgs|
  }

  /** The next message is the sender's first unhandled one, not yet recorded. */
  lemma NextMessage(c: Config, store: Store, r: Run)
    requires RunInv(c, store, r) && r.writer.Up? && r.channel != []
    ensures var (i, m) := r.channel[0];
            && i in r.workers && i < Total(c) && i !in store.log
            && r.workers[i].handled < r.workers[i].sent
            && m == r.workers[i].script.msgs[r.workers[i].handled]
  {
    var (i, m) := r.channel[0];
    assert InFlight(r, i);
    assert InBounds(c.archive, i, r.workers[i]);
    assert Tagged(r.channel, i)[0] == m;
    assert i in Elements(r.queue.launched);
    assert !IsRecorded(r, r.workers[i]);
  }

  lemma HeadOff<T>(x: T, rest: seq<T>, s: seq<T>, i: nat, j: nat)
    requires i < j <= |s| && [x] + rest == s[i..j]
    ensures rest == s[i + 1..j]
  {
    assert ([x] + rest)[1..] == rest;
    assert s[i..j][1..] == s[i + 1..j];
  }

  lemma HandleKeepsChannel(r: Run, later: Run)
    requires ChannelInv(r) && r.channel != [] && !r.writer.Failed? && r.channel[0].0 in r.workers
    requires var i := r.channel[0].0;
             var w := r.workers[i];
             && w.handled < w.sent
             && later == r.(channel := r.channel[1..], workers := r.workers[i := w.(handled := w.handled + 1)])
    ensures ChannelInv(later)
  {
    forall j | j in later.workers
      ensures InFlight(later, j)
    {
      assert InFlight(r, j);
      var w := r.workers[j];
      if j == r.channel[0].0 {
        assert Tagged(r.channel, j) == [r.channel[0].1] + Tagged(r.channel[1..], j);
        HeadOff(r.channel[0].1, Tagged(r.channel[1..], j), w.script.msgs, w.handled, w.sent);
      } else {
        assert Tagged(r.channel, j) == [] + Tagged(r.channel[1..], j) == Tagged(r.channel[1..], j);
      }
    }
    assert forall k :: 0 <= k < |later.channel| ==> later.channel[k] == r.channel[k + 1];
  }

  /** A part of one chunk's worker leaves the recorded chunks alone, whether it
      is written whole or cut short. */
  lemma PartEffect(c: Config, s: Sys, i: nat, w: Worker, n: nat)
    requires Sound(c.archive) && Persisted(c, s) && Legit(c.archive, i, w.script)
    requires w.handled < |Parts(w.script)| && n <= |PartWrites(w.script.msgs[w.handled])| && i !in s.store.log
    ensures w.script.msgs[w.handled].FilePart? && n <= |w.script.msgs[w.handled].data|
    ensures var m := w.script.msgs[w.handled];
            var later := WritePart(s.store.disk, m.path, m.pos, m.data[..n]);
            && s.store.disk.Keys <= later.Keys
            && (forall j :: j in s.store.log ==> IsStored(c.archive, later, j))
  {
    var a := c.archive;
    PartWritesNext(a, i, w.script, w.handled);
    var m := w.script.msgs[w.handled];
    var later := WritePart(s.store.disk, m.path, m.pos, m.data[..n]);
    forall j | j in s.store.log
      ensures IsStored(a, later, j)
    {
      OtherChunksUntouched(a, i, w.script, w.handled, n, s.store.disk, j);
      KeptStored(a, s.store.disk, later, j);
    }
  }

  /** The run after one message of worker `i` was handled. */
  function HandledOne(r: Run, i: nat): Run
    requires i in r.workers && r.channel != []
  {
    r.(channel := r.channel[1..], workers := r.workers[i := r.workers[i].(handled := r.workers[i].handled + 1)])
  }

  /** The run after the writer failed on a message. */
  function WriterFailed(r: Run): Run
    requires r.channel != []
  {
    r.(channel := r.channel[1..], writer := Failed, childUp := false)
  }

  lemma FailedWriterKeeps(c: Config, store: Store, later: Store, r: Run)
    requires RunInv(c, store, r) && r.writer.Up? && r.channel != []
    requires later.log == store.log || (later.log == store.log + [r.channel[0].0]
             && r.channel[0].0 in r.workers && r.workers[r.channel[0].0].script.complete)
    ensures RunInv(c, later, WriterFailed(r))
  {
    var next := WriterFailed(r);
    assert Live(next) == Live(r);
    assert Elements(store.log) <= Elements(later.log);
    forall i | i in later.log && i !in r.base
      ensures i in next.workers && IsRecorded(next, next.workers[i])
    {
      if i in store.log {
        assert IsRecorded(r, r.workers[i]);
      }
    }
  }

  lemma HandledOneKeepsFlags(c: Config, r: Run, i: nat)
    requires QueueInv(c, r) && FlagInv(r) && i in r.workers && r.channel != [] && r.writer.Up?
    ensures QueueInv(c, HandledOne(r, i)) && FlagInv(HandledOne(r, i))
  {
    var later := HandledOne(r, i);
    assert Live(later) == Live(r);
    forall j | j in later.workers && !later.workers[j].live && later.childUp
      ensures Completed(later.workers[j])
    {
      assert Completed(r.workers[j]);
    }
  }

  lemma HandledPartKeepsLog(log: seq<nat>, r: Run, i: nat)
    requires LogInv(log, r) && i in r.workers && r.channel != [] && r.writer.Up?
    requires r.workers[i].handled + 1 < |r.workers[i].script.msgs| || !r.workers[i].script.complete
    requires r.workers[i].handled < |r.workers[i].script.msgs|
    ensures LogInv(log, HandledOne(r, i))
  {
    var later := HandledOne(r, i);
    forall j | j in log && j !in r.base
      ensures j in later.workers && IsRecorded(later, later.workers[j])
    {
      assert IsRecorded(r, r.workers[j]);
    }
    forall j | j in later.workers && AllHandled(later.workers[j])
      ensures j in log
    {
      assert j != i;
    }
  }

  /** If the sender got one message further and the others' work was kept. */
  lemma HandledOneKeepsDisk(a: Archive, later: Disk, r: Run, i: nat)
    requires i in r.workers && r.channel != []
    requires IsHandled(a, later, i, r.workers[i].(handled := r.workers[i].handled + 1))
    requires forall j :: j in r.workers && j != i ==> IsHandled(a, later, j, r.workers[j])
    ensures ScriptsInv(a, HandledOne(r, i)) && DiskInv(a, later, HandledOne(r, i))
  {
    var next := HandledOne(r, i);
    forall j | j in next.workers
      ensures IsHandled(a, later, j, next.workers[j])
    {
      if j != i {
        assert next.workers[j] == r.workers[j];
      } else {
        assert next.workers[j] == r.workers[i].(handled := r.workers[i].handled + 1);
      }
    }
    HandledAreInBounds(a, later, next);
  }

  lemma HandledAreInBounds(a: Archive, disk: Disk, r: Run)
    requires forall j :: j in r.workers ==> IsHandled(a, disk, j, r.workers[j])
    ensures ScriptsInv(a, r)
  {
    forall j | j in r.workers
      ensures InBounds(a, j, r.workers[j])
    {
      assert IsHandled(a, disk, j, r.workers[j]);
    }
  }

  lemma OtherKept(a: Archive, disk: Disk, i: nat, s: Script, h: nat, j: nat, v: Worker)
    requires Sound(a) && i < |a.chunks| && h < |s.msgs| && WritesNext(a, i, s, h) && j != i && IsHandled(a, disk, j, v)
    ensures IsHandled(a, WritePart(disk, s.msgs[h].path, s.msgs[h].pos, s.msgs[h].data), j, v)
  {
    var m := s.msgs[h];
    OtherChunksUntouched(a, i, s, h, |m.data|, disk, j);
    assert m.data[..|m.data|] == m.data;
    KeptHandled(a, disk, WritePart(disk, m.path, m.pos, m.data), j, v);
  }

  lemma OthersKept(a: Archive, disk: Disk, i: nat, workers: map<nat, Worker>, h: nat)
    requires Sound(a) && i in workers && i < |a.chunks|
    requires forall j :: j in workers ==> IsHandled(a, disk, j, workers[j])
    requires h < |workers[i].script.msgs| && WritesNext(a, i, workers[i].script, h)
    ensures var m := workers[i].script.msgs[h];
            forall j :: j in workers && j != i ==> IsHandled(a, WritePart(disk, m.path, m.pos, m.data), j, workers[j])
  {
    var m := workers[i].script.msgs[h];
    forall j | j in workers && j != i
      ensures IsHandled(a, WritePart(disk, m.path, m.pos, m.data), j, workers[j])
    {
      OtherKept(a, disk, i, workers[i].script, h, j, workers[j]);
    }
  }

  lemma HandledPartKeepsDisk(c: Config, s: Sys, r: Run, i: nat)
    requires Sound(c.archive) && Persisted(c, s) && DiskInv(c.archive, s.store.disk, r)
    requires i in r.workers && r.channel != [] && r.writer.Up? && i !in s.store.log
    requires r.workers[i].handled < r.workers[i].sent && r.workers[i].handled < |Parts(r.workers[i].script)|
    ensures var m := r.workers[i].script.msgs[r.workers[i].handled];
            && m.FilePart?
            && ScriptsInv(c.archive, HandledOne(r, i))
            && DiskInv(c.archive, WritePart(s.store.disk, m.path, m.pos, m.data), HandledOne(r, i))
  {
    var w := r.workers[i];
    var m := w.script.msgs[w.handled];
    assert IsHandled(c.archive, s.store.disk, i, w);
    PartWritesNext(c.archive, i, w.script, w.handled);
    OthersKept(c.archive, s.store.disk, i, r.workers, w.handled);
    HandledMore(c.archive, s.store.disk, i, w);
    HandledOneKeepsDisk(c.archive, WritePart(s.store.disk, m.path, m.pos, m.data), r, i);
  }

  /** One message handled: what concerns the log and the disk is given. */
  lemma HandledOneKeepsRun(c: Config, store: Store, later: Store, r: Run, i: nat)
    requires QueueInv(c, r) && ChannelInv(r) && FlagInv(r) && r.writer.Up?
    requires r.channel != [] && r.channel[0].0 == i && i in r.workers && r.workers[i].handled < r.workers[i].sent
    requires LogInv(later.log, HandledOne(r, i)) && ScriptsInv(c.archive, HandledOne(r, i))
    requires DiskInv(c.archive, later.disk, HandledOne(r, i))
    ensures RunInv(c, later, HandledOne(r, i))
  {
    HandledOneKeepsFlags(c, r, i);
    HandledOneKeepsChannel(r, i);
  }

  lemma HandledOneKeepsChannel(r: Run, i: nat)
    requires ChannelInv(r) && r.channel != [] && !r.writer.Failed? && r.channel[0].0 == i && i in r.workers
    requires r.workers[i].handled < r.workers[i].sent
    ensures ChannelInv(HandledOne(r, i))
  {
    HandleKeepsChannel(r, HandledOne(r, i));
  }

  lemma WrittenKeepsPersisted(c: Config, s: Sys, i: nat, w: Worker, n: nat)
    requires Sound(c.archive) && Persisted(c, s) && Legit(c.archive, i, w.script)
    requires w.handled < |Parts(w.script)| && n <= |PartWrites(w.script.msgs[w.handled])| && i !in s.store.log
    ensures w.script.msgs[w.handled].FilePart? && n <= |w.script.msgs[w.handled].data|
    ensures var m := w.script.msgs[w.handled];
            Persisted(c, s.(store := s.store.(disk := WritePart(s.store.disk, m.path, m.pos, m.data[..n]))))
  {
    PartEffect(c, s, i, w, n);
  }

  /** How much of a part a fault lets through. */
  function Written(fault: Fault, data: Bytes): nat {
    match fault case WriteFails(k) => Min(k, |data|) case _ => |data|
  }

  lemma HandlePartKeepsRun(c: Config, s: Sys, r: Run, i: nat)
    requires Sound(c.archive) && Persisted(c, s) && RunInv(c, s.store, r) && r.writer.Up? && r.channel != []
    requires r.channel[0].0 == i && i in r.workers && i !in s.store.log
    requires r.workers[i].handled < r.workers[i].sent && r.workers[i].handled < |Parts(r.workers[i].script)|
    ensures var m := r.workers[i].script.msgs[r.workers[i].handled];
            && m.FilePart?
            && RunInv(c, s.store.(disk := WritePart(s.store.disk, m.path, m.pos, m.data)), HandledOne(r, i))
  {
    assert InBounds(c.archive, i, r.workers[i]);
    HandledPartKeepsLog(s.store.log, r, i);
    HandledPartKeepsDisk(c, s, r, i);
    var m := r.workers[i].script.msgs[r.workers[i].handled];
    HandledOneKeepsRun(c, s.store, s.store.(disk := WritePart(s.store.disk, m.path, m.pos, m.data)), r, i);
  }

  /** The writer's next message is a part of the worker `i`. */
  ghost predicate PartIsNext(c: Config, s: Sys, r: Run, i: nat, m: ChunkData) {
    && s.run == Some(r) && r.writer.Up? && r.channel != [] && r.channel[0] == (i, m)
    && i in r.workers && i !in s.store.log && Legit(c.archive, i, r.workers[i].script)
    && r.workers[i].handled < r.workers[i].sent && r.workers[i].handled < |Parts(r.workers[i].script)|
    && m == r.workers[i].script.msgs[r.workers[i].handled] && m.FilePart?
  }

  lemma NextIsPart(c: Config, s: Sys, fault: Fault)
    requires Inv(c, s) && Enabled(c, s, HandleNext(fault))
    requires var r := s.run.value;
             r.channel[0].0 in r.workers ==> var w := r.workers[r.channel[0].0]; w.handled < |Parts(w.script)|
    ensures PartIsNext(c, s, s.run.value, s.run.value.channel[0].0, s.run.value.channel[0].1)
  {
    var r := s.run.value;
    var i := r.channel[0].0;
    NextMessage(c, s.store, r);
    assert InBounds(c.archive, i, r.workers[i]);
    PartWritesNext(c.archive, i, r.workers[i].script, r.workers[i].handled);
  }

  lemma PartFailsKeeps(c: Config, s: Sys, fault: Fault, r: Run, i: nat, m: ChunkData)
    requires Sound(c.archive) && Inv(c, s) && PartIsNext(c, s, r, i, m)
    requires fault.OpenFails? || fault.WriteFails?
    ensures Inv(c, Apply(c, s, HandleNext(fault)))
  {
    WrittenKeepsPersisted(c, s, i, r.workers[i], Written(fault, m.data));
    var store := s.store.(disk := WritePart(s.store.disk, m.path, m.pos, m.data[..Written(fault, m.data)]));
    FailedWriterKeeps(c, s.store, if fault.OpenFails? then s.store else store, r);
    HandlePartApplies(c, s, fault, r, i, m, store);
  }

  lemma WholePartKeepsPersisted(c: Config, s: Sys, r: Run, i: nat, m: ChunkData)
    requires Sound(c.archive) && Persisted(c, s) && PartIsNext(c, s, r, i, m)
    ensures Persisted(c, s.(store := s.store.(disk := WritePart(s.store.disk, m.path, m.pos, m.data))))
  {
    WrittenKeepsPersisted(c, s, i, r.workers[i], |m.data|);
    assert m.data[..|m.data|] == m.data;
  }

  lemma WholePartApplies(c: Config, s: Sys, fault: Fault, r: Run, i: nat, m: ChunkData)
    requires PartIsNext(c, s, r, i, m) && !fault.OpenFails? && !fault.WriteFails?
    ensures Apply(c, s, HandleNext(fault)) ==
            s.(store := s.store.(disk := WritePart(s.store.disk, m.path, m.pos, m.data)), run := Some(HandledOne(r, i)))
  {
  }

  lemma PartWrittenKeeps(c: Config, s: Sys, fault: Fault, r: Run, i: nat, m: ChunkData)
    requires Sound(c.archive) && Inv(c, s) && PartIsNext(c, s, r, i, m)
    requires !fault.OpenFails? && !fault.WriteFails?
    ensures Inv(c, Apply(c, s, HandleNext(fault)))
  {
    WholePartKeepsPersisted(c, s, r, i, m);
    HandlePartKeepsRun(c, s, r, i);
    WholePartApplies(c, s, fault, r, i, m);
    InvOf(c, s, Apply(c, s, HandleNext(fault)));
  }

  lemma InvOf(c: Config, s: Sys, later: Sys)
    requires Inv(c, s) && s.run.Some? && later.run.Some? && later.header == s.header && later.succeeded == s.succeeded
    requires Persisted(c, s.(store := later.store)) && RunInv(c, later.store, later.run.value)
    ensures Inv(c, later)
  {
  }

  lemma HandlePartKeeps(c: Config, s: Sys, fault: Fault)
    requires Sound(c.archive) && Inv(c, s) && Enabled(c, s, HandleNext(fault))
    requires var r := s.run.value;
             r.channel[0].0 in r.workers ==> var w := r.workers[r.channel[0].0]; w.handled < |Parts(w.script)|
    ensures Inv(c, Apply(c, s, HandleNext(fault)))
  {
    NextIsPart(c, s, fault);
    var r := s.run.value;
    var (i, m) := r.channel[0];
    if fault.OpenFails? || fault.WriteFails? {
      PartFailsKeeps(c, s, fault, r, i, m);
    } else {
      PartWrittenKeeps(c, s, fault, r, i, m);
    }
  }

  /** What `Apply` does on a file part, case by case. */
  lemma HandlePartApplies(c: Config, s: Sys, fault: Fault, r: Run, i: nat, m: ChunkData, store: Store)
    requires s.run == Some(r) && r.channel != [] && r.channel[0] == (i, m) && m.FilePart? && i in r.workers
    requires store == s.store.(disk := WritePart(s.store.disk, m.path, m.pos, m.data[..Written(fault, m.data)]))
    ensures Apply(c, s, HandleNext(fault)) ==
            if fault.OpenFails? then s.(run := Some(WriterFailed(r)))
            else if fault.WriteFails? then s.(store := store, run := Some(WriterFailed(r)))
            else s.(store := store, run := Some(HandledOne(r, i)))
  {
    assert m.data[..|m.data|] == m.data;
  }

  lemma HandledEndKeepsLog(log: seq<nat>, r: Run, i: nat)
    requires LogInv(log, r) && i in r.workers && r.channel != [] && r.writer.Up?
    requires r.workers[i].script.complete && r.workers[i].handled + 1 == |r.workers[i].script.msgs|
    ensures LogInv(log + [i], HandledOne(r, i))
  {
    var later := HandledOne(r, i);
    ElementsAppend(log, i);
    forall j | j in log + [i] && j !in r.base
      ensures j in later.workers && IsRecorded(later, later.workers[j])
    {
      if j != i {
        assert IsRecorded(r, r.workers[j]);
      }
    }
    forall j | j in later.workers && AllHandled(later.workers[j])
      ensures j in log + [i]
    {
      if j != i {
        assert AllHandled(r.workers[j]);
      }
    }
  }

  lemma HandledEndKeepsDisk(c: Config, disk: Disk, r: Run, i: nat)
    requires ScriptsInv(c.archive, r) && DiskInv(c.archive, disk, r) && r.writer.Up?
    requires i in r.workers && r.channel != [] && r.workers[i].handled < r.workers[i].sent
    requires r.workers[i].sent <= |r.workers[i].script.msgs|
    requires r.workers[i].script.msgs[r.workers[i].handled].EndOfChunk?
    ensures ScriptsInv(c.archive, HandledOne(r, i)) && DiskInv(c.archive, disk, HandledOne(r, i))
  {
    var later := HandledOne(r, i);
    MarkerWritesNothing(r.workers[i].script.msgs, r.workers[i].handled);
    assert IsHandled(c.archive, disk, i, r.workers[i]);
    assert IsHandled(c.archive, disk, i, later.workers[i]);
    forall j | j in later.workers
      ensures InBounds(c.archive, j, later.workers[j])
      ensures IsHandled(c.archive, disk, j, later.workers[j])
    {
      if j != i {
        assert IsHandled(c.archive, disk, j, r.workers[j]);
      }
    }
  }

  /** Recording a chunk whose parts have all been handled. */
  lemma RecordKeepsPersisted(c: Config, s: Sys, i: nat, w: Worker)
    requires Sound(c.archive) && Persisted(c, s) && s.header && i !in s.store.log
    requires IsHandled(c.archive, s.store.disk, i, w) && w.script.complete && w.handled + 1 == |w.script.msgs|
    ensures Persisted(c, s.(store := s.store.(log := s.store.log + [i])))
  {
    HandledIsStored(c.archive, s.store.disk, i, w);
  }

  /** After all its parts, a worker's next message is its end marker. */
  lemma EndIsLast(a: Archive, i: nat, w: Worker)
    requires InBounds(a, i, w) && w.handled < w.sent && w.handled >= |Parts(w.script)|
    ensures w.script.complete && w.handled + 1 == |w.script.msgs| && w.script.msgs[w.handled] == EndOfChunk(i)
  {
  }

  lemma HandleEndKeeps(c: Config, s: Sys, fault: Fault)
    requires Sound(c.archive) && Inv(c, s) && Enabled(c, s, HandleNext(fault))
    requires var r := s.run.value;
             r.channel[0].0 in r.workers ==> var w := r.workers[r.channel[0].0]; w.handled >= |Parts(w.script)|
    ensures Inv(c, Apply(c, s, HandleNext(fault)))
  {
    var r := s.run.value;
    var i := r.channel[0].0;
    NextMessage(c, s.store, r);
    var w := r.workers[i];
    assert InBounds(c.archive, i, w);
    EndIsLast(c.archive, i, w);
    assert IsHandled(c.archive, s.store.disk, i, w);
    RecordKeepsPersisted(c, s, i, w);
    HandledEndKeepsLog(s.store.log, r, i);
    HandledEndKeepsDisk(c, s.store.disk, r, i);
    HandledOneKeepsRun(c, s.store, s.store.(log := s.store.log + [i]), r, i);
    if fault.SaveFails? {
      FailedWriterKeeps(c, s.store, s.store, r);
    } else if fault.ProgressFails? {
      FailedWriterKeeps(c, s.store, s.store.(log := s.store.log + [i]), r);
    }
    HandleEndApplies(c, s, fault, r, i);
  }

  /** What `Apply` does on an end marker, case by case. */
  lemma HandleEndApplies(c: Config, s: Sys, fault: Fault, r: Run, i: nat)
    requires s.run == Some(r) && r.channel != [] && r.channel[0] == (i, EndOfChunk(i)) && i in r.workers
    ensures var store := s.store.(log := s.store.log + [i]);
            Apply(c, s, HandleNext(fault)) ==
            if fault.SaveFails? then s.(run := Some(WriterFailed(r)))
            else if fault.ProgressFails? then s.(store := store, run := Some(WriterFailed(r)))
            else s.(store := store, run := Some(HandledOne(r, i)))
  {
  }

  // ---- joining, stopping, finishing ---------------------------------------

  lemma JoinKeepsFlags(c: Config, r: Run, i: nat)
    requires QueueInv(c, r) && FlagInv(r) && i in r.workers && r.workers[i].live && r.phase.Waiting?
    ensures QueueInv(c, ApplyJoin(r, i)) && FlagInv(ApplyJoin(r, i))
  {
    var later := ApplyJoin(r, i);
    assert Live(later) == Live(r) - {i};
    forall j | j in later.workers && !later.workers[j].live && later.childUp
      ensures Completed(later.workers[j])
    {
      if j != i {
        assert Completed(r.workers[j]);
      }
    }
  }

  lemma JoinKeepsChannel(r: Run, i: nat)
    requires ChannelInv(r) && i in r.workers
    ensures ChannelInv(ApplyJoin(r, i))
  {
    var later := ApplyJoin(r, i);
    if !r.writer.Failed? {
      forall j | j in later.workers
        ensures InFlight(later, j)
      {
        assert InFlight(r, j);
      }
    }
  }

  lemma JoinKeepsScripts(a: Archive, r: Run, i: nat)
    requires ScriptsInv(a, r) && i in r.workers
    ensures ApplyJoin(r, i).workers.Keys == r.workers.Keys
    ensures forall j :: j in r.workers ==> SameScript(r.workers[j], ApplyJoin(r, i).workers[j])
  {
    forall j | j in r.workers
      ensures SameScript(r.workers[j], ApplyJoin(r, i).workers[j])
    {
      assert InBounds(a, j, r.workers[j]);
    }
  }

  lemma JoinKeepsProgress(c: Config, store: Store, r: Run, i: nat)
    requires LogInv(store.log, r) && ScriptsInv(c.archive, r) && DiskInv(c.archive, store.disk, r) && i in r.workers
    ensures LogInv(store.log, ApplyJoin(r, i)) && ScriptsInv(c.archive, ApplyJoin(r, i))
    ensures DiskInv(c.archive, store.disk, ApplyJoin(r, i))
  {
    JoinKeepsScripts(c.archive, r, i);
    SameProgress(c, store, r, ApplyJoin(r, i));
  }

  lemma JoinKeepsRun(c: Config, store: Store, r: Run, i: nat)
    requires RunInv(c, store, r) && i in r.workers && r.workers[i].live && r.phase.Waiting?
    ensures RunInv(c, store, ApplyJoin(r, i))
  {
    JoinKeepsFlags(c, r, i);
    JoinKeepsProgress(c, store, r, i);
    JoinKeepsChannel(r, i);
  }

  /** Steps that change only the flags, the phase or the writer's state. */
  lemma ControlKeeps(c: Config, store: Store, r: Run, later: Run)
    requires RunInv(c, store, r) && FlagInv(later)
    requires later == r.(phase := later.phase, parentUp := later.parentUp, childUp := later.childUp,
             writer := later.writer)
    requires later.writer == r.writer || (r.writer.Up? && later.writer.Stopped?)
    ensures RunInv(c, store, later)
  {
    assert Live(later) == Live(r);
    SameWorkers(c, store, r, later);
  }

  lemma ControlStepKeeps(c: Config, s: Sys, act: Action)
    requires Inv(c, s) && Enabled(c, s, act)
    requires act.SkipLaunch? || act.WriterStops? || act.WriterDrained? || act.NoMoreWorkers? || act.StopParent?
    ensures Inv(c, Apply(c, s, act))
  {
    var r := s.run.value;
    var later := Apply(c, s, act).run.value;
    ControlKeepsFlags(c, s, r, act);
    ControlKeeps(c, s.store, r, later);
  }

  lemma ControlKeepsFlags(c: Config, s: Sys, r: Run, act: Action)
    requires FlagInv(r) && MayHappenInRun(c, r, act)
    requires act.SkipLaunch? || act.WriterStops? || act.WriterDrained? || act.NoMoreWorkers? || act.StopParent?
    ensures ApplyInRun(c, s, r, act).run.Some?
    ensures FlagInv(ApplyInRun(c, s, r, act).run.value)
  {
    assert Live(ApplyInRun(c, s, r, act).run.value) == Live(r);
  }

  /** A run that returns Ok had the flag up to the end, so the writer drained
      the channel and every worker completed. Then it is complete if and only if
      it did not starve. */
  lemma CompleteIffFed(c: Config, store: Store, r: Run)
    requires RunInv(c, store, r) && r.phase.Draining? && r.writer.Stopped? && !r.failed && r.parentUp
    requires forall i :: i in store.log ==> i < Total(c)
    ensures IsComplete(c, store.log) <==> !r.starved
  {
    if r.starved {
      RemainingIsNotRecorded(c, store, r);
    } else {
      forall i | i in Indexes(Total(c))
        ensures i in Elements(store.log)
      {
        if i !in r.base {
          assert i in Elements(r.queue.launched);
          LaunchedIsRecorded(c, store, r, i);
        }
      }
    }
  }

  lemma RemainingIsNotRecorded(c: Config, store: Store, r: Run)
    requires QueueInv(c, r) && LogInv(store.log, r) && r.queue.remaining != {}
    ensures !IsComplete(c, store.log)
  {
    var i :| i in r.queue.remaining;
    assert i in Indexes(Total(c)) && i !in r.base && i !in Elements(r.queue.launched);
    assert i !in store.log;
  }

  lemma LaunchedIsRecorded(c: Config, store: Store, r: Run, i: nat)
    requires LogInv(store.log, r) && ChannelInv(r) && FlagInv(r)
    requires r.phase.Draining? && r.writer.Stopped? && !r.failed && r.parentUp
    requires i in r.workers
    ensures i in store.log
  {
    assert InFlight(r, i);
    assert i !in Live(r);
    assert Completed(r.workers[i]);
    assert Tagged(r.channel, i) == [];
    var w := r.workers[i];
    assert w.script.msgs[w.handled..w.sent] == [];
    assert AllHandled(w);
  }

  lemma FinishKeeps(c: Config, s: Sys)
    requires Inv(c, s) && Enabled(c, s, Finish)
    ensures Inv(c, Apply(c, s, Finish))
  {
    var r := s.run.value;
    if r.writer.Stopped? && !r.failed && r.parentUp {
      forall i | i in s.store.log
        ensures i < Total(c)
      {
        assert IsStored(c.archive, s.store.disk, i);
      }
      CompleteIffFed(c, s.store, r);
    }
  }

  // ---- main results -------------------------------------------------------

  /** Every step keeps the invariant. */
  lemma StepKeeps(c: Config, s: Sys, act: Action)
    requires Sound(c.archive) && Inv(c, s) && Enabled(c, s, act)
    ensures Inv(c, Apply(c, s, act))
  {
    match act
    case Begin => BeginKeeps(c, s);
    case LaunchMore(request, reply, scripts) => LaunchKeeps(c, s, request, reply, scripts);
    case Send(i) => SendKeeps(c, s, i);
    case HandleNext(fault) =>
      var r := s.run.value;
      if r.channel[0].0 in r.workers &&
         r.workers[r.channel[0].0].handled < |Parts(r.workers[r.channel[0].0].script)| {
        HandlePartKeeps(c, s, fault);
      } else {
        NextMessage(c, s.store, r);
        HandleEndKeeps(c, s, fault);
      }
    case Join(i) => JoinKeepsRun(c, s.store, s.run.value, i);
    case Finish => FinishKeeps(c, s);
    case Crash =>
    case _ => ControlStepKeeps(c, s, act);
  }

  lemma {:induction false} ExecutionKeeps(c: Config, acts: seq<Action>)
    requires Sound(c.archive) && IsExecution(c, acts)
    ensures Inv(c, After(c, acts))
  {
    if acts != [] {
      var front := acts[..|acts| - 1];
      ExecutionKeeps(c, front);
      StepKeeps(c, After(c, front), acts[|acts| - 1]);
    }
  }
}
