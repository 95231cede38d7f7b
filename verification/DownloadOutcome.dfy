/** When a run of the download returns Ok: exactly when nothing went wrong in it;
    and that from wherever earlier runs left off a run can do so. */
module DownloadOutcome {
  import opened Layout
  import opened Blueprint
  import opened ChunkUpload
  import opened UploadRun
  import opened ChunkDownload
  import opened ChunkQueue
  import opened FileWriter
  import opened DownloadRun
  import opened DownloadSafety
  import opened DownloadProof
  import opened DownloadProgress
  import opened Transfer

  // ---- what may go wrong --------------------------------------------------

  /** The fault makes the writer fail on this message. */
  predicate Hits(m: ChunkData, fault: Fault) {
    match m
    case FilePart(_, _, _) => fault.OpenFails? || fault.WriteFails?
    case EndOfChunk(_) => fault.SaveFails? || fault.ProgressFails?
  }

  /** The workers launched deliver their whole chunks. */
  ghost predicate LaunchesComplete(c: Config, r: Run, reply: Option<seq<nat>>, scripts: map<nat, Script>) {
    forall i :: i in Launched(c, r, reply).launched && i !in r.workers && i in scripts ==> scripts[i].complete
  }

  /** Since the last run began nobody stopped it, every request for chunks was
      answered, every worker launched delivers its whole chunk, and the writer met
      no fault. */
  ghost predicate WentWell(c: Config, acts: seq<Action>) {
    acts != [] &&
    var front, act := acts[..|acts| - 1], acts[|acts| - 1];
    match act
    case Begin => true
    case StopParent => false
    case LaunchMore(_, reply, scripts) =>
      && WentWell(c, front) && After(c, front).run.Some?
      && var r := After(c, front).run.value;
         (Asks(r) ==> reply.Some?) && LaunchesComplete(c, r, reply, scripts)
    case HandleNext(fault) =>
      && WentWell(c, front) && After(c, front).run.Some?
      && var channel := After(c, front).run.value.channel;
         channel != [] && !Hits(channel[0].1, fault)
    case _ => WentWell(c, front)
  }

  /** The same, seen from the state. */
  ghost predicate Untroubled(r: Run) {
    r.childUp && forall i :: i in r.workers ==> r.workers[i].script.complete
  }

  // ---- step by step -------------------------------------------------------

  lemma HandleFailsIffHit(store: Store, m: ChunkData, fault: Fault)
    ensures Handle(store, m, fault).1 <==> !Hits(m, fault)
  {
  }

  /** Workers added for the indexes launched. */
  lemma AddedTrouble(r: Run, q: Queue, scripts: map<nat, Script>, later: Run)
    requires forall i :: i in q.launched && i !in r.workers ==> i in scripts
    requires later.workers ==
             r.workers + map i | i in q.launched && i !in r.workers && i in scripts :: Worker(scripts[i], 0, 0, true)
    requires later.childUp == r.childUp
    ensures Untroubled(later) <==>
              Untroubled(r) && forall i :: i in q.launched && i !in r.workers && i in scripts ==> scripts[i].complete
  {
    forall i | i in q.launched && i !in r.workers
      ensures i in later.workers && later.workers[i].script == scripts[i]
    {
    }
    forall i | i in r.workers
      ensures i in later.workers && later.workers[i] == r.workers[i]
    {
    }
  }

  lemma LaunchTrouble(c: Config, r: Run, reply: Option<seq<nat>>, scripts: map<nat, Script>)
    requires r.childUp
    requires forall i :: i in Launched(c, r, reply).launched && i !in r.workers ==> i in scripts
    ensures Untroubled(ApplyLaunch(c, r, reply, scripts)) <==>
              Untroubled(r) && (Asks(r) ==> reply.Some?) && LaunchesComplete(c, r, reply, scripts)
  {
    if !(Asks(r) && reply.None?) {
      AddedTrouble(r, Launched(c, r, reply), scripts, ApplyLaunch(c, r, reply, scripts));
    }
  }

  lemma HandleTrouble(c: Config, s: Sys, r: Run, fault: Fault)
    requires s.run == Some(r) && ChannelInv(r) && r.channel != [] && r.writer.Up?
    ensures var later := Apply(c, s, HandleNext(fault));
            later.run.Some? && (Untroubled(later.run.value) <==> Untroubled(r) && !Hits(r.channel[0].1, fault))
  {
    HandleFailsIffHit(s.store, r.channel[0].1, fault);
    var later := Apply(c, s, HandleNext(fault)).run.value;
    assert later.workers.Keys == r.workers.Keys;
    assert forall i :: i in r.workers ==> later.workers[i].script == r.workers[i].script;
  }

  lemma JoinTrouble(r: Run, i: nat)
    requires FlagInv(r) && r.phase.Waiting? && i in r.workers
    requires r.workers[i].sent == |r.workers[i].script.msgs| || !r.writer.Up?
    ensures Untroubled(ApplyJoin(r, i)) <==> Untroubled(r)
  {
    var later := ApplyJoin(r, i);
    assert forall j :: j in r.workers ==> later.workers[j].script == r.workers[j].script;
  }

  lemma SendTrouble(r: Run, i: nat)
    requires i in r.workers && r.workers[i].sent < |r.workers[i].script.msgs|
    ensures Untroubled(ApplySend(r, i)) <==> Untroubled(r)
  {
    var later := ApplySend(r, i);
    assert forall j :: j in r.workers ==> later.workers[j].script == r.workers[j].script;
  }

  /** What one step does to a run that is and stays going on. */
  lemma StepTrouble(c: Config, s: Sys, act: Action)
    requires Inv(c, s) && s.run.Some? && Enabled(c, s, act) && Apply(c, s, act).run.Some?
    ensures Untroubled(Apply(c, s, act).run.value) <==>
              Untroubled(s.run.value) &&
              match act
              case StopParent => false
              case LaunchMore(_, reply, scripts) =>
                (Asks(s.run.value) ==> reply.Some?) && LaunchesComplete(c, s.run.value, reply, scripts)
              case HandleNext(fault) => !Hits(s.run.value.channel[0].1, fault)
              case _ => true
  {
    var r := s.run.value;
    match act
    case LaunchMore(_, reply, scripts) => LaunchTrouble(c, r, reply, scripts);
    case HandleNext(fault) => HandleTrouble(c, s, r, fault);
    case Join(i) => JoinTrouble(r, i);
    case Send(i) => SendTrouble(r, i);
    case _ =>
  }

  lemma {:induction false} WentWellIff(c: Config, acts: seq<Action>)
    requires Sound(c.archive) && IsExecution(c, acts) && After(c, acts).run.Some?
    ensures WentWell(c, acts) <==> Untroubled(After(c, acts).run.value)
  {
    var front, act := acts[..|acts| - 1], acts[|acts| - 1];
    ExecutionKeeps(c, front);
    if !act.Begin? {
      WentWellIff(c, front);
      StepTrouble(c, After(c, front), act);
    }
  }

  // ---- Ok -----------------------------------------------------------------

  /** At the end of a run whose flag stayed up all workers have completed. */
  lemma DrainedIsUntroubled(r: Run)
    requires FlagInv(r) && r.phase.Draining? && !r.writer.Up?
    ensures r.writer.Stopped? && !r.failed && r.parentUp <==> Untroubled(r)
  {
    if r.childUp {
      forall i | i in r.workers
        ensures r.workers[i].script.complete
      {
        assert i !in Live(r);
        assert Completed(r.workers[i]);
      }
    }
  }

  lemma FinishOkIff(c: Config, s: Sys)
    requires s.run.Some? && FlagInv(s.run.value) && s.run.value.phase.Draining? && !s.run.value.writer.Up?
    ensures Apply(c, s, Finish).succeeded <==> Untroubled(s.run.value)
  {
    DrainedIsUntroubled(s.run.value);
  }

  lemma OnlyFinishIsOk(c: Config, s: Sys, act: Action)
    requires Inv(c, s) && Enabled(c, s, act) && !act.Finish?
    ensures !Apply(c, s, act).succeeded
  {
  }

  /** A run has returned Ok exactly when it has come to its end and nothing went
      wrong in it. */
  lemma OkIffNothingWentWrong(c: Config, acts: seq<Action>)
    requires Sound(c.archive) && IsExecution(c, acts)
    ensures After(c, acts).succeeded <==>
              acts != [] && acts[|acts| - 1].Finish? && WentWell(c, acts[..|acts| - 1])
  {
    if acts != [] {
      var front, act := acts[..|acts| - 1], acts[|acts| - 1];
      ExecutionKeeps(c, front);
      if act.Finish? {
        WentWellIff(c, front);
        FinishOkIff(c, After(c, front));
      } else {
        OnlyFinishIsOk(c, After(c, front), act);
      }
    }
  }

  // ---- what is in flight --------------------------------------------------

  lemma StepKeepsBound(c: Config, s: Sys, act: Action)
    requires Enabled(c, s, act) && (s.run.Some? ==> |s.run.value.channel| <= c.maxRunners)
    ensures var later := Apply(c, s, act);
            later.run.Some? ==> |later.run.value.channel| <= c.maxRunners
  {
    match act
    case HandleNext(fault) => HandleShortens(s, s.run.value, fault);
    case LaunchMore(_, reply, scripts) => ApplyLaunchParts(c, s.run.value, reply, scripts);
    case _ =>
  }

  lemma HandleShortens(s: Sys, r: Run, fault: Fault)
    requires r.channel != []
    ensures var later := ApplyHandle(s, r, fault);
            later.run.Some? && |later.run.value.channel| == |r.channel| - 1
  {
  }

  /** At any time there are at most as many workers as runners, and at most as
      many messages wait for the writer as runners are configured. */
  lemma {:induction false} InFlightIsBounded(c: Config, acts: seq<Action>)
    requires Sound(c.archive) && IsExecution(c, acts) && After(c, acts).run.Some?
    ensures var r := After(c, acts).run.value;
            |r.channel| <= c.maxRunners && |Live(r)| <= Min(c.maxRunners, MAX_OPENED_FILES)
  {
    var front := acts[..|acts| - 1];
    ExecutionKeeps(c, acts);
    if After(c, front).run.Some? {
      InFlightIsBounded(c, front);
    }
    StepKeepsBound(c, After(c, front), acts[|acts| - 1]);
  }

  // ---- that a run can return Ok -------------------------------------------

  /** Workers that deliver their whole chunks. */
  ghost predicate DeliverAll(c: Config, scripts: nat -> Script) {
    forall i :: 0 <= i < Total(c) ==> Legit(c.archive, i, scripts(i)) && scripts(i).complete
  }

  /** A step without any trouble: requests are answered exactly, and the workers
      are the given ones. */
  ghost predicate IsSmooth(c: Config, act: Action, scripts: nat -> Script) {
    match act
    case LaunchMore(request, reply, launched) =>
      && reply.Some? && IsExactReply(reply.value, request)
      && forall i :: i in launched ==> i < Total(c) && launched[i] == scripts(i)
    case HandleNext(fault) => fault.NoFault?
    case SkipLaunch => false
    case WriterStops => false
    case StopParent => false
    case Crash => false
    case _ => true
  }

  lemma LaunchSmoothly(c: Config, r: Run, scripts: nat -> Script) returns (act: Action)
    requires QueueInv(c, r) && r.phase.Launching? && r.childUp && DeliverAll(c, scripts)
    ensures act.LaunchMore? && IsSmooth(c, act, scripts) && MayHappenInRun(c, r, act)
    ensures LaunchesLegit(c.archive, act)
  {
    var request := SomeRequest(r.queue.remaining, Runners(c));
    ExactIsUsable(request, request, r.queue.remaining, Runners(c));
    var q := Launched(c, r, Some(request));
    LaunchedConserves(c, r, Some(request));
    assert forall i :: i in q.launched ==> i in Elements(q.launched);
    act := LaunchMore(request, Some(request), map i | i in Elements(q.launched) :: scripts(i));
  }

  /** A run without trouble can go on without trouble. */
  lemma GoOnSmoothly(c: Config, s: Sys, scripts: nat -> Script) returns (act: Action)
    requires Inv(c, s) && s.run.Some? && s.run.value.childUp && DeliverAll(c, scripts)
    ensures Enabled(c, s, act) && IsSmooth(c, act, scripts) && !act.Begin?
  {
    var r := s.run.value;
    match r.phase
    case Launching => act := LaunchSmoothly(c, r, scripts);
    case Waiting =>
      forall i | i in r.workers
        ensures r.workers[i].sent <= |r.workers[i].script.msgs|
      {
        assert InBounds(c.archive, i, r.workers[i]);
      }
      act := WorkerCanGoOn(c, r);
    case Draining =>
      act := if !r.writer.Up? then Finish else if r.channel == [] then WriterDrained else HandleNext(NoFault);
  }

  /** Nothing went wrong and no empty reply was met. */
  ghost predicate IsFine(s: Sys) {
    s.run.Some? && Untroubled(s.run.value) && !s.run.value.starved
  }

  lemma SmoothLaunchFeeds(c: Config, r: Run, act: Action, scripts: nat -> Script)
    requires Runners(c) > 0 && act.LaunchMore? && IsSmooth(c, act, scripts) && MayHappenInRun(c, r, act)
    ensures !Starves(r, act.reply)
  {
    if Asks(r) {
      ExactIsUsable(act.reply.value, act.request, r.queue.remaining, Runners(c));
    }
  }

  lemma SmoothStaysFine(c: Config, s: Sys, act: Action, scripts: nat -> Script)
    requires Inv(c, s) && IsFine(s) && Enabled(c, s, act) && IsSmooth(c, act, scripts) && DeliverAll(c, scripts)
    requires !act.Finish?
    ensures IsFine(Apply(c, s, act))
  {
    StepTrouble(c, s, act);
    if act.LaunchMore? {
      SmoothLaunchFeeds(c, s.run.value, act, scripts);
    }
  }

  lemma FedEndIsComplete(c: Config, s: Sys)
    requires Inv(c, s) && s.succeeded && !s.starved
    ensures IsComplete(c, s.store.log)
  {
  }

  lemma SmoothEndIsComplete(c: Config, s: Sys)
    requires Sound(c.archive) && Inv(c, s) && IsFine(s) && Enabled(c, s, Finish)
    ensures Apply(c, s, Finish).succeeded && IsComplete(c, Apply(c, s, Finish).store.log)
  {
    FinishOkIff(c, s);
    StepKeeps(c, s, Finish);
    FedEndIsComplete(c, Apply(c, s, Finish));
  }

  lemma SmoothStep(c: Config, acts: seq<Action>, scripts: nat -> Script) returns (act: Action)
    requires Sound(c.archive) && IsExecution(c, acts) && IsFine(After(c, acts)) && DeliverAll(c, scripts)
    ensures IsExecution(c, acts + [act]) && IsSmooth(c, act, scripts)
    ensures var later := After(c, acts + [act]);
            if act.Finish? then later.succeeded && IsComplete(c, later.store.log)
            else IsFine(later) && Below(RankOf(later.run.value), RankOf(After(c, acts).run.value))
  {
    var s := After(c, acts);
    ExecutionKeeps(c, acts);
    act := GoOnSmoothly(c, s, scripts);
    AfterMore(c, acts, act);
    if act.Finish? {
      SmoothEndIsComplete(c, s);
    } else {
      SmoothStaysFine(c, s, act, scripts);
      StepLowers(c, s, act);
    }
  }

  ghost predicate AllSmooth(c: Config, acts: seq<Action>, scripts: nat -> Script) {
    forall k :: 0 <= k < |acts| ==> IsSmooth(c, acts[k], scripts)
  }

  /** A run in which nothing went wrong so far can still end with Ok and all
      chunks recorded. */
  lemma {:induction false} RunCanEndWell(c: Config, acts: seq<Action>, scripts: nat -> Script)
    returns (more: seq<Action>)
    requires Sound(c.archive) && IsExecution(c, acts) && IsFine(After(c, acts)) && DeliverAll(c, scripts)
    ensures IsExecution(c, acts + more) && AllSmooth(c, more, scripts)
    ensures After(c, acts + more).succeeded && IsComplete(c, After(c, acts + more).store.log)
    decreases RankOf(After(c, acts).run.value).remaining, RankOf(After(c, acts).run.value).live,
              RankOf(After(c, acts).run.value).unsent, RankOf(After(c, acts).run.value).inChannel,
              RankOf(After(c, acts).run.value).phase, RankOf(After(c, acts).run.value).flags
  {
    var act := SmoothStep(c, acts, scripts);
    if act.Finish? {
      more := [act];
    } else {
      more := RunCanEndWell(c, acts + [act], scripts);
      Associate(acts, [act], more);
      more := [act] + more;
    }
  }

  lemma BeginIsFine(c: Config, s: Sys)
    requires s.run.None? && c.maxRunners > 0
    ensures Enabled(c, s, Begin) && IsFine(Apply(c, s, Begin))
  {
  }

  /** Wherever earlier runs left off, whatever failed in them, the next run can
      return Ok with all chunks recorded; and it writes what is missing. */
  lemma NextRunCanSucceed(c: Config, acts: seq<Action>, scripts: nat -> Script) returns (more: seq<Action>)
    requires Sound(c.archive) && IsExecution(c, acts) && After(c, acts).run.None?
    requires c.maxRunners > 0 && DeliverAll(c, scripts)
    ensures more != [] && more[0].Begin? && IsExecution(c, acts + more) && AllSmooth(c, more, scripts)
    ensures After(c, acts + more).succeeded && !EndsOnEmptyReply(c, acts + more)
    ensures Elements(After(c, acts + more).store.log) == Indexes(Total(c))
    ensures Within(c.archive.files, c.initial) ==> After(c, acts + more).store.disk == c.archive.files
  {
    BeginIsFine(c, After(c, acts));
    AfterMore(c, acts, Begin);
    var rest := RunCanEndWell(c, acts + [Begin], scripts);
    more := [Begin] + rest;
    Associate(acts, [Begin], rest);
    SuccessMeansComplete(c, acts + more);
    SuccessMeansSameFiles(c, acts + more);
  }

  // ---- such workers exist -------------------------------------------------

  /** The messages of a worker that got all of `data` in one piece. */
  function WholeScript(ds: seq<FileLocation>, index: nat, data: Bytes): Script {
    Script(Split(Reversed(ds), data).parts + [EndOfChunk(index)], data, true)
  }

  lemma WholeDelivers(ds: seq<FileLocation>, index: nat, data: Bytes)
    requires |data| == |AllCells(ds)|
    ensures var s := WholeScript(ds, index, data);
            && Delivered(ds, Parts(s), data) && Touched(Parts(s)) == Paths(ds)
            && s.msgs[|s.msgs| - 1] == EndOfChunk(index)
  {
    var r := Split(Reversed(ds), data);
    NothingSent(ds);
    SendMore(ds, [], [], Reversed(ds), data);
    assert [] + r.parts == r.parts && [] + data[..|data|] == data;
    AllSent(ds, r.parts, data, r.stack);
    assert (r.parts + [EndOfChunk(index)])[..|r.parts|] == r.parts;
  }

  /** The worker of a published chunk whose object is served as it was stored. */
  function ServedScript(u: Upload, decode: Bytes -> Bytes, c: Chunk): Script {
    match Body(u, c.destinations)
    case None => Script([], [], false)
    case Some(body) => WholeScript(c.destinations, c.index, decode(body))
  }

  lemma ServedIsFetched(u: Upload, a: Archive, i: nat, c: Chunk, decode: Bytes -> Bytes)
    requires i < |a.chunks| && a.files == u.files && IsUploaded(u, i, a.chunks[i], c) && Decodes(u.code, decode)
    ensures Fetched(u.hash, decode, c, ServedScript(u, decode, c)) && ServedScript(u, decode, c).complete
  {
    BodyDecodes(u, c.destinations, decode);
    var body := Body(u, c.destinations).value;
    WholeDelivers(c.destinations, c.index, decode(body));
    assert u.hash(body) == c.checksum;
  }

  lemma ServedDelivers(u: Upload, a: Archive, i: nat, c: Chunk, decode: Bytes -> Bytes)
    requires i < |a.chunks| && a.files == u.files && IsUploaded(u, i, a.chunks[i], c) && Decodes(u.code, decode)
    requires Authenticates(u.hash, Body(u, a.chunks[i]).value)
    ensures Legit(a, i, ServedScript(u, decode, c)) && ServedScript(u, decode, c).complete
    ensures Fetched(u.hash, decode, c, ServedScript(u, decode, c))
  {
    ServedIsFetched(u, a, i, c, decode);
    assert c.(url := None) == c;
    FetchedIsLegit(u, a, i, c, decode, ServedScript(u, decode, c));
  }

  function AllServed(u: Upload, decode: Bytes -> Bytes, manifest: seq<Chunk>): nat -> Script {
    (i: nat) => if i < |manifest| then ServedScript(u, decode, manifest[i]) else Script([], [], false)
  }

  lemma ServedDeliverAll(u: Upload, decode: Bytes -> Bytes, manifest: seq<Chunk>, c: Config)
    requires c.archive.files == u.files && AllUploaded(u, c.archive.chunks, manifest) && Decodes(u.code, decode)
    requires forall i :: 0 <= i < Total(c) ==> Authenticates(u.hash, Body(u, c.archive.chunks[i]).value)
    ensures DeliverAll(c, AllServed(u, decode, manifest))
    ensures forall i :: 0 <= i < Total(c) ==> Fetched(u.hash, decode, manifest[i], AllServed(u, decode, manifest)(i))
  {
    forall i | 0 <= i < Total(c)
      ensures Legit(c.archive, i, AllServed(u, decode, manifest)(i)) && AllServed(u, decode, manifest)(i).complete
      ensures Fetched(u.hash, decode, manifest[i], AllServed(u, decode, manifest)(i))
    {
      ServedDelivers(u, c.archive, i, manifest[i], decode);
    }
  }

  lemma {:induction false} ExecutionIsDownload(c: Config, hash: Bytes -> Bytes, decode: Bytes -> Bytes,
                                               manifest: seq<Chunk>, acts: seq<Action>)
    requires IsExecution(c, acts)
    requires forall k :: 0 <= k < |acts| ==> FetchesFrom(hash, decode, manifest, acts[k])
    ensures IsDownloadOf(c, hash, decode, manifest, acts)
  {
    if acts != [] {
      ExecutionIsDownload(c, hash, decode, manifest, acts[..|acts| - 1]);
    }
  }

  /** The round trip takes place: every uploaded manifest of a plan that fits its
      slots has a download that returns Ok with the files. */
  lemma RoundTripTakesPlace(u: Upload, slots: nat, stack: seq<FileLocation>, manifest: seq<Chunk>,
                            decode: Bytes -> Bytes, c: Config) returns (acts: seq<Action>)
    requires slots > 0 && IsListing(u.files, stack) && SlotsFit(slots, stack)
    requires c.archive == Archive(u.files, PlanAll(slots, stack).0) && c.maxRunners > 0
    requires AllUploaded(u, c.archive.chunks, manifest) && Decodes(u.code, decode)
    requires forall i :: 0 <= i < Total(c) ==> Authenticates(u.hash, Body(u, c.archive.chunks[i]).value)
    requires Within(u.files, c.initial)
    ensures IsDownloadOf(c, u.hash, decode, manifest, acts)
    ensures After(c, acts).succeeded && !EndsOnEmptyReply(c, acts) && After(c, acts).store.disk == u.files
  {
    var scripts := AllServed(u, decode, manifest);
    ManifestIsSoundIff(u.files, slots, stack);
    ServedDeliverAll(u, decode, manifest, c);
    acts := NextRunCanSucceed(c, [], scripts);
    assert [] + acts == acts;
    forall k | 0 <= k < |acts|
      ensures FetchesFrom(u.hash, decode, manifest, acts[k])
    {
      assert IsSmooth(c, acts[k], scripts);
    }
    ExecutionIsDownload(c, u.hash, decode, manifest, acts);
  }
}
