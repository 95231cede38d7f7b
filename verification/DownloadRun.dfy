/** A whole download as a transition system: the main loop of
    `ClientDownloader::run`, its chunk workers, the bounded channel, the writer,
    the run flags, and any number of runs of the same manifest, each of which
    may be cut short by a crash. */
module DownloadRun {
  import opened Layout
  import opened ChunkDownload
  import opened ChunkQueue
  import opened FileWriter

  // ---- what is downloaded -------------------------------------------------

  /** The source files, and the destinations of each chunk. */
  datatype Archive = Archive(files: Disk, chunks: seq<seq<FileLocation>>)

  function CellsOf(a: Archive, i: nat): seq<Cell>
    requires i < |a.chunks|
  {
    AllCells(a.chunks[i])
  }

  predicate IsFileCell(files: Disk, c: Cell) {
    c.0 in files && c.1 < |files[c.0]|
  }

  /** Every byte of every file is in exactly one place of the manifest, and the
      manifest names all the files and no others. */
  ghost predicate Sound(a: Archive) {
    && (forall i, k :: 0 <= i < |a.chunks| && 0 <= k < |CellsOf(a, i)| ==> IsFileCell(a.files, CellsOf(a, i)[k]))
    && (forall i :: 0 <= i < |a.chunks| ==> NoRepeats(CellsOf(a, i)))
    && (forall i, j :: 0 <= i < j < |a.chunks| ==> Apart(CellsOf(a, i), CellsOf(a, j)))
    && (forall c: Cell :: IsFileCell(a.files, c) ==> exists i :: 0 <= i < |a.chunks| && c in CellsOf(a, i))
    && (forall p :: p in a.files <==> exists i :: 0 <= i < |a.chunks| && p in Paths(a.chunks[i]))
  }

  ghost predicate Apart(a: seq<Cell>, b: seq<Cell>) {
    forall k, l :: 0 <= k < |a| && 0 <= l < |b| ==> a[k] != b[l]
  }

  // ---- the state ----------------------------------------------------------

  /** Everything one worker will send: `data` is what its parts write, and it
      ends with the end marker if it is complete. */
  datatype Script = Script(msgs: seq<ChunkData>, data: Bytes, complete: bool)

  function Parts(s: Script): seq<ChunkData> {
    if s.complete && s.msgs != [] then s.msgs[..|s.msgs| - 1] else s.msgs
  }

  /** What `ChunkDownloader.DownloadChunk` promises of the messages of chunk
      `i`: a worker that fails may have written garbage, but only to the cells
      of its chunk; one that completes wrote the right bytes and opened all files. */
  ghost predicate Legit(a: Archive, i: nat, s: Script) {
    && i < |a.chunks|
    && Delivered(a.chunks[i], Parts(s), s.data)
    && (s.complete ==>
          && s.msgs != [] && s.msgs[|s.msgs| - 1] == EndOfChunk(i)
          && BytesAt(a.files, CellsOf(a, i), s.data)
          && Touched(Parts(s)) == Paths(a.chunks[i]))
  }

  /** `sent` and `handled` count messages put into the channel and taken out. */
  datatype Worker = Worker(script: Script, sent: nat, handled: nat, live: bool)

  datatype Phase = Launching | Waiting | Draining
  datatype WriterState = Up | Stopped | Failed

  datatype Run = Run(
    queue: Queue,
    base: set<nat>,                     // recorded before this run
    workers: map<nat, Worker>,          // by chunk index
    channel: seq<(nat, ChunkData)>,     // tagged with the sender
    phase: Phase,
    parentUp: bool, childUp: bool,      // run flags
    failed: bool,                       // an error was latched
    writer: WriterState,
    starved: bool)                      // observed: an empty reply ended the run

  /** `header` is the saved metadata file; `succeeded` says that the last run
      returned Ok, `starved` that it ended on an empty reply. */
  datatype Sys = Sys(store: Store, header: bool, run: Option<Run>, succeeded: bool, starved: bool)

  /** `initial` is what the destination holds before the first run, and
      `maxRunners` the configured number of runners. */
  datatype Config = Config(archive: Archive, initial: Disk, maxRunners: nat)

  const MAX_OPENED_FILES: nat := 1024

  /** As many workers as runners are configured and files may be opened. */
  function Runners(c: Config): nat {
    Min(c.maxRunners, MAX_OPENED_FILES)
  }

  function Total(c: Config): nat {
    |c.archive.chunks|
  }

  function Live(r: Run): set<nat> {
    set i | i in r.workers && r.workers[i].live
  }

  function Fresh(c: Config): Sys {
    Sys(Store(c.initial, []), false, None, false, false)
  }

  // ---- the steps ----------------------------------------------------------

  datatype Action =
    | Begin
    | LaunchMore(request: seq<nat>, reply: Option<seq<nat>>, scripts: map<nat, Script>)
    | SkipLaunch
    | Send(i: nat)
    | HandleNext(fault: Fault)
    | WriterStops
    | WriterDrained
    | Join(i: nat)
    | NoMoreWorkers
    | StopParent
    | Finish
    | Crash

  function Asks(r: Run): bool {
    r.queue.remaining != {} && r.queue.buffered == []
  }

  /** The queue after `launch_more` with the given reply. */
  function Launched(c: Config, r: Run, reply: Option<seq<nat>>): Queue {
    if r.queue.remaining == {} then r.queue
    else
      var q := if Asks(r) && reply.Some? then r.queue.(buffered := reply.value) else r.queue;
      LaunchAny(q, if |Live(r)| <= Runners(c) then Runners(c) - |Live(r)| else 0)
  }

  /** The server answers with nothing while indexes remain and no worker is in
      flight: the main loop then takes the download for finished. */
  predicate Starves(r: Run, reply: Option<seq<nat>>) {
    Asks(r) && reply == Some([]) && Live(r) == {}
  }

  /** A channel without capacity cannot be created: without a configured runner
      the run panics before it begins. */
  ghost predicate MayHappen(c: Config, s: Sys, act: Action) {
    match s.run
    case None => act.Begin? && c.maxRunners > 0
    case Some(r) => MayHappenInRun(c, r, act)
  }

  ghost predicate MayHappenInRun(c: Config, r: Run, act: Action) {
    match act
    case Begin => false
    case LaunchMore(request, reply, scripts) =>
      && r.phase.Launching? && r.childUp
      && (Asks(r) ==> IsRequest(request, r.queue.remaining, Runners(c)))
      && (Asks(r) && reply.Some? ==> IsUsableReply(reply.value, r.queue.remaining))
      && (forall i :: i in Launched(c, r, reply).launched && i !in r.workers ==> i in scripts)
    case SkipLaunch => r.phase.Launching? && !r.childUp
    case Send(i) =>
      && i in r.workers && r.workers[i].live && r.workers[i].sent < |r.workers[i].script.msgs|
      && r.writer.Up? && |r.channel| < c.maxRunners
    case HandleNext(_) => r.writer.Up? && r.channel != []
    case WriterStops => r.writer.Up? && !r.childUp
    case WriterDrained => r.writer.Up? && r.phase.Draining? && r.channel == []
    case Join(i) =>
      && r.phase.Waiting? && i in r.workers && r.workers[i].live
      && (r.workers[i].sent == |r.workers[i].script.msgs| || !r.writer.Up?)
    case NoMoreWorkers => r.phase.Waiting? && Live(r) == {}
    case StopParent => r.parentUp
    case Finish => r.phase.Draining? && !r.writer.Up?
    case Crash => true
  }

  /** Workers that are launched behave as `ChunkDownloader.DownloadChunk` promises. */
  ghost predicate LaunchesLegit(a: Archive, act: Action) {
    act.LaunchMore? ==> forall i :: i in act.scripts ==> Legit(a, i, act.scripts[i])
  }

  ghost predicate Enabled(c: Config, s: Sys, act: Action) {
    MayHappen(c, s, act) && LaunchesLegit(c.archive, act)
  }

  function Apply(c: Config, s: Sys, act: Action): Sys {
    match s.run
    case None => if act.Begin? then ApplyBegin(c, s) else s
    case Some(r) => ApplyInRun(c, s, r, act)
  }

  function ApplyBegin(c: Config, s: Sys): Sys {
    var recorded := if s.header then Elements(s.store.log) else {};
    s.(header := true, succeeded := false, starved := false,
       run := Some(Run(Queue(Indexes(Total(c)) - recorded, [], []), recorded, map[], [],
                       Launching, true, true, false, Up, false)))
  }

  function ApplyInRun(c: Config, s: Sys, r: Run, act: Action): Sys {
    match act
    case Begin => s
    case LaunchMore(_, reply, scripts) => s.(run := Some(ApplyLaunch(c, r, reply, scripts)))
    case SkipLaunch => s.(run := Some(r.(phase := Waiting)))
    case Send(i) =>
      if i in r.workers && r.workers[i].sent < |r.workers[i].script.msgs| then
        s.(run := Some(ApplySend(r, i)))
      else s
    case HandleNext(fault) => if r.channel == [] then s else ApplyHandle(s, r, fault)
    case WriterStops => s.(run := Some(r.(writer := Stopped)))
    case WriterDrained => s.(run := Some(r.(writer := Stopped)))
    case Join(i) => if i in r.workers then s.(run := Some(ApplyJoin(r, i))) else s
    case NoMoreWorkers => s.(run := Some(r.(phase := Draining)))
    case StopParent => s.(run := Some(r.(parentUp := false, childUp := false)))
    case Finish =>
      s.(run := None, starved := r.starved, succeeded := r.writer.Stopped? && !r.failed && r.parentUp)
    case Crash => s.(run := None, starved := r.starved, succeeded := false)
  }

  /** `launch_more`; a failed request for chunks is latched as an error. */
  function ApplyLaunch(c: Config, r: Run, reply: Option<seq<nat>>, scripts: map<nat, Script>): Run {
    if Asks(r) && reply.None? then r.(phase := Waiting, failed := true, childUp := false)
    else
      var q := Launched(c, r, reply);
      var added := map i | i in q.launched && i !in r.workers && i in scripts :: Worker(scripts[i], 0, 0, true);
      r.(phase := Waiting, queue := q, workers := r.workers + added, starved := Starves(r, reply))
  }

  function ApplySend(r: Run, i: nat): Run
    requires i in r.workers && r.workers[i].sent < |r.workers[i].script.msgs|
  {
    var w := r.workers[i];
    r.(workers := r.workers[i := w.(sent := w.sent + 1)],
       channel := r.channel + [(i, w.script.msgs[w.sent])])
  }

  /** The writer takes one message; an error stops it and the child flag. */
  function ApplyHandle(s: Sys, r: Run, fault: Fault): Sys
    requires r.channel != []
  {
    var (i, m) := r.channel[0];
    var (store, ok) := Handle(s.store, m, fault);
    var rest := r.(channel := r.channel[1..]);
    s.(store := store,
       run := Some(
         if !ok then rest.(writer := Failed, childUp := false)
         else if i in r.workers then
           rest.(workers := r.workers[i := r.workers[i].(handled := r.workers[i].handled + 1)])
         else rest))
  }

  /** The main loop collects one finished worker; one that failed, or could not
      send to a writer that is gone, is latched as an error. */
  function ApplyJoin(r: Run, i: nat): Run
    requires i in r.workers
  {
    var w := r.workers[i];
    var ok := w.script.complete && w.sent == |w.script.msgs|;
    r.(phase := Launching, workers := r.workers[i := w.(live := false)],
       failed := r.failed || !ok, childUp := r.childUp && ok)
  }

  /** Executions: any sequence of enabled actions from the fresh state. */
  function After(c: Config, acts: seq<Action>): Sys {
    if acts == [] then Fresh(c)
    else Apply(c, After(c, acts[..|acts| - 1]), acts[|acts| - 1])
  }

  ghost predicate IsExecution(c: Config, acts: seq<Action>) {
    acts != [] ==>
      && IsExecution(c, acts[..|acts| - 1])
      && Enabled(c, After(c, acts[..|acts| - 1]), acts[|acts| - 1])
  }
}
