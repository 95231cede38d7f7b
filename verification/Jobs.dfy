/** Jobs, their states and status files, and what the jobs manager does to one
    job at a time (`deps_finished`, `start_job`, `handle_stopped_job`). */
module Jobs {
  import opened Layout

  type Name = string
  type Pid = nat

  datatype RestartPolicy = Never | Always | OnFailure

  datatype JobConfig = JobConfig(needs: Option<seq<Name>>, waitFor: Option<seq<Name>>, restart: RestartPolicy)

  datatype JobStatus =
    | Pending(waitingFor: seq<Name>)
    | Running
    | Finished(exitCode: Option<int>, message: string)
    | Stopped

  datatype JobState = Active(pid: Pid) | Inactive(status: JobStatus)
  datatype Job = Job(config: JobConfig, state: JobState)

  function ListOf<T>(items: Option<seq<T>>): seq<T> {
    match items case None => [] case Some(s) => s
  }

  function WaitingFor(c: JobConfig): seq<Name> {
    ListOf(c.needs) + ListOf(c.waitFor)
  }

  // ---- the world ----------------------------------------------------------

  datatype Phase = NotReady | Ready | Shutdown

  /** `jobs` is the registry in memory; `configs` and `files` are the config and
      status files; `runners` the live job runner processes. */
  datatype World = World(
    jobs: map<Name, Job>,
    configs: map<Name, JobConfig>,
    files: map<Name, JobStatus>,
    runners: set<(Name, Pid)>,
    phase: Phase,
    loaded: bool)

  /** One job's part of the world. */
  datatype Slot = Slot(state: JobState, file: Option<JobStatus>, runners: set<Pid>)

  function FileOf(w: World, n: Name): Option<JobStatus> {
    if n in w.files then Some(w.files[n]) else None
  }

  function RunnersOf(w: World, n: Name): set<Pid> {
    set r | r in w.runners && r.0 == n :: r.1
  }

  function Pids(w: World): set<Pid> {
    set r | r in w.runners :: r.1
  }

  function SlotOf(w: World, n: Name): Slot
    requires n in w.jobs
  {
    Slot(w.jobs[n].state, FileOf(w, n), RunnersOf(w, n))
  }

  /** The world after the jobs `names` moved to the slots `step` gives them. */
  function ApplyTo(w: World, names: set<Name>, step: Name -> Slot): World
    requires names <= w.jobs.Keys
  {
    w.(jobs := map n | n in w.jobs :: if n in names then w.jobs[n].(state := step(n).state) else w.jobs[n],
       files := map n | n in w.files.Keys + names && (n in names ==> step(n).file.Some?) ::
                  if n in names then step(n).file.value else w.files[n],
       runners := (set r | r in w.runners && r.0 !in names)
                  + set n, p | n in names && p in step(n).runners :: (n, p))
  }

  function Put(w: World, n: Name, slot: Slot): World
    requires n in w.jobs
  {
    ApplyTo(w, {n}, _ => slot)
  }

  lemma AppliedSlot(w: World, names: set<Name>, step: Name -> Slot, m: Name)
    requires names <= w.jobs.Keys && m in w.jobs
    ensures SlotOf(ApplyTo(w, names, step), m) == if m in names then step(m) else SlotOf(w, m)
  {
    RunnersAfter(w, names, step, m);
  }

  lemma RunnersAfter(w: World, names: set<Name>, step: Name -> Slot, m: Name)
    requires names <= w.jobs.Keys
    ensures RunnersOf(ApplyTo(w, names, step), m) == if m in names then step(m).runners else RunnersOf(w, m)
  {
    var later := ApplyTo(w, names, step);
    forall p
      ensures p in RunnersOf(later, m) <==> p in (if m in names then step(m).runners else RunnersOf(w, m))
    {
      assert p in RunnersOf(later, m) <==> (m, p) in later.runners;
      assert p in RunnersOf(w, m) <==> (m, p) in w.runners;
    }
  }

  /** A world is determined by its parts. */
  lemma SameWorld(v: World, w: World)
    requires v.configs == w.configs && v.phase == w.phase && v.loaded == w.loaded && v.jobs.Keys == w.jobs.Keys
    requires forall n :: n in v.jobs ==> v.jobs[n] == w.jobs[n]
    requires forall n :: FileOf(v, n) == FileOf(w, n)
    requires forall n :: RunnersOf(v, n) == RunnersOf(w, n)
    ensures v == w
  {
    forall r: (Name, Pid)
      ensures r in v.runners <==> r in w.runners
    {
      assert r in v.runners <==> r.1 in RunnersOf(v, r.0);
      assert r in w.runners <==> r.1 in RunnersOf(w, r.0);
    }
    assert v.runners == w.runners;
    assert v.jobs == w.jobs;
    assert v.files.Keys == w.files.Keys by {
      assert forall n :: n in v.files <==> FileOf(v, n).Some?;
      assert forall n :: n in w.files <==> FileOf(w, n).Some?;
    }
    forall n | n in v.files
      ensures v.files[n] == w.files[n]
    {
      assert FileOf(v, n) == FileOf(w, n);
    }
    assert v.files == w.files;
  }

  lemma ApplyNone(w: World, step: Name -> Slot)
    ensures ApplyTo(w, {}, step) == w
  {
    var later := ApplyTo(w, {}, step);
    forall n
      ensures RunnersOf(later, n) == RunnersOf(w, n)
    {
      RunnersAfter(w, {}, step, n);
    }
    SameWorld(later, w);
  }

  lemma ApplyOneMore(w: World, names: set<Name>, step: Name -> Slot, n: Name)
    requires names <= w.jobs.Keys && n in w.jobs
    ensures Put(ApplyTo(w, names, step), n, step(n)) == ApplyTo(w, names + {n}, step)
  {
    var some := ApplyTo(w, names, step);
    var v := Put(some, n, step(n));
    var more := ApplyTo(w, names + {n}, step);
    forall m
      ensures RunnersOf(v, m) == RunnersOf(more, m) && FileOf(v, m) == FileOf(more, m)
    {
      RunnersAfter(w, names, step, m);
      RunnersAfter(w, names + {n}, step, m);
      RunnersAfter(some, {n}, _ => step(n), m);
    }
    SameWorld(v, more);
  }

  /** Of two moves of one job the last counts. */
  lemma Twice(w: World, n: Name, a: Slot, b: Slot)
    requires n in w.jobs
    ensures var v := Put(w, n, a);
            && n in v.jobs && SlotOf(v, n) == a && v.jobs[n].config == w.jobs[n].config
            && Put(v, n, b) == Put(w, n, b)
  {
    var v := Put(w, n, a);
    AppliedSlot(w, {n}, _ => a, n);
    forall m
      ensures RunnersOf(Put(v, n, b), m) == RunnersOf(Put(w, n, b), m)
    {
      RunnersAfter(w, {n}, _ => a, m);
      RunnersAfter(v, {n}, _ => b, m);
      RunnersAfter(w, {n}, _ => b, m);
    }
    SameWorld(Put(v, n, b), Put(w, n, b));
  }

  function SetFile(files: map<Name, JobStatus>, n: Name, file: Option<JobStatus>): map<Name, JobStatus> {
    match file case None => files - {n} case Some(s) => files[n := s]
  }

  /** Changing the parts of one job is moving it to another slot. */
  lemma PutParts(w: World, n: Name, slot: Slot)
    requires n in w.jobs
    ensures Put(w, n, slot) ==
            w.(jobs := w.jobs[n := w.jobs[n].(state := slot.state)],
               files := SetFile(w.files, n, slot.file),
               runners := (set r | r in w.runners && r.0 != n) + set p | p in slot.runners :: (n, p))
  {
    var v := w.(jobs := w.jobs[n := w.jobs[n].(state := slot.state)],
                files := SetFile(w.files, n, slot.file),
                runners := (set r | r in w.runners && r.0 != n) + set p | p in slot.runners :: (n, p));
    forall m
      ensures RunnersOf(Put(w, n, slot), m) == RunnersOf(v, m)
    {
      RunnersAfter(w, {n}, _ => slot, m);
      assert forall p :: p in RunnersOf(v, m) <==> (m, p) in v.runners;
      assert forall p :: p in RunnersOf(w, m) <==> (m, p) in w.runners;
    }
    SameWorld(Put(w, n, slot), v);
  }

  // ---- dependencies -------------------------------------------------------

  datatype Deps = AllDone | NotYet | Broken(message: string)

  predicate Succeeded(s: JobState) {
    s.Inactive? && s.status.Finished? && s.status.exitCode == Some(0)
  }

  predicate Ended(s: JobState) {
    s.Inactive? && (s.status.Finished? || s.status.Stopped?)
  }

  function NeedsCheck(deps: map<Name, Job>, needs: seq<Name>): Deps {
    if needs == [] then AllDone
    else if needs[0] !in deps then Broken("a needed job is not defined")
    else
      var s := deps[needs[0]].state;
      if Succeeded(s) then NeedsCheck(deps, needs[1..])
      else if Ended(s) then Broken(if s.status.Stopped? then "a needed job was stopped" else "a needed job failed")
      else NotYet
  }

  function WaitCheck(deps: map<Name, Job>, waitFor: seq<Name>): Deps {
    if waitFor == [] then AllDone
    else if waitFor[0] !in deps then Broken("an awaited job is not defined")
    else if Ended(deps[waitFor[0]].state) then WaitCheck(deps, waitFor[1..])
    else NotYet
  }

  /** Needs are looked at before the awaited jobs, each in order. */
  function DepsOf(deps: map<Name, Job>, c: JobConfig): Deps {
    var r := NeedsCheck(deps, ListOf(c.needs));
    if r.AllDone? then WaitCheck(deps, ListOf(c.waitFor)) else r
  }

  method DepsFinished(deps: map<Name, Job>, c: JobConfig) returns (r: Deps)
    ensures r == DepsOf(deps, c)
  {
    if c.needs.Some? {
      var needs := c.needs.value;
      for i := 0 to |needs|
        invariant NeedsCheck(deps, needs) == NeedsCheck(deps, needs[i..])
      {
        if needs[i] !in deps {
          return Broken("a needed job is not defined");
        }
        var s := deps[needs[i]].state;
        if !Succeeded(s) {
          if s.Inactive? && s.status.Finished? {
            return Broken("a needed job failed");
          } else if s.Inactive? && s.status.Stopped? {
            return Broken("a needed job was stopped");
          }
          return NotYet;
        }
        assert needs[i..][1..] == needs[i + 1..];
      }
    }
    if c.waitFor.Some? {
      var waitFor := c.waitFor.value;
      for i := 0 to |waitFor|
        invariant WaitCheck(deps, waitFor) == WaitCheck(deps, waitFor[i..])
      {
        if waitFor[i] !in deps {
          return Broken("an awaited job is not defined");
        }
        if !Ended(deps[waitFor[i]].state) {
          return NotYet;
        }
        assert waitFor[i..][1..] == waitFor[i + 1..];
      }
    }
    r := AllDone;
  }

  /** A job may start exactly when all it needs succeeded and all it waits for
      ended. */
  lemma {:induction false} AllDoneIff(deps: map<Name, Job>, c: JobConfig)
    ensures DepsOf(deps, c).AllDone? <==>
              && (forall m :: m in ListOf(c.needs) ==> m in deps && Succeeded(deps[m].state))
              && (forall m :: m in ListOf(c.waitFor) ==> m in deps && Ended(deps[m].state))
  {
    NeedsDoneIff(deps, ListOf(c.needs));
    WaitDoneIff(deps, ListOf(c.waitFor));
  }

  lemma {:induction false} NeedsDoneIff(deps: map<Name, Job>, needs: seq<Name>)
    ensures NeedsCheck(deps, needs).AllDone? <==> forall m :: m in needs ==> m in deps && Succeeded(deps[m].state)
  {
    if needs != [] {
      NeedsDoneIff(deps, needs[1..]);
      assert needs[0] in needs;
      assert forall m :: m in needs <==> m == needs[0] || m in needs[1..];
    }
  }

  lemma {:induction false} WaitDoneIff(deps: map<Name, Job>, waitFor: seq<Name>)
    ensures WaitCheck(deps, waitFor).AllDone? <==> forall m :: m in waitFor ==> m in deps && Ended(deps[m].state)
  {
    if waitFor != [] {
      WaitDoneIff(deps, waitFor[1..]);
      assert waitFor[0] in waitFor;
      assert forall m :: m in waitFor <==> m == waitFor[0] || m in waitFor[1..];
    }
  }

  /** The first needed job that has not succeeded decides: the job fails if that
      one is undefined or over, and waits otherwise. */
  lemma {:induction false} FirstNeedDecides(deps: map<Name, Job>, c: JobConfig, k: nat)
    requires k < |ListOf(c.needs)| && !(ListOf(c.needs)[k] in deps && Succeeded(deps[ListOf(c.needs)[k]].state))
    requires forall i :: 0 <= i < k ==> ListOf(c.needs)[i] in deps && Succeeded(deps[ListOf(c.needs)[i]].state)
    ensures var m := ListOf(c.needs)[k];
            && (DepsOf(deps, c).Broken? <==> m !in deps || Ended(deps[m].state))
            && (DepsOf(deps, c).NotYet? <==> m in deps && !Ended(deps[m].state))
  {
    NeedsFrom(deps, ListOf(c.needs), k);
  }

  lemma {:induction false} NeedsFrom(deps: map<Name, Job>, needs: seq<Name>, k: nat)
    requires k <= |needs| && forall i :: 0 <= i < k ==> needs[i] in deps && Succeeded(deps[needs[i]].state)
    ensures NeedsCheck(deps, needs) == NeedsCheck(deps, needs[k..])
  {
    if k > 0 {
      NeedsFrom(deps, needs[1..], k - 1);
      assert needs[1..][k - 1..] == needs[k..];
    }
  }

  /** When all needs succeeded, the first awaited job that is not over decides. */
  lemma {:induction false} FirstAwaitedDecides(deps: map<Name, Job>, c: JobConfig, k: nat)
    requires forall m :: m in ListOf(c.needs) ==> m in deps && Succeeded(deps[m].state)
    requires k < |ListOf(c.waitFor)| && !(ListOf(c.waitFor)[k] in deps && Ended(deps[ListOf(c.waitFor)[k]].state))
    requires forall i :: 0 <= i < k ==> ListOf(c.waitFor)[i] in deps && Ended(deps[ListOf(c.waitFor)[i]].state)
    ensures if ListOf(c.waitFor)[k] in deps then DepsOf(deps, c).NotYet? else DepsOf(deps, c).Broken?
  {
    NeedsDoneIff(deps, ListOf(c.needs));
    WaitsFrom(deps, ListOf(c.waitFor), k);
  }

  lemma {:induction false} WaitsFrom(deps: map<Name, Job>, waitFor: seq<Name>, k: nat)
    requires k <= |waitFor| && forall i :: 0 <= i < k ==> waitFor[i] in deps && Ended(deps[waitFor[i]].state)
    ensures WaitCheck(deps, waitFor) == WaitCheck(deps, waitFor[k..])
  {
    if k > 0 {
      WaitsFrom(deps, waitFor[1..], k - 1);
      assert waitFor[1..][k - 1..] == waitFor[k..];
    }
  }

  /** A job that has to wait does so for a job that is defined and not over. */
  lemma {:induction false} NotYetBecause(deps: map<Name, Job>, c: JobConfig)
    requires DepsOf(deps, c).NotYet?
    ensures exists m :: m in WaitingFor(c) && m in deps && !Ended(deps[m].state)
  {
    var needs, waitFor := ListOf(c.needs), ListOf(c.waitFor);
    if NeedsCheck(deps, needs).NotYet? {
      var m := NeedsWait(deps, needs);
      assert m in WaitingFor(c);
    } else {
      var m := WaitWait(deps, waitFor);
      assert m in WaitingFor(c);
    }
  }

  lemma {:induction false} NeedsWait(deps: map<Name, Job>, needs: seq<Name>) returns (m: Name)
    requires NeedsCheck(deps, needs).NotYet?
    ensures m in needs && m in deps && !Ended(deps[m].state)
  {
    m := needs[0];
    if Succeeded(deps[m].state) {
      m := NeedsWait(deps, needs[1..]);
    }
  }

  lemma {:induction false} WaitWait(deps: map<Name, Job>, waitFor: seq<Name>) returns (m: Name)
    requires WaitCheck(deps, waitFor).NotYet?
    ensures m in waitFor && m in deps && !Ended(deps[m].state)
  {
    m := waitFor[0];
    if Ended(deps[m].state) {
      m := WaitWait(deps, waitFor[1..]);
    }
  }

  // ---- one job ------------------------------------------------------------

  /** How the operating system answers on behalf of one job. */
  datatype JobIo = JobIo(loads: bool, clears: bool, saves: bool, kills: bool, spawns: Option<Pid>)

  function ClearStatus(file: Option<JobStatus>, io: JobIo): (Option<JobStatus>, bool) {
    if file.None? || io.clears then (None, true) else (file, false)
  }

  function SaveStatus(state: JobState, file: Option<JobStatus>, io: JobIo): (Option<JobStatus>, bool) {
    match state
    case Active(_) => (file, true)
    case Inactive(status) =>
      if status.Running? then ClearStatus(file, io)
      else if io.saves then (Some(status), true)
      else (file, false)
  }

  /** The slot of an inactive job whose status is saved if possible. */
  function Settle(slot: Slot, status: JobStatus, io: JobIo): Slot {
    slot.(state := Inactive(status), file := SaveStatus(Inactive(status), slot.file, io).0)
  }

  const CANNOT_START: JobStatus := Finished(None, "failed to start job")
  const LOST: JobStatus := Finished(None, "can't load job status from file after it stopped")

  function StartJob(slot: Slot, io: JobIo): Slot {
    var (file, cleared) := ClearStatus(slot.file, io);
    if !cleared then slot.(state := Inactive(Running))
    else
      match io.spawns
      case Some(pid) => Slot(Active(pid), file, slot.runners + {pid})
      case None => Settle(slot.(file := file), CANNOT_START, io)
  }

  function HandleStopped(c: JobConfig, slot: Slot, io: JobIo): Slot {
    if !io.loads || slot.file.None? then
      if c.restart.Never? then slot.(state := Inactive(LOST)) else StartJob(slot, io)
    else if slot.file.value.Finished? || slot.file.value.Stopped? then
      slot.(state := Inactive(slot.file.value))
    else StartJob(slot, io)
  }

  function UpdateActive(c: JobConfig, slot: Slot, ps: set<Pid>, io: JobIo): Slot {
    if slot.state.Active? && slot.state.pid !in ps then HandleStopped(c, slot, io) else slot
  }

  function CheckInactive(c: JobConfig, deps: map<Name, Job>, slot: Slot, io: JobIo): Slot {
    match slot.state
    case Active(_) => slot
    case Inactive(status) =>
      if status.Pending? then
        match DepsOf(deps, c)
        case AllDone => StartJob(slot, io)
        case NotYet => slot
        case Broken(message) => Settle(slot, Finished(None, message), io)
      else if status.Running? then HandleStopped(c, slot, io)
      else slot
  }

  /** The runner is terminated before the job gets a new status; false when it
      would not terminate, and nothing changes. */
  function Terminate(slot: Slot, io: JobIo): (Slot, bool) {
    if slot.state.Inactive? then (slot, true)
    else if io.kills then (slot.(runners := slot.runners - {slot.state.pid}), true)
    else (slot, false)
  }

  /** `stop_job`, and `skip` with another status. */
  function EndJob(slot: Slot, status: JobStatus, io: JobIo): (Slot, bool) {
    var (rest, ok) := Terminate(slot, io);
    if !ok then (slot, false)
    else (Settle(rest, status, io), io.saves)
  }

  const SKIPPED: JobStatus := Finished(Some(0), "Skipped")

  /** A job that was active is to be restarted by the next jobs manager. */
  function ShutdownJob(slot: Slot, force: bool, io: JobIo): (Slot, bool) {
    if slot.state.Inactive? then (slot, true)
    else if force then (slot.(state := Inactive(Running), runners := {}), true)
    else
      var (rest, ok) := Terminate(slot, io);
      if ok then (rest.(state := Inactive(Running)), true) else (slot, false)
  }

  /** What a jobs manager that starts finds of a job: its runner, its status
      file, or nothing. */
  function LoadedState(file: Option<JobStatus>, runner: Option<Pid>, io: JobIo): JobState {
    match runner
    case Some(pid) => Active(pid)
    case None => Inactive(if io.loads && file.Some? then file.value else Pending([]))
  }
}
