/** Every run of clients, manager passes, restarts and runner exits: one runner
    per job, and status files that agree with memory. */
module JobsSafety {
  import opened Layout
  import opened Jobs
  import opened JobsManager

  // ---- steps --------------------------------------------------------------

  datatype Action =
    | CreateJob(n: Name, c: JobConfig, io: JobIo, configSaved: bool)
    | StartRequest(n: Name, io: JobIo)
    | StopRequest(n: Name, io: JobIo)
    | SkipRequest(n: Name, io: JobIo)
    | StopAll(names: set<Name>, ios: Io)
    | ShutdownManager(names: set<Name>, force: bool, ios: Io)
    | StartupManager(found: Name -> Option<Pid>, ios: Io)
    | RestartManager                                    // a new process with an empty registry
    | ManagerPass(ps: set<Pid>, first: Io, second: Io)
    | RunnerWrites(n: Name, status: JobStatus)
    | RunnerExits(n: Name, pid: Pid)

  /** A pass reads the process table before it locks the registry, so it may see
      processes that have ended since, but misses none that runs. */
  ghost predicate Allowed(w: World, a: Action) {
    match a
    case StopAll(names, _) => names <= w.jobs.Keys
    case ShutdownManager(names, _, _) => names <= w.jobs.Keys
    case StartupManager(found, _) => IsFound(w, found)
    case ManagerPass(ps, _, _) => w.loaded && Pids(w) <= ps
    case RunnerWrites(n, status) => RunnersOf(w, n) != {} && status.Finished?
    case RunnerExits(n, pid) => (n, pid) in w.runners
    case _ => true
  }

  ghost function Next(w: World, a: Action): World
    requires Allowed(w, a)
  {
    match a
    case CreateJob(n, c, io, saved) => Create(w, n, c, io, saved).0
    case StartRequest(n, io) => Start(w, n, io).0
    case StopRequest(n, io) => End(w, n, Stopped, io).0
    case SkipRequest(n, io) => End(w, n, SKIPPED, io).0
    case StopAll(names, ios) => ApplyTo(w, names, StopStep(w, ios))
    case ShutdownManager(names, force, ios) =>
      var v := w.(phase := Shutdown);
      ApplyTo(v, names, ShutdownStep(v, force, ios))
    case StartupManager(found, ios) => Load(w, found, ios).(phase := Ready, loaded := true)
    case RestartManager => w.(jobs := map[], phase := NotReady, loaded := false)
    case ManagerPass(ps, first, second) => Pass(w, ps, first, second)
    case RunnerWrites(n, status) => w.(files := w.files[n := status])
    case RunnerExits(n, pid) => w.(runners := w.runners - {(n, pid)})
  }

  /** `worlds` is a run: each world is the next one of the world before. */
  ghost predicate IsRun(worlds: seq<World>, acts: seq<Action>) {
    && |worlds| == |acts| + 1
    && IsInitial(worlds[0])
    && forall i :: 0 <= i < |acts| ==> IsNext(worlds[i], acts[i], worlds[i + 1])
  }

  ghost predicate IsNext(w: World, a: Action, later: World) {
    Allowed(w, a) && later == Next(w, a)
  }

  /** A jobs manager that was just created, over any files and runners left by
      an earlier one, at most one runner to a job. */
  ghost predicate IsInitial(w: World) {
    && w.jobs == map[] && !w.loaded
    && forall n :: AtMostOne(RunnersOf(w, n)) && (RunnersOf(w, n) != {} ==> n in w.configs)
  }

  // ---- one runner per job -------------------------------------------------

  ghost predicate AtMostOne(pids: set<Pid>) {
    forall p, q :: p in pids && q in pids ==> p == q
  }

  function Own(s: JobState): set<Pid> {
    match s case Active(pid) => {pid} case Inactive(_) => {}
  }

  /** An inactive job has no runner; that of an active one is the one stored. */
  predicate IsOwner(slot: Slot) {
    slot.runners <= Own(slot.state)
  }

  ghost predicate OneRunner(w: World) {
    && (forall n :: AtMostOne(RunnersOf(w, n)) && (RunnersOf(w, n) != {} ==> n in w.configs))
    && (w.loaded ==>
          && w.jobs.Keys == w.configs.Keys
          && forall n :: n in w.jobs ==> w.jobs[n].config == w.configs[n] && IsOwner(SlotOf(w, n)))
  }

  lemma StartJobOwns(slot: Slot, io: JobIo)
    requires slot.runners == {}
    ensures IsOwner(StartJob(slot, io))
  {
  }

  lemma PassStepOwns(c: JobConfig, deps: map<Name, Job>, slot: Slot, ps: set<Pid>, io: JobIo)
    requires IsOwner(slot)
    ensures slot.runners <= ps ==> IsOwner(UpdateActive(c, slot, ps, io))
    ensures IsOwner(CheckInactive(c, deps, slot, io))
  {
    if slot.runners == {} {
      StartJobOwns(slot, io);
    }
  }

  lemma ClientStepOwns(slot: Slot, status: JobStatus, force: bool, io: JobIo)
    requires IsOwner(slot)
    ensures IsOwner(EndJob(slot, status, io).0) && IsOwner(ShutdownJob(slot, force, io).0)
    ensures IsOwner(Settle(slot, status, io)) <== slot.state.Inactive?
    ensures EndJob(slot, status, io).0.runners <= slot.runners
    ensures ShutdownJob(slot, force, io).0.runners <= slot.runners
  {
  }

  lemma OwnedApply(w: World, names: set<Name>, step: Name -> Slot)
    requires OneRunner(w) && w.loaded && names <= w.jobs.Keys
    requires forall n :: n in names ==> IsOwner(step(n))
    ensures OneRunner(ApplyTo(w, names, step))
  {
    var v := ApplyTo(w, names, step);
    forall n
      ensures AtMostOne(RunnersOf(v, n)) && (RunnersOf(v, n) != {} ==> n in v.configs)
      ensures n in v.jobs ==> IsOwner(SlotOf(v, n))
    {
      RunnersAfter(w, names, step, n);
      if n in w.jobs {
        AppliedSlot(w, names, step, n);
      }
    }
  }

  /** Before the registry is loaded requests only ever end runners. */
  lemma ShrinkingApply(w: World, names: set<Name>, step: Name -> Slot)
    requires OneRunner(w) && !w.loaded && names <= w.jobs.Keys
    requires forall n :: n in names ==> step(n).runners <= RunnersOf(w, n)
    ensures OneRunner(ApplyTo(w, names, step))
  {
    forall n
      ensures RunnersOf(ApplyTo(w, names, step), n) <= RunnersOf(w, n)
    {
      RunnersAfter(w, names, step, n);
    }
  }

  lemma ApplyKeepsOneRunner(w: World, names: set<Name>, step: Name -> Slot)
    requires OneRunner(w) && names <= w.jobs.Keys
    requires forall n :: n in names ==>
               step(n).runners <= RunnersOf(w, n) && (IsOwner(SlotOf(w, n)) ==> IsOwner(step(n)))
    ensures OneRunner(ApplyTo(w, names, step))
  {
    if w.loaded {
      OwnedApply(w, names, step);
    } else {
      ShrinkingApply(w, names, step);
    }
  }

  lemma PidsOf(w: World, n: Name)
    ensures RunnersOf(w, n) <= Pids(w)
  {
  }

  lemma PassKeepsOneRunner(w: World, ps: set<Pid>, first: Io, second: Io)
    requires OneRunner(w) && w.loaded && Pids(w) <= ps
    ensures OneRunner(Pass(w, ps, first, second))
  {
    var step := ActiveStep(w, ps, first);
    forall n | n in w.jobs
      ensures IsOwner(step(n))
    {
      PidsOf(w, n);
      PassStepOwns(w.jobs[n].config, w.jobs, SlotOf(w, n), ps, first(n));
    }
    OwnedApply(w, w.jobs.Keys, step);
    var mid := ApplyTo(w, w.jobs.Keys, step);
    forall n | n in mid.jobs
      ensures IsOwner(InactiveStep(mid, second)(n))
    {
      PassStepOwns(mid.jobs[n].config, mid.jobs, SlotOf(mid, n), ps, second(n));
    }
    OwnedApply(mid, mid.jobs.Keys, InactiveStep(mid, second));
  }

  lemma EndKeepsOneRunner(w: World, n: Name, status: JobStatus, io: JobIo)
    requires OneRunner(w)
    ensures OneRunner(End(w, n, status, io).0)
  {
    if n in w.jobs {
      var slot := SlotOf(w, n);
      if IsOwner(slot) {
        ClientStepOwns(slot, status, false, io);
      }
      ApplyKeepsOneRunner(w, {n}, _ => EndJob(slot, status, io).0);
    }
  }

  lemma StartKeepsOneRunner(w: World, n: Name, io: JobIo)
    requires OneRunner(w)
    ensures OneRunner(Start(w, n, io).0)
  {
    if n in w.jobs && w.jobs[n].state.Inactive? {
      var slot := SlotOf(w, n);
      ApplyKeepsOneRunner(w, {n}, _ => Settle(slot, Pending(WaitingFor(w.jobs[n].config)), io));
    }
  }

  lemma TerminatedOwns(w: World, n: Name, io: JobIo)
    requires OneRunner(w)
    ensures var (v, ok) := Terminated(w, n, io);
            OneRunner(v) && v.loaded == w.loaded && (ok && w.loaded ==> RunnersOf(v, n) == {})
  {
    if n in w.jobs {
      var slot := Terminate(SlotOf(w, n), io).0;
      ApplyKeepsOneRunner(w, {n}, _ => slot);
      RunnersAfter(w, {n}, _ => slot, n);
    }
  }

  lemma RegisterOwns(w: World, n: Name, c: JobConfig)
    requires OneRunner(w) && (w.loaded ==> RunnersOf(w, n) == {})
    ensures OneRunner(Register(w, n, c))
  {
    var v := Register(w, n, c);
    forall m
      ensures RunnersOf(v, m) == RunnersOf(w, m)
      ensures w.loaded && m in v.jobs ==> IsOwner(SlotOf(v, m))
    {
      assert v.runners == w.runners;
      if w.loaded && m in w.jobs {
        assert IsOwner(SlotOf(w, m));
      }
    }
  }

  lemma CreateKeepsOneRunner(w: World, n: Name, c: JobConfig, io: JobIo, saved: bool)
    requires OneRunner(w)
    ensures OneRunner(Create(w, n, c, io, saved).0)
  {
    TerminatedOwns(w, n, io);
    var (v, ok) := Terminated(w, n, io);
    WriteKeepsOneRunner(v, n, Stopped);
    if ok {
      RegisterOwns(v, n, c);
    }
  }

  lemma LoadKeepsOneRunner(w: World, found: Name -> Option<Pid>, ios: Io)
    requires OneRunner(w) && IsFound(w, found)
    requires w.jobs.Keys <= w.configs.Keys
    ensures OneRunner(Load(w, found, ios).(phase := Ready, loaded := true))
  {
    var v := Load(w, found, ios).(phase := Ready, loaded := true);
    forall n
      ensures RunnersOf(v, n) == RunnersOf(w, n)
      ensures n in v.jobs ==> IsOwner(SlotOf(v, n))
    {
      assert match found(n) case Some(p) => p in RunnersOf(w, n) case None => RunnersOf(w, n) == {};
    }
  }

  /** Every registered job has a config file. */
  predicate HaveConfigs(w: World) {
    w.jobs.Keys <= w.configs.Keys
  }

  lemma ConfigsStay(w: World, a: Action)
    requires HaveConfigs(w) && Allowed(w, a)
    ensures HaveConfigs(Next(w, a))
  {
  }

  lemma RequestKeepsOneRunner(w: World, a: Action)
    requires OneRunner(w) && Allowed(w, a)
    requires a.CreateJob? || a.StartRequest? || a.StopRequest? || a.SkipRequest? || a.StopAll?
    ensures OneRunner(Next(w, a))
  {
    match a
    case CreateJob(n, c, io, saved) => CreateKeepsOneRunner(w, n, c, io, saved);
    case StartRequest(n, io) => StartKeepsOneRunner(w, n, io);
    case StopRequest(n, io) => EndKeepsOneRunner(w, n, Stopped, io);
    case SkipRequest(n, io) => EndKeepsOneRunner(w, n, SKIPPED, io);
    case StopAll(names, ios) => StopAllKeepsOneRunner(w, names, ios);
  }

  lemma StepKeepsOneRunner(w: World, a: Action)
    requires OneRunner(w) && HaveConfigs(w) && Allowed(w, a)
    ensures OneRunner(Next(w, a)) && HaveConfigs(Next(w, a))
  {
    ConfigsStay(w, a);
    match a
    case ShutdownManager(names, force, ios) => ShutdownKeepsOneRunner(w, names, force, ios);
    case StartupManager(found, ios) => LoadKeepsOneRunner(w, found, ios);
    case RestartManager => RestartKeepsOneRunner(w);
    case ManagerPass(ps, first, second) => PassKeepsOneRunner(w, ps, first, second);
    case RunnerWrites(n, status) => WriteKeepsOneRunner(w, n, status);
    case RunnerExits(n, pid) => ExitKeepsOneRunner(w, n, pid);
    case _ => RequestKeepsOneRunner(w, a);
  }

  lemma RestartKeepsOneRunner(w: World)
    requires OneRunner(w)
    ensures OneRunner(w.(jobs := map[], phase := NotReady, loaded := false))
  {
    assert forall n :: RunnersOf(w.(jobs := map[], phase := NotReady, loaded := false), n) == RunnersOf(w, n);
  }

  lemma WriteKeepsOneRunner(w: World, n: Name, status: JobStatus)
    requires OneRunner(w)
    ensures OneRunner(w.(files := w.files[n := status]))
  {
    var v := w.(files := w.files[n := status]);
    assert forall m :: RunnersOf(v, m) == RunnersOf(w, m);
    assert w.loaded ==> forall m :: m in v.jobs ==> IsOwner(SlotOf(w, m));
  }

  lemma ExitKeepsOneRunner(w: World, n: Name, pid: Pid)
    requires OneRunner(w)
    ensures OneRunner(w.(runners := w.runners - {(n, pid)}))
  {
    var v := w.(runners := w.runners - {(n, pid)});
    assert forall m :: RunnersOf(v, m) <= RunnersOf(w, m);
    assert w.loaded ==> forall m :: m in v.jobs ==> IsOwner(SlotOf(w, m));
  }

  lemma StopAllKeepsOneRunner(w: World, names: set<Name>, ios: Io)
    requires OneRunner(w) && names <= w.jobs.Keys
    ensures OneRunner(ApplyTo(w, names, StopStep(w, ios)))
  {
    forall n | n in names
      ensures var s := StopStep(w, ios)(n);
              s.runners <= RunnersOf(w, n) && (IsOwner(SlotOf(w, n)) ==> IsOwner(s))
    {
      if IsOwner(SlotOf(w, n)) {
        ClientStepOwns(SlotOf(w, n), Stopped, false, ios(n));
      }
    }
    ApplyKeepsOneRunner(w, names, StopStep(w, ios));
  }

  lemma ShutdownKeepsOneRunner(w: World, names: set<Name>, force: bool, ios: Io)
    requires OneRunner(w) && names <= w.jobs.Keys
    ensures var v := w.(phase := Shutdown);
            OneRunner(ApplyTo(v, names, ShutdownStep(v, force, ios)))
  {
    var v := w.(phase := Shutdown);
    assert forall n :: RunnersOf(v, n) == RunnersOf(w, n);
    assert w.loaded ==> forall n :: n in v.jobs ==> SlotOf(v, n) == SlotOf(w, n);
    forall n | n in names
      ensures var s := ShutdownStep(v, force, ios)(n);
              s.runners <= RunnersOf(v, n) && (IsOwner(SlotOf(v, n)) ==> IsOwner(s))
    {
      if IsOwner(SlotOf(v, n)) {
        ClientStepOwns(SlotOf(v, n), Stopped, force, ios(n));
      }
    }
    ApplyKeepsOneRunner(v, names, ShutdownStep(v, force, ios));
  }

  /** In every run each job has at most one live runner; once the registry is
      loaded an inactive job has none and a live one is the one stored. */
  lemma {:induction false} RunsKeepOneRunner(worlds: seq<World>, acts: seq<Action>, i: nat)
    requires IsRun(worlds, acts) && i <= |acts|
    ensures OneRunner(worlds[i]) && HaveConfigs(worlds[i])
  {
    if i > 0 {
      RunsKeepOneRunner(worlds, acts, i - 1);
      assert IsNext(worlds[i - 1], acts[i - 1], worlds[i]);
      StepKeepsOneRunner(worlds[i - 1], acts[i - 1]);
    }
  }

  // ---- status files -------------------------------------------------------

  predicate IsGood(io: JobIo) {
    io.loads && io.clears && io.saves
  }

  ghost predicate NoIoErrors(a: Action) {
    match a
    case CreateJob(_, _, io, saved) => IsGood(io) && saved
    case StartRequest(_, io) => IsGood(io)
    case StopRequest(_, io) => IsGood(io)
    case SkipRequest(_, io) => IsGood(io)
    case StopAll(_, ios) => forall n :: IsGood(ios(n))
    case ShutdownManager(_, _, ios) => forall n :: IsGood(ios(n))
    case StartupManager(_, ios) => forall n :: IsGood(ios(n))
    case ManagerPass(_, first, second) => forall n :: IsGood(first(n)) && IsGood(second(n))
    case _ => true
  }

  /** A job that is not to be restarted and whose runner left no status is
      finished in memory only. */
  predicate IsLost(c: JobConfig, slot: Slot) {
    c.restart.Never? && slot.state == Inactive(LOST) && slot.file.None?
  }

  /** An inactive job has its status on disk; only a job that was loaded without
      a status file, and so is pending for nothing, and a lost one have none. */
  predicate IsSaved(c: JobConfig, slot: Slot) {
    slot.state.Active? || slot.state.status.Running?
    || slot.file == Some(slot.state.status)
    || (slot.file.None? && slot.state == Inactive(Pending([])))
    || IsLost(c, slot)
  }

  ghost predicate Persistent(w: World) {
    w.loaded ==> forall n :: n in w.jobs ==> IsSaved(w.jobs[n].config, SlotOf(w, n))
  }

  lemma PassStepSaves(c: JobConfig, deps: map<Name, Job>, slot: Slot, ps: set<Pid>, io: JobIo)
    requires IsSaved(c, slot) && IsGood(io)
    ensures IsSaved(c, UpdateActive(c, slot, ps, io)) && IsSaved(c, CheckInactive(c, deps, slot, io))
  {
  }

  lemma ClientStepSaves(c: JobConfig, slot: Slot, status: JobStatus, force: bool, io: JobIo)
    requires IsSaved(c, slot) && IsGood(io)
    ensures IsSaved(c, EndJob(slot, status, io).0) && IsSaved(c, ShutdownJob(slot, force, io).0)
    ensures IsSaved(c, Settle(slot, status, io))
  {
  }

  lemma SavedApply(w: World, names: set<Name>, step: Name -> Slot)
    requires names <= w.jobs.Keys && Persistent(w)
    requires w.loaded ==> forall n :: n in names ==> IsSaved(w.jobs[n].config, step(n))
    ensures Persistent(ApplyTo(w, names, step))
  {
    if w.loaded {
      forall n | n in w.jobs
        ensures IsSaved(w.jobs[n].config, SlotOf(ApplyTo(w, names, step), n))
      {
        AppliedSlot(w, names, step, n);
      }
    }
  }

  lemma PassSaves(w: World, ps: set<Pid>, first: Io, second: Io)
    requires Persistent(w) && w.loaded && forall n :: IsGood(first(n)) && IsGood(second(n))
    ensures Persistent(Pass(w, ps, first, second))
  {
    var step := ActiveStep(w, ps, first);
    forall n | n in w.jobs
      ensures IsSaved(w.jobs[n].config, step(n))
    {
      PassStepSaves(w.jobs[n].config, w.jobs, SlotOf(w, n), ps, first(n));
    }
    SavedApply(w, w.jobs.Keys, step);
    var mid := ApplyTo(w, w.jobs.Keys, step);
    forall n | n in mid.jobs
      ensures IsSaved(mid.jobs[n].config, InactiveStep(mid, second)(n))
    {
      PassStepSaves(mid.jobs[n].config, mid.jobs, SlotOf(mid, n), ps, second(n));
    }
    SavedApply(mid, mid.jobs.Keys, InactiveStep(mid, second));
  }

  lemma EndSaves(w: World, n: Name, status: JobStatus, io: JobIo)
    requires Persistent(w) && IsGood(io)
    ensures Persistent(End(w, n, status, io).0)
  {
    if n in w.jobs {
      if w.loaded {
        ClientStepSaves(w.jobs[n].config, SlotOf(w, n), status, false, io);
      }
      SavedApply(w, {n}, _ => EndJob(SlotOf(w, n), status, io).0);
    }
  }

  lemma StartSaves(w: World, n: Name, io: JobIo)
    requires Persistent(w) && IsGood(io)
    ensures Persistent(Start(w, n, io).0)
  {
    if n in w.jobs && w.jobs[n].state.Inactive? {
      var status := Pending(WaitingFor(w.jobs[n].config));
      if w.loaded {
        ClientStepSaves(w.jobs[n].config, SlotOf(w, n), status, false, io);
      }
      SavedApply(w, {n}, _ => Settle(SlotOf(w, n), status, io));
    }
  }

  lemma CreateSaves(w: World, n: Name, c: JobConfig, io: JobIo)
    requires Persistent(w) && IsGood(io)
    ensures Persistent(Create(w, n, c, io, true).0)
  {
    var (v, ok) := Terminated(w, n, io);
    if n in w.jobs {
      SavedApply(w, {n}, _ => Terminate(SlotOf(w, n), io).0);
    }
    if v.loaded {
      var later := Register(v, n, c);
      forall m | m in later.jobs
        ensures IsSaved(later.jobs[m].config, SlotOf(later, m))
      {
        if m != n {
          assert IsSaved(v.jobs[m].config, SlotOf(v, m));
        }
      }
    }
  }

  lemma ManySave(w: World, names: set<Name>, force: bool, ios: Io)
    requires Persistent(w) && names <= w.jobs.Keys && forall n :: IsGood(ios(n))
    ensures Persistent(ApplyTo(w, names, StopStep(w, ios)))
    ensures Persistent(ApplyTo(w, names, ShutdownStep(w, force, ios)))
  {
    if w.loaded {
      forall n | n in names
        ensures IsSaved(w.jobs[n].config, StopStep(w, ios)(n)) &&
                IsSaved(w.jobs[n].config, ShutdownStep(w, force, ios)(n))
      {
        ClientStepSaves(w.jobs[n].config, SlotOf(w, n), Stopped, force, ios(n));
      }
    }
    SavedApply(w, names, StopStep(w, ios));
    SavedApply(w, names, ShutdownStep(w, force, ios));
  }

  lemma WriteSaves(w: World, n: Name, status: JobStatus)
    requires OneRunner(w) && Persistent(w) && RunnersOf(w, n) != {}
    ensures Persistent(w.(files := w.files[n := status]))
  {
    var v := w.(files := w.files[n := status]);
    if w.loaded {
      forall m | m in v.jobs
        ensures IsSaved(v.jobs[m].config, SlotOf(v, m))
      {
        assert IsSaved(w.jobs[m].config, SlotOf(w, m));
        assert IsOwner(SlotOf(w, m));
      }
    }
  }

  lemma ExitSaves(w: World, n: Name, pid: Pid)
    requires Persistent(w)
    ensures Persistent(w.(runners := w.runners - {(n, pid)}))
  {
    var v := w.(runners := w.runners - {(n, pid)});
    if w.loaded {
      forall m | m in v.jobs
        ensures IsSaved(v.jobs[m].config, SlotOf(v, m))
      {
        assert IsSaved(w.jobs[m].config, SlotOf(w, m));
      }
    }
  }

  lemma StepSaves(w: World, a: Action)
    requires OneRunner(w) && HaveConfigs(w) && Persistent(w) && Allowed(w, a) && NoIoErrors(a)
    ensures Persistent(Next(w, a))
  {
    match a
    case CreateJob(n, c, io, _) => CreateSaves(w, n, c, io);
    case StartRequest(n, io) => StartSaves(w, n, io);
    case StopRequest(n, io) => EndSaves(w, n, Stopped, io);
    case SkipRequest(n, io) => EndSaves(w, n, SKIPPED, io);
    case StopAll(names, ios) => ManySave(w, names, false, ios);
    case ShutdownManager(names, force, ios) => ShutdownSaves(w, names, force, ios);
    case StartupManager(found, ios) =>
    case RestartManager =>
    case ManagerPass(ps, first, second) => PassSaves(w, ps, first, second);
    case RunnerWrites(n, status) => WriteSaves(w, n, status);
    case RunnerExits(n, pid) => ExitSaves(w, n, pid);
  }

  lemma ShutdownSaves(w: World, names: set<Name>, force: bool, ios: Io)
    requires Persistent(w) && names <= w.jobs.Keys && forall n :: IsGood(ios(n))
    ensures var v := w.(phase := Shutdown);
            Persistent(ApplyTo(v, names, ShutdownStep(v, force, ios)))
  {
    var v := w.(phase := Shutdown);
    if w.loaded {
      forall m | m in v.jobs
        ensures IsSaved(v.jobs[m].config, SlotOf(v, m))
      {
        assert SlotOf(v, m) == SlotOf(w, m);
      }
    }
    ManySave(v, names, force, ios);
  }

  /** In every run without I/O errors memory and status files agree. */
  lemma {:induction false} RunsKeepStatusFiles(worlds: seq<World>, acts: seq<Action>, i: nat)
    requires IsRun(worlds, acts) && i <= |acts| && forall k :: 0 <= k < |acts| ==> NoIoErrors(acts[k])
    ensures Persistent(worlds[i])
  {
    if i > 0 {
      RunsKeepStatusFiles(worlds, acts, i - 1);
      RunsKeepOneRunner(worlds, acts, i - 1);
      assert IsNext(worlds[i - 1], acts[i - 1], worlds[i]);
      StepSaves(worlds[i - 1], acts[i - 1]);
    }
  }

  /** Active, or left to the next jobs manager to run. */
  predicate IsToRun(s: JobState) {
    s.Active? || s.status.Running?
  }

  /** What a restart of the jobs manager makes of a job. */
  function AfterRestart(c: JobConfig, slot: Slot): JobState {
    if slot.state.Inactive? && !slot.state.status.Running? && !IsLost(c, slot) then slot.state
    else if slot.file.Some? then Inactive(slot.file.value)
    else Inactive(Pending([]))
  }

  lemma ShutdownSlot(slot: Slot, force: bool, io: JobIo)
    requires IsOwner(slot) && (force || io.kills)
    ensures var s := ShutdownJob(slot, force, io).0;
            s.runners == {} && s.file == slot.file
  {
  }

  /** Shutting down and starting up again keeps every saved status; an active
      job takes the status its runner left, or becomes pending; so does a lost
      one, although it is not to be restarted. Of the jobs that are not to run,
      the lost ones are exactly those that change. */
  lemma ShutdownThenStartup(w: World, force: bool, ios: Io, found: Name -> Option<Pid>, loads: Io, n: Name)
    requires OneRunner(w) && Persistent(w) && w.loaded && n in w.jobs
    requires force || forall m :: ios(m).kills
    requires loads(n).loads
    requires IsFound(Next(w, ShutdownManager(w.jobs.Keys, force, ios)), found)
    ensures var down := Next(w, ShutdownManager(w.jobs.Keys, force, ios));
            var again := Next(down, RestartManager);
            && Allowed(again, StartupManager(found, loads))
            && var up := Next(again, StartupManager(found, loads));
               && n in up.jobs && up.jobs[n].state == AfterRestart(w.jobs[n].config, SlotOf(w, n))
               && (!IsToRun(w.jobs[n].state) ==>
                     (up.jobs[n].state != w.jobs[n].state <==> IsLost(w.jobs[n].config, SlotOf(w, n))))
  {
    DownSlot(w, force, ios, n);
    var down := Next(w, ShutdownManager(w.jobs.Keys, force, ios));
    var again := Next(down, RestartManager);
    assert forall m :: RunnersOf(again, m) == RunnersOf(down, m);
    assert IsSaved(w.jobs[n].config, SlotOf(w, n));
    assert found(n).None?;
  }

  lemma DownSlot(w: World, force: bool, ios: Io, n: Name)
    requires OneRunner(w) && w.loaded && n in w.jobs && (force || ios(n).kills)
    ensures var down := Next(w, ShutdownManager(w.jobs.Keys, force, ios));
            RunnersOf(down, n) == {} && FileOf(down, n) == FileOf(w, n) && down.configs == w.configs
  {
    var v := w.(phase := Shutdown);
    assert SlotOf(v, n) == SlotOf(w, n);
    ShutdownSlot(SlotOf(v, n), force, ios(n));
    AppliedSlot(v, v.jobs.Keys, ShutdownStep(v, force, ios), n);
  }

  // ---- a run that loses a job ---------------------------------------------

  /** A world with one job. */
  function One(n: Name, c: JobConfig, slot: Slot): World {
    World(map[n := Job(c, slot.state)], map[n := c], if slot.file.Some? then map[n := slot.file.value] else map[],
          set p | p in slot.runners :: (n, p), Ready, true)
  }

  lemma OneSlot(n: Name, c: JobConfig, slot: Slot)
    ensures SlotOf(One(n, c, slot), n) == slot
    ensures forall m :: m != n ==> RunnersOf(One(n, c, slot), m) == {} && FileOf(One(n, c, slot), m) == None
  {
    var w := One(n, c, slot);
    forall p
      ensures p in RunnersOf(w, n) <==> p in slot.runners
    {
      assert p in RunnersOf(w, n) <==> (n, p) in w.runners;
    }
  }

  lemma OneApplied(n: Name, c: JobConfig, slot: Slot, step: Name -> Slot)
    ensures ApplyTo(One(n, c, slot), {n}, step) == One(n, c, step(n))
  {
    var w := ApplyTo(One(n, c, slot), {n}, step);
    OneSlot(n, c, slot);
    OneSlot(n, c, step(n));
    forall m
      ensures RunnersOf(w, m) == RunnersOf(One(n, c, step(n)), m) && FileOf(w, m) == FileOf(One(n, c, step(n)), m)
    {
      RunnersAfter(One(n, c, slot), {n}, step, m);
    }
    SameWorld(w, One(n, c, step(n)));
  }

  lemma OnePassed(n: Name, c: JobConfig, slot: Slot, ps: set<Pid>, io: Io)
    ensures var mid := UpdateActive(c, slot, ps, io(n));
            Pass(One(n, c, slot), ps, io, io) == One(n, c, CheckInactive(c, One(n, c, mid).jobs, mid, io(n)))
  {
    var w, mid := One(n, c, slot), UpdateActive(c, slot, ps, io(n));
    OneSlot(n, c, slot);
    OneApplied(n, c, slot, ActiveStep(w, ps, io));
    assert w.jobs.Keys == {n} && ActiveStep(w, ps, io)(n) == mid;
    OneChecked(n, c, mid, io);
  }

  lemma OneChecked(n: Name, c: JobConfig, slot: Slot, io: Io)
    ensures var w := One(n, c, slot);
            ApplyTo(w, w.jobs.Keys, InactiveStep(w, io)) == One(n, c, CheckInactive(c, w.jobs, slot, io(n)))
  {
    var w := One(n, c, slot);
    OneSlot(n, c, slot);
    OneApplied(n, c, slot, InactiveStep(w, io));
    assert w.jobs.Keys == {n};
  }

  const LONE: JobConfig := JobConfig(None, None, Never)
  const PID: Pid := 1

  function AllWell(): Io {
    (_: Name) => JobIo(true, true, true, true, Some(PID))
  }

  function NoRunner(): Name -> Option<Pid> {
    (_: Name) => None
  }

  /** A new jobs manager without files, that is started and gets one job. */
  lemma OneIsCreated(n: Name)
    ensures var w := World(map[], map[], map[], {}, NotReady, false);
            var up := Next(w, StartupManager(NoRunner(), AllWell()));
            && IsInitial(w) && Allowed(w, StartupManager(NoRunner(), AllWell()))
            && Next(up, CreateJob(n, LONE, AllWell()(n), true)) == One(n, LONE, Slot(Inactive(Stopped),
              Some(Stopped), {}))
  {
  }

  lemma OneIsStarted(n: Name)
    ensures var w := One(n, LONE, Slot(Inactive(Stopped), Some(Stopped), {}));
            Next(w, StartRequest(n, AllWell()(n))) == One(n, LONE, Slot(Inactive(Pending([])), Some(Pending([])), {}))
  {
    var slot := Slot(Inactive(Stopped), Some(Stopped), {});
    OneSlot(n, LONE, slot);
    assert WaitingFor(LONE) == [];
    OneApplied(n, LONE, slot, _ => Settle(slot, Pending([]), AllWell()(n)));
    var w := One(n, LONE, slot);
    assert Start(w, n, AllWell()(n)).0 == Put(w, n, Settle(slot, Pending([]), AllWell()(n)));
  }

  lemma OneIsLaunched(n: Name)
    ensures var w := One(n, LONE, Slot(Inactive(Pending([])), Some(Pending([])), {}));
            && Allowed(w, ManagerPass({}, AllWell(), AllWell()))
            && Next(w, ManagerPass({}, AllWell(), AllWell())) == One(n, LONE, Slot(Active(PID), None, {PID}))
  {
    var slot := Slot(Inactive(Pending([])), Some(Pending([])), {});
    OnePassed(n, LONE, slot, {}, AllWell());
    AllDoneIff(One(n, LONE, slot).jobs, LONE);
  }

  lemma OneIsLost(n: Name)
    ensures var w := One(n, LONE, Slot(Active(PID), None, {PID}));
            var exited := Next(w, RunnerExits(n, PID));
            && Allowed(w, RunnerExits(n, PID)) && Allowed(exited, ManagerPass({}, AllWell(), AllWell()))
            && Next(exited, ManagerPass({}, AllWell(), AllWell())) == One(n, LONE, Slot(Inactive(LOST), None, {}))
  {
    var w := One(n, LONE, Slot(Active(PID), None, {PID}));
    assert (n, PID) in w.runners;
    assert w.runners - {(n, PID)} == {};
    assert Next(w, RunnerExits(n, PID)) == One(n, LONE, Slot(Active(PID), None, {}));
    OnePassed(n, LONE, Slot(Active(PID), None, {}), {}, AllWell());
  }

  lemma RunMore(worlds: seq<World>, acts: seq<Action>, a: Action)
    requires IsRun(worlds, acts) && Allowed(worlds[|acts|], a)
    ensures IsRun(worlds + [Next(worlds[|acts|], a)], acts + [a])
  {
    var more, all := worlds + [Next(worlds[|acts|], a)], acts + [a];
    forall i | 0 <= i < |all|
      ensures IsNext(more[i], all[i], more[i + 1])
    {
      assert i < |acts| ==> IsNext(worlds[i], acts[i], worlds[i + 1]);
    }
  }

  /** Without any I/O error a job can be lost: its runner only has to end without
      leaving a status. */
  lemma JobsGetLost(n: Name) returns (worlds: seq<World>, acts: seq<Action>)
    ensures IsRun(worlds, acts) && forall k :: 0 <= k < |acts| ==> NoIoErrors(acts[k])
    ensures var w := worlds[|acts|];
            n in w.jobs && IsLost(w.jobs[n].config, SlotOf(w, n))
  {
    worlds, acts := JobIsLaunched(n);
    OneIsLost(n);
    OneSlot(n, LONE, Slot(Inactive(LOST), None, {}));
    worlds, acts := TakeStep(worlds, acts, RunnerExits(n, PID));
    worlds, acts := TakeStep(worlds, acts, ManagerPass({}, AllWell(), AllWell()));
  }

  lemma TakeStep(worlds: seq<World>, acts: seq<Action>, a: Action) returns (worlds': seq<World>, acts': seq<Action>)
    requires IsRun(worlds, acts) && Allowed(worlds[|acts|], a) && NoIoErrors(a)
    requires forall k :: 0 <= k < |acts| ==> NoIoErrors(acts[k])
    ensures IsRun(worlds', acts') && forall k :: 0 <= k < |acts'| ==> NoIoErrors(acts'[k])
    ensures worlds'[|acts'|] == Next(worlds[|acts|], a)
  {
    RunMore(worlds, acts, a);
    worlds', acts' := worlds + [Next(worlds[|acts|], a)], acts + [a];
  }

  lemma JobIsLaunched(n: Name) returns (worlds: seq<World>, acts: seq<Action>)
    ensures IsRun(worlds, acts) && forall k :: 0 <= k < |acts| ==> NoIoErrors(acts[k])
    ensures worlds[|acts|] == One(n, LONE, Slot(Active(PID), None, {PID}))
  {
    OneIsCreated(n);
    OneIsStarted(n);
    OneIsLaunched(n);
    worlds, acts := [World(map[], map[], map[], {}, NotReady, false)], [];
    worlds, acts := TakeStep(worlds, acts, StartupManager(NoRunner(), AllWell()));
    worlds, acts := TakeStep(worlds, acts, CreateJob(n, LONE, AllWell()(n), true));
    worlds, acts := TakeStep(worlds, acts, StartRequest(n, AllWell()(n)));
    worlds, acts := TakeStep(worlds, acts, ManagerPass({}, AllWell(), AllWell()));
  }
}
