/** What becomes of one job: a job whose runner reported its end is over and is
    not run again, one whose runner is gone without a report is, and requests do
    what they were asked for. */
module JobsOutcome {
  import opened Layout
  import opened Jobs
  import opened JobsManager
  import opened JobsSafety
  import opened JobsLiveness

  // ---- a job that reported its end ----------------------------------------

  /** Job `n` reported the status `s`; of its runners at most `left` are still
      there. The registry, where it knows the job, takes it for run by one of
      `live`, for one that the next manager is to run, or has the report. */
  ghost predicate Told(w: World, n: Name, s: JobStatus, live: set<Pid>, left: set<Pid>) {
    && n in w.configs && FileOf(w, n) == Some(s) && RunnersOf(w, n) <= left <= live
    && (w.loaded ==> n in w.jobs)
    && (n in w.jobs ==> AgreesWith(w.jobs[n].state, s, live))
  }

  predicate AgreesWith(state: JobState, s: JobStatus, live: set<Pid>) {
    match state
    case Active(pid) => pid in live
    case Inactive(status) => status == s || (status.Running? && live != {})
  }

  predicate IsReport(s: JobStatus) {
    s.Finished? || s.Stopped?
  }

  /** The action does not ask for anything of the job `n`, and its status file
      can be read. */
  ghost predicate Spares(a: Action, n: Name, s: JobStatus) {
    match a
    case CreateJob(m, _, _, _) => m != n
    case StartRequest(m, _) => m != n
    case StopRequest(m, _) => m != n
    case SkipRequest(m, _) => m != n
    case StopAll(names, _) => n !in names
    case StartupManager(_, ios) => ios(n).loads
    case ManagerPass(_, first, second) => first(n).loads && second(n).loads
    case RunnerWrites(m, status) => m == n ==> status == s
    case _ => true
  }

  lemma ToldApply(w: World, names: set<Name>, step: Name -> Slot, n: Name, s: JobStatus, live: set<Pid>, left: set<Pid>)
    requires Told(w, n, s, live, left) && names <= w.jobs.Keys
    requires n in names ==>
               step(n).file == Some(s) && step(n).runners <= left && AgreesWith(step(n).state, s, live)
    ensures Told(ApplyTo(w, names, step), n, s, live, left)
  {
    RunnersAfter(w, names, step, n);
  }

  lemma ToldOther(w: World, m: Name, slot: Slot, n: Name, s: JobStatus, live: set<Pid>, left: set<Pid>)
    requires Told(w, n, s, live, left) && m in w.jobs && m != n
    ensures Told(Put(w, m, slot), n, s, live, left)
  {
    ToldApply(w, {m}, _ => slot, n, s, live, left);
  }

  /** A pass only ever takes the report over. */
  lemma PassKeepsTold(w: World, ps: set<Pid>, first: Io, second: Io,
                      n: Name, s: JobStatus, live: set<Pid>, left: set<Pid>)
    requires Told(w, n, s, live, left) && n in w.jobs && IsReport(s) && first(n).loads && second(n).loads
    ensures var later := Pass(w, ps, first, second);
            && Told(later, n, s, live, left)
            && (w.jobs[n].state.Inactive? || w.jobs[n].state.pid !in ps ==> later.jobs[n].state == Inactive(s))
  {
    var step := ActiveStep(w, ps, first);
    ToldApply(w, w.jobs.Keys, step, n, s, live, left);
    var mid := ApplyTo(w, w.jobs.Keys, step);
    ToldApply(mid, mid.jobs.Keys, InactiveStep(mid, second), n, s, live, left);
  }

  lemma ShutdownKeepsTold(w: World, names: set<Name>, force: bool, ios: Io,
                          n: Name, s: JobStatus, live: set<Pid>, left: set<Pid>)
    requires Told(w, n, s, live, left) && names <= w.jobs.Keys
    ensures Told(Next(w, ShutdownManager(names, force, ios)), n, s, live, left)
  {
    var v := w.(phase := Shutdown);
    assert RunnersOf(v, n) == RunnersOf(w, n);
    ToldApply(v, names, ShutdownStep(v, force, ios), n, s, live, left);
  }

  lemma CreateKeepsTold(w: World, m: Name, c: JobConfig, io: JobIo, saved: bool,
                        n: Name, s: JobStatus, live: set<Pid>, left: set<Pid>)
    requires Told(w, n, s, live, left) && m != n
    ensures Told(Create(w, m, c, io, saved).0, n, s, live, left)
  {
    var (v, ok) := Terminated(w, m, io);
    if m in w.jobs {
      ToldOther(w, m, Terminate(SlotOf(w, m), io).0, n, s, live, left);
    }
    assert RunnersOf(Register(v, m, c), n) == RunnersOf(v, n);
    assert RunnersOf(v.(files := v.files[m := Stopped]), n) == RunnersOf(v, n);
  }

  lemma LoadKeepsTold(w: World, found: Name -> Option<Pid>, ios: Io,
                      n: Name, s: JobStatus, live: set<Pid>, left: set<Pid>)
    requires Told(w, n, s, live, left) && IsFound(w, found) && ios(n).loads
    ensures Told(Next(w, StartupManager(found, ios)), n, s, live, left)
  {
    var v := Next(w, StartupManager(found, ios));
    assert RunnersOf(v, n) == RunnersOf(w, n);
    assert match found(n) case Some(p) => p in RunnersOf(w, n) case None => RunnersOf(w, n) == {};
  }

  lemma StepKeepsTold(w: World, a: Action, n: Name, s: JobStatus, live: set<Pid>, left: set<Pid>)
    requires Told(w, n, s, live, left) && IsReport(s) && Allowed(w, a) && Spares(a, n, s)
    ensures Told(Next(w, a), n, s, live, left)
  {
    match a
    case CreateJob(m, c, io, saved) => CreateKeepsTold(w, m, c, io, saved, n, s, live, left);
    case StartRequest(m, io) =>
      if m in w.jobs && w.jobs[m].state.Inactive? {
        ToldOther(w, m, Settle(SlotOf(w, m), Pending(WaitingFor(w.jobs[m].config)), io), n, s, live, left);
      }
    case StopRequest(m, io) =>
      if m in w.jobs {
        ToldOther(w, m, EndJob(SlotOf(w, m), Stopped, io).0, n, s, live, left);
      }
    case SkipRequest(m, io) =>
      if m in w.jobs {
        ToldOther(w, m, EndJob(SlotOf(w, m), SKIPPED, io).0, n, s, live, left);
      }
    case StopAll(names, ios) => ToldApply(w, names, StopStep(w, ios), n, s, live, left);
    case ShutdownManager(names, force, ios) => ShutdownKeepsTold(w, names, force, ios, n, s, live, left);
    case StartupManager(found, ios) => LoadKeepsTold(w, found, ios, n, s, live, left);
    case RestartManager => assert RunnersOf(Next(w, a), n) == RunnersOf(w, n);
    case ManagerPass(ps, first, second) => PassKeepsTold(w, ps, first, second, n, s, live, left);
    case RunnerWrites(m, status) => assert RunnersOf(Next(w, a), n) == RunnersOf(w, n);
    case RunnerExits(m, pid) => assert RunnersOf(Next(w, a), n) <= RunnersOf(w, n);
  }

  /** In any run, as long as nothing is asked of it and its file can be read, a
      job that reported its end keeps the report and gets no new runner, through
      passes, requests for other jobs, shutdowns and restarts of the manager. */
  lemma {:induction false} ReportedJobIsNotRunAgain(worlds: seq<World>, acts: seq<Action>, k: nat, i: nat,
                                                    n: Name, s: JobStatus, live: set<Pid>, left: set<Pid>)
    requires IsRun(worlds, acts) && k <= i <= |acts| && IsReport(s) && Told(worlds[k], n, s, live, left)
    requires forall j :: k <= j < i ==> Spares(acts[j], n, s)
    ensures Told(worlds[i], n, s, live, left)
    decreases i
  {
    if i > k {
      ReportedJobIsNotRunAgain(worlds, acts, k, i - 1, n, s, live, left);
      assert IsNext(worlds[i - 1], acts[i - 1], worlds[i]);
      StepKeepsTold(worlds[i - 1], acts[i - 1], n, s, live, left);
    }
  }

  /** Once the runner that reported an end is gone and a pass has missed it, the
      job is over with just that status, and stays so. */
  lemma ReportedJobIsOver(worlds: seq<World>, acts: seq<Action>, k: nat, e: nat, p: nat, i: nat,
                          n: Name, s: JobStatus, pid: Pid)
    requires IsRun(worlds, acts) && k < e < p < i <= |acts|
    requires worlds[k].loaded && n in worlds[k].jobs && worlds[k].jobs[n].state == Active(pid)
    requires acts[k] == RunnerWrites(n, s) && acts[e] == RunnerExits(n, pid)
    requires acts[p].ManagerPass? && pid !in acts[p].ps
    requires forall j :: k < j < i ==> Spares(acts[j], n, s)
    ensures FileOf(worlds[i], n) == Some(s) && RunnersOf(worlds[i], n) == {}
    ensures n in worlds[i].jobs ==> worlds[i].jobs[n].state == Inactive(s)
    ensures worlds[i].loaded ==> n in worlds[i].jobs
  {
    WrittenIsTold(worlds, acts, k, n, s, pid);
    ReportedJobIsNotRunAgain(worlds, acts, k + 1, e, n, s, {pid}, {pid});
    assert IsNext(worlds[e], acts[e], worlds[e + 1]);
    ExitedIsTold(worlds[e], n, s, pid);
    ReportedJobIsNotRunAgain(worlds, acts, e + 1, p, n, s, {pid}, {});
    assert IsNext(worlds[p], acts[p], worlds[p + 1]);
    PassKeepsTold(worlds[p], acts[p].ps, acts[p].first, acts[p].second, n, s, {pid}, {});
    ReportedJobIsNotRunAgain(worlds, acts, p + 1, i, n, s, {}, {});
  }

  lemma WrittenIsTold(worlds: seq<World>, acts: seq<Action>, k: nat, n: Name, s: JobStatus, pid: Pid)
    requires IsRun(worlds, acts) && k < |acts| && acts[k] == RunnerWrites(n, s)
    requires worlds[k].loaded && n in worlds[k].jobs && worlds[k].jobs[n].state == Active(pid)
    ensures IsReport(s) && Told(worlds[k + 1], n, s, {pid}, {pid})
  {
    RunsKeepOneRunner(worlds, acts, k);
    assert IsNext(worlds[k], acts[k], worlds[k + 1]);
    assert IsOwner(SlotOf(worlds[k], n));
    assert RunnersOf(worlds[k + 1], n) == RunnersOf(worlds[k], n);
  }

  lemma ExitedIsTold(w: World, n: Name, s: JobStatus, pid: Pid)
    requires Told(w, n, s, {pid}, {pid}) && Allowed(w, RunnerExits(n, pid))
    ensures Told(Next(w, RunnerExits(n, pid)), n, s, {pid}, {})
  {
    var later := Next(w, RunnerExits(n, pid));
    forall q
      ensures q !in RunnersOf(later, n)
    {
      assert q in RunnersOf(later, n) ==> q in RunnersOf(w, n) && (n, q) in later.runners;
    }
  }

  // ---- a job whose runner is gone -----------------------------------------

  /** Nothing readable says that the job ended: it is run again, unless there is
      nothing readable at all and it is never to be restarted. */
  predicate IsToRunAgain(c: JobConfig, file: Option<JobStatus>, loads: bool) {
    if loads && file.Some? then !IsReport(file.value) else !c.restart.Never?
  }

  /** Finished without an exit code, which satisfies no job that needs it. */
  predicate IsFailed(s: JobState) {
    s.Inactive? && s.status.Finished? && s.status.exitCode == None
  }

  /** What is left of a job that is not run again: its report, or a failure. */
  predicate IsGivenUp(slot: Slot, file: Option<JobStatus>, loads: bool) {
    if loads && file.Some? then slot.state == Inactive(file.value) else IsFailed(slot.state)
  }

  /** A pass gives an active job a new runner if and only if its process is gone
      and it is to run again; if it is not, it is given up. */
  lemma PassRelaunchesIff(w: World, ps: set<Pid>, first: Io, second: Io, n: Name, q: Pid)
    requires n in w.jobs && w.jobs[n].state.Active? && q !in RunnersOf(w, n)
    requires first(n).clears && first(n).spawns == Some(q)
    ensures var later, io := Pass(w, ps, first, second), first(n);
            var gone, again := w.jobs[n].state.pid !in ps, IsToRunAgain(w.jobs[n].config, FileOf(w, n), io.loads);
            && n in later.jobs
            && (q in RunnersOf(later, n) <==> gone && again)
            && (gone && again ==> SlotOf(later, n) == Slot(Active(q), None, RunnersOf(w, n) + {q}))
            && (gone && !again ==> IsGivenUp(SlotOf(later, n), FileOf(w, n), io.loads))
            && (!gone ==> SlotOf(later, n) == SlotOf(w, n))
  {
    var mid := ApplyTo(w, w.jobs.Keys, ActiveStep(w, ps, first));
    AppliedSlot(w, w.jobs.Keys, ActiveStep(w, ps, first), n);
    AppliedSlot(mid, mid.jobs.Keys, InactiveStep(mid, second), n);
  }

  /** So does one that an earlier manager left to be run, whatever processes the
      pass sees. */
  lemma PassRunsLeftJobIff(w: World, ps: set<Pid>, first: Io, second: Io, n: Name, q: Pid)
    requires n in w.jobs && w.jobs[n].state == Inactive(Running) && q !in RunnersOf(w, n)
    requires second(n).clears && second(n).spawns == Some(q)
    ensures var later, io := Pass(w, ps, first, second), second(n);
            var again := IsToRunAgain(w.jobs[n].config, FileOf(w, n), io.loads);
            && n in later.jobs
            && (q in RunnersOf(later, n) <==> again)
            && (again ==> SlotOf(later, n) == Slot(Active(q), None, RunnersOf(w, n) + {q}))
            && (!again ==> IsGivenUp(SlotOf(later, n), FileOf(w, n), io.loads))
  {
    var mid := ApplyTo(w, w.jobs.Keys, ActiveStep(w, ps, first));
    AppliedSlot(w, w.jobs.Keys, ActiveStep(w, ps, first), n);
    AppliedSlot(mid, mid.jobs.Keys, InactiveStep(mid, second), n);
  }

  // ---- requests -----------------------------------------------------------

  /** Only job `n` may have changed. */
  ghost predicate OthersUntouched(w: World, later: World, n: Name) {
    forall m :: m != n ==>
      && (m in later.jobs <==> m in w.jobs) && (m in w.jobs ==> later.jobs[m] == w.jobs[m])
      && FileOf(later, m) == FileOf(w, m) && RunnersOf(later, m) == RunnersOf(w, m)
  }

  lemma PutTouchesOne(w: World, n: Name, slot: Slot)
    requires n in w.jobs
    ensures OthersUntouched(w, Put(w, n, slot), n) && SlotOf(Put(w, n, slot), n) == slot
    ensures Put(w, n, slot).jobs[n].config == w.jobs[n].config
  {
    AppliedSlot(w, {n}, _ => slot, n);
    forall m | m != n
      ensures RunnersOf(Put(w, n, slot), m) == RunnersOf(w, m)
    {
      RunnersAfter(w, {n}, _ => slot, m);
    }
  }

  /** A start makes any inactive job pending, also one that is over. */
  lemma StartMakesPending(w: World, n: Name, io: JobIo)
    requires n in w.jobs && w.jobs[n].state.Inactive? && io.saves
    ensures var (later, ok) := Start(w, n, io);
            var pending := Pending(WaitingFor(w.jobs[n].config));
            && ok && OthersUntouched(w, later, n) && n in later.jobs
            && SlotOf(later, n) == Slot(Inactive(pending), Some(pending), RunnersOf(w, n))
            && later.jobs[n].config == w.jobs[n].config
  {
    PutTouchesOne(w, n, Settle(SlotOf(w, n), Pending(WaitingFor(w.jobs[n].config)), io));
  }

  /** What the first half of a pass makes of the answers to a pending job. */
  lemma PendingInBetween(w: World, ps: set<Pid>, first: Io, n: Name)
    requires n in w.jobs && w.jobs[n].state.Inactive? && w.jobs[n].state.status.Pending?
    requires !DepsOf(w.jobs, w.jobs[n].config).NotYet?
    ensures var mid := ApplyTo(w, w.jobs.Keys, ActiveStep(w, ps, first));
            && n in mid.jobs && mid.jobs[n] == w.jobs[n] && SlotOf(mid, n) == SlotOf(w, n)
            && DepsOf(mid.jobs, w.jobs[n].config) == DepsOf(w.jobs, w.jobs[n].config)
  {
    var step := ActiveStep(w, ps, first);
    var mid := ApplyTo(w, w.jobs.Keys, step);
    AppliedSlot(w, w.jobs.Keys, step, n);
    assert forall m :: m in w.jobs && Ended(w.jobs[m].state) ==> mid.jobs[m].state == w.jobs[m].state;
    DepsStable(w.jobs, mid.jobs, w.jobs[n].config);
  }

  /** The next pass launches a pending job if all it needs succeeded and all it
      waits for ended; one that cannot be launched has failed. */
  lemma PendingIsLaunched(w: World, n: Name, ps: set<Pid>, first: Io, second: Io)
    requires n in w.jobs && w.jobs[n].state.Inactive? && w.jobs[n].state.status.Pending?
    requires DepsOf(w.jobs, w.jobs[n].config).AllDone? && second(n).clears
    ensures var later := Pass(w, ps, first, second);
            && n in later.jobs
            && match second(n).spawns
               case Some(q) => SlotOf(later, n) == Slot(Active(q), None, RunnersOf(w, n) + {q})
               case None => IsFailed(later.jobs[n].state) && RunnersOf(later, n) == RunnersOf(w, n)
  {
    PendingInBetween(w, ps, first, n);
    var mid := ApplyTo(w, w.jobs.Keys, ActiveStep(w, ps, first));
    AppliedSlot(mid, mid.jobs.Keys, InactiveStep(mid, second), n);
  }

  /** If one of them cannot be satisfied any more, the job has failed, and this is
      recorded. */
  lemma PendingFails(w: World, n: Name, ps: set<Pid>, first: Io, second: Io)
    requires n in w.jobs && w.jobs[n].state.Inactive? && w.jobs[n].state.status.Pending?
    requires DepsOf(w.jobs, w.jobs[n].config).Broken? && second(n).saves
    ensures var later := Pass(w, ps, first, second);
            && n in later.jobs && IsFailed(later.jobs[n].state) && RunnersOf(later, n) == RunnersOf(w, n)
            && FileOf(later, n) == Some(later.jobs[n].state.status)
  {
    PendingInBetween(w, ps, first, n);
    var mid := ApplyTo(w, w.jobs.Keys, ActiveStep(w, ps, first));
    AppliedSlot(mid, mid.jobs.Keys, InactiveStep(mid, second), n);
  }

  /** So a start runs a job again that is over. */
  lemma StartedJobIsLaunched(w: World, n: Name, io: JobIo, ps: set<Pid>, first: Io, second: Io, q: Pid)
    requires n in w.jobs && w.jobs[n].state.Inactive? && io.saves && second(n).clears && second(n).spawns == Some(q)
    requires n !in WaitingFor(w.jobs[n].config) && DepsOf(w.jobs, w.jobs[n].config).AllDone?
    ensures var later := Pass(Start(w, n, io).0, ps, first, second);
            n in later.jobs && SlotOf(later, n) == Slot(Active(q), None, RunnersOf(w, n) + {q})
  {
    var v := Start(w, n, io).0;
    StartMakesPending(w, n, io);
    AllDoneIff(w.jobs, w.jobs[n].config);
    AllDoneIff(v.jobs, w.jobs[n].config);
    assert SlotOf(v, n).state == v.jobs[n].state && SlotOf(v, n).runners == RunnersOf(v, n);
    PendingIsLaunched(v, n, ps, first, second);
  }

  /** A stop or a skip fails exactly when there is no such job, its runner does
      not end or the status cannot be saved. */
  lemma EndIff(w: World, n: Name, status: JobStatus, io: JobIo)
    requires !status.Running?
    ensures var (later, ok) := End(w, n, status, io);
            && (ok <==> n in w.jobs && (w.jobs[n].state.Active? ==> io.kills) && io.saves)
            && OthersUntouched(w, later, n)
            && (ok ==>
                  && n in later.jobs && later.jobs[n].config == w.jobs[n].config
                  && SlotOf(later, n) == Slot(Inactive(status), Some(status), RunnersOf(w, n) - Own(w.jobs[n].state)))
  {
    if n in w.jobs {
      PutTouchesOne(w, n, EndJob(SlotOf(w, n), status, io).0);
    }
  }

  /** A skipped job counts as a success for all that need it, and as over for
      all that wait for it. */
  lemma SkippedCountsAsSuccess(w: World, n: Name, io: JobIo, c: JobConfig)
    requires End(w, n, SKIPPED, io).1
    ensures var later := End(w, n, SKIPPED, io).0;
            && n in later.jobs && Succeeded(later.jobs[n].state)
            && (DepsOf(later.jobs, c).AllDone? <==>
                  && (forall m :: m in ListOf(c.needs) && m != n ==> m in w.jobs && Succeeded(w.jobs[m].state))
                  && (forall m :: m in ListOf(c.waitFor) && m != n ==> m in w.jobs && Ended(w.jobs[m].state)))
  {
    EndIff(w, n, SKIPPED, io);
    AllDoneIff(End(w, n, SKIPPED, io).0.jobs, c);
  }

  lemma RegisterTouchesOne(w: World, n: Name, c: JobConfig)
    ensures var later := Register(w, n, c);
            && OthersUntouched(w, later, n) && n in later.jobs && later.jobs[n].config == c
            && n in later.configs && later.configs[n] == c
            && SlotOf(later, n) == Slot(Inactive(Stopped), Some(Stopped), RunnersOf(w, n))
    ensures OthersUntouched(w, w.(files := w.files[n := Stopped]), n)
  {
    assert forall m :: RunnersOf(Register(w, n, c), m) == RunnersOf(w, m);
    assert forall m :: RunnersOf(w.(files := w.files[n := Stopped]), m) == RunnersOf(w, m);
  }

  lemma TerminatedTouchesOne(w: World, n: Name, io: JobIo)
    ensures var (later, ok) := Terminated(w, n, io);
            && OthersUntouched(w, later, n)
            && (ok <==> (n in w.jobs && w.jobs[n].state.Active? ==> io.kills))
            && (ok ==> RunnersOf(later, n) == RunnersOf(w, n) - if n in w.jobs then Own(w.jobs[n].state) else {})
  {
    if n in w.jobs {
      var slot := Terminate(SlotOf(w, n), io).0;
      PutTouchesOne(w, n, slot);
      assert RunnersOf(Put(w, n, slot), n) == slot.runners;
    }
  }

  /** A created job is stopped, has the new config and no runner of the old one. */
  lemma CreateIff(w: World, n: Name, c: JobConfig, io: JobIo, saved: bool)
    ensures var (later, ok) := Create(w, n, c, io, saved);
            && (ok <==>
                  && (n in w.jobs || |w.jobs| < MAX_JOBS)
                  && (n in w.jobs && w.jobs[n].state.Active? ==> io.kills) && io.saves && saved)
            && OthersUntouched(w, later, n)
            && (ok ==> IsNewJob(w, later, n, c))
  {
    var v := Terminated(w, n, io).0;
    TerminatedTouchesOne(w, n, io);
    RegisterTouchesOne(v, n, c);
  }

  ghost predicate IsNewJob(w: World, later: World, n: Name, c: JobConfig) {
    && n in later.jobs && later.jobs[n].config == c && n in later.configs && later.configs[n] == c
    && SlotOf(later, n) == Slot(Inactive(Stopped), Some(Stopped),
                                RunnersOf(w, n) - if n in w.jobs then Own(w.jobs[n].state) else {})
  }
}
