/** The jobs registry and its operations: the requests of clients and the
    passes of the manager, each under one lock. */
module JobsManager {
  import opened Layout
  import opened Jobs

  const MAX_JOBS: nat := 16

  // ---- what each operation does to the world ------------------------------

  type Io = Name -> JobIo

  function StopStep(w: World, io: Io): Name -> Slot {
    (n: Name) => if n in w.jobs then EndJob(SlotOf(w, n), Stopped, io(n)).0 else Slot(Inactive(Stopped), None, {})
  }

  function ShutdownStep(w: World, force: bool, io: Io): Name -> Slot {
    (n: Name) => if n in w.jobs then ShutdownJob(SlotOf(w, n), force, io(n)).0 else Slot(Inactive(Stopped), None, {})
  }

  function ActiveStep(w: World, ps: set<Pid>, io: Io): Name -> Slot {
    (n: Name) =>
      if n in w.jobs then UpdateActive(w.jobs[n].config, SlotOf(w, n), ps, io(n)) else Slot(Inactive(Stopped), None, {})
  }

  function InactiveStep(w: World, io: Io): Name -> Slot {
    (n: Name) =>
      if n in w.jobs then CheckInactive(w.jobs[n].config, w.jobs, SlotOf(w, n), io(n))
      else Slot(Inactive(Stopped), None, {})
  }

  /** `update_jobs`: first the active jobs without a process, then the inactive
      ones, against the registry as it was in between. */
  function Pass(w: World, ps: set<Pid>, first: Io, second: Io): World {
    var mid := ApplyTo(w, w.jobs.Keys, ActiveStep(w, ps, first));
    ApplyTo(mid, mid.jobs.Keys, InactiveStep(mid, second))
  }

  /** `load_jobs`: every job with a config file gets the state found for it. */
  function Load(w: World, found: Name -> Option<Pid>, io: Io): World {
    w.(jobs := map n | n in w.jobs.Keys + w.configs.Keys ::
                 if n in w.configs then LoadedJob(w, n, found(n), io(n)) else w.jobs[n])
  }

  function LoadedJob(w: World, n: Name, runner: Option<Pid>, io: JobIo): Job
    requires n in w.configs
  {
    Job(w.configs[n], LoadedState(FileOf(w, n), runner, io))
  }

  /** `found` picks a runner of each job that has one. */
  ghost predicate IsFound(w: World, found: Name -> Option<Pid>) {
    forall n :: match found(n) case Some(p) => p in RunnersOf(w, n) case None => RunnersOf(w, n) == {}
  }

  function Terminated(w: World, n: Name, io: JobIo): (World, bool) {
    if n in w.jobs then (Put(w, n, Terminate(SlotOf(w, n), io).0), Terminate(SlotOf(w, n), io).1) else (w, true)
  }

  function Register(w: World, n: Name, c: JobConfig): World {
    w.(files := w.files[n := Stopped], configs := w.configs[n := c], jobs := w.jobs[n := Job(c, Inactive(Stopped))])
  }

  /** `create`: an existing job is terminated first; the new one is stopped. */
  function Create(w: World, n: Name, c: JobConfig, io: JobIo, configSaved: bool): (World, bool) {
    if n !in w.jobs && |w.jobs| >= MAX_JOBS then (w, false)
    else
      var (v, ok) := Terminated(w, n, io);
      if !ok || !io.saves then (v, false)
      else if !configSaved then (v.(files := v.files[n := Stopped]), false)
      else (Register(v, n, c), true)
  }

  /** `start`: an inactive job becomes pending. */
  function Start(w: World, n: Name, io: JobIo): (World, bool) {
    if n !in w.jobs then (w, false)
    else if w.jobs[n].state.Active? then (w, true)
    else (Put(w, n, Settle(SlotOf(w, n), Pending(WaitingFor(w.jobs[n].config)), io)), io.saves)
  }

  function End(w: World, n: Name, status: JobStatus, io: JobIo): (World, bool) {
    if n !in w.jobs then (w, false)
    else
      var (slot, ok) := EndJob(SlotOf(w, n), status, io);
      (Put(w, n, slot), ok)
  }

  lemma PutSame(w: World, n: Name)
    requires n in w.jobs
    ensures Put(w, n, SlotOf(w, n)) == w
  {
    forall m
      ensures RunnersOf(Put(w, n, SlotOf(w, n)), m) == RunnersOf(w, m)
    {
      RunnersAfter(w, {n}, _ => SlotOf(w, n), m);
    }
    SameWorld(Put(w, n, SlotOf(w, n)), w);
  }

  class JobsRegistry {
    var jobs: map<Name, Job>
    var configs: map<Name, JobConfig>
    var files: map<Name, JobStatus>
    var runners: set<(Name, Pid)>
    var phase: Phase
    var loaded: bool

    ghost function State(): World
      reads this
    {
      World(jobs, configs, files, runners, phase, loaded)
    }

    /** A new jobs manager over what the directory and the process table hold. */
    constructor (configs: map<Name, JobConfig>, files: map<Name, JobStatus>, runners: set<(Name, Pid)>)
      ensures State() == World(map[], configs, files, runners, NotReady, false)
    {
      this.jobs, this.configs, this.files, this.runners := map[], configs, files, runners;
      phase, loaded := NotReady, false;
    }

    // -- one job ------------------------------------------------------------

    method SetState(n: Name, state: JobState)
      requires n in jobs
      modifies this`jobs
      ensures State() == Put(old(State()), n, SlotOf(old(State()), n).(state := state))
    {
      ghost var w := State();
      PutSame(w, n);
      PutParts(w, n, SlotOf(w, n));
      PutParts(w, n, SlotOf(w, n).(state := state));
      jobs := jobs[n := jobs[n].(state := state)];
    }

    method SaveFile(n: Name, file: Option<JobStatus>)
      requires n in jobs
      modifies this`files
      ensures State() == Put(old(State()), n, SlotOf(old(State()), n).(file := file))
    {
      ghost var w := State();
      PutSame(w, n);
      PutParts(w, n, SlotOf(w, n));
      PutParts(w, n, SlotOf(w, n).(file := file));
      files := match file case None => files - {n} case Some(s) => files[n := s];
    }

    method SetRunners(n: Name, pids: set<Pid>)
      requires n in jobs
      modifies this`runners
      ensures State() == Put(old(State()), n, SlotOf(old(State()), n).(runners := pids))
    {
      ghost var w := State();
      PutSame(w, n);
      PutParts(w, n, SlotOf(w, n));
      PutParts(w, n, SlotOf(w, n).(runners := pids));
      runners := (set r | r in runners && r.0 != n) + set p | p in pids :: (n, p);
    }

    /** `save_status` after the state was set. */
    method SaveStatusOf(n: Name, io: JobIo) returns (ok: bool)
      requires n in jobs
      modifies this`files
      ensures var s := SlotOf(old(State()), n);
              && State() == Put(old(State()), n, s.(file := SaveStatus(s.state, s.file, io).0))
              && ok == SaveStatus(s.state, s.file, io).1
    {
      ghost var w := State();
      PutSame(w, n);
      match jobs[n].state
      case Active(_) => ok := true;
      case Inactive(status) =>
        if status.Running? {
          ok := n !in files || io.clears;
          if ok {
            SaveFile(n, None);
          }
        } else {
          ok := io.saves;
          if ok {
            SaveFile(n, Some(status));
          }
        }
    }

    method SettleJob(n: Name, status: JobStatus, io: JobIo) returns (ok: bool)
      requires n in jobs && !status.Running?
      modifies this`jobs, this`files
      ensures State() == Put(old(State()), n, Settle(SlotOf(old(State()), n), status, io))
      ensures ok == io.saves
    {
      ghost var w := State();
      ghost var slot := SlotOf(w, n);
      SetState(n, Inactive(status));
      Twice(w, n, slot.(state := Inactive(status)), Settle(slot, status, io));
      ok := SaveStatusOf(n, io);
    }

    method StartJob(n: Name, io: JobIo)
      requires n in jobs
      modifies this`jobs, this`files, this`runners
      ensures State() == Put(old(State()), n, Jobs.StartJob(SlotOf(old(State()), n), io))
    {
      ghost var w := State();
      ghost var slot := SlotOf(w, n);
      var cleared := n !in files || io.clears;
      if !cleared {
        SetState(n, Inactive(Running));
        return;
      }
      SaveFile(n, None);
      ghost var clean := slot.(file := None);
      match io.spawns
      case Some(pid) =>
        Twice(w, n, clean, clean.(runners := slot.runners + {pid}));
        Twice(w, n, clean.(runners := slot.runners + {pid}), Jobs.StartJob(slot, io));
        SetRunners(n, (set r | r in runners && r.0 == n :: r.1) + {pid});
        SetState(n, Active(pid));
      case None =>
        Twice(w, n, clean, Jobs.StartJob(slot, io));
        var _ := SettleJob(n, CANNOT_START, io);
    }

    method HandleStoppedJob(n: Name, io: JobIo)
      requires n in jobs
      modifies this`jobs, this`files, this`runners
      ensures State() == Put(old(State()), n, HandleStopped(old(jobs)[n].config, SlotOf(old(State()), n), io))
    {
      var status;
      if !io.loads || n !in files {
        status := if jobs[n].config.restart.Never? then LOST else Running;
      } else {
        status := files[n];
      }
      if status.Finished? || status.Stopped? {
        SetState(n, Inactive(status));
      } else {
        StartJob(n, io);
      }
    }

    method StopJob(n: Name, status: JobStatus, io: JobIo) returns (ok: bool)
      requires n in jobs && !status.Running?
      modifies this`jobs, this`files, this`runners
      ensures State() == Put(old(State()), n, EndJob(SlotOf(old(State()), n), status, io).0)
      ensures ok == EndJob(SlotOf(old(State()), n), status, io).1
    {
      ghost var w := State();
      PutSame(w, n);
      ghost var slot := SlotOf(w, n);
      if jobs[n].state.Active? {
        if !io.kills {
          return false;
        }
        SetRunners(n, (set r | r in runners && r.0 == n :: r.1) - {jobs[n].state.pid});
        Twice(w, n, Terminate(slot, io).0, EndJob(slot, status, io).0);
      }
      ok := SettleJob(n, status, io);
    }

    // -- passes of the manager ----------------------------------------------

    method UpdateActiveJobs(ps: set<Pid>, io: Io)
      modifies this`jobs, this`files, this`runners
      ensures State() == ApplyTo(old(State()), old(jobs).Keys, ActiveStep(old(State()), ps, io))
    {
      ghost var w := State();
      ghost var step := ActiveStep(w, ps, io);
      var todo := jobs.Keys;
      ghost var done: set<Name> := {};
      ApplyNone(w, step);
      while todo != {}
        invariant done + todo == w.jobs.Keys && done !! todo
        invariant State() == ApplyTo(w, done, step)
        decreases todo
      {
        var n :| n in todo;
        ghost var v := State();
        AppliedSlot(w, done, step, n);
        ApplyOneMore(w, done, step, n);
        PutSame(v, n);
        if jobs[n].state.Active? && jobs[n].state.pid !in ps {
          HandleStoppedJob(n, io(n));
        }
        todo, done := todo - {n}, done + {n};
      }
      assert done == w.jobs.Keys;
    }

    /** Dependencies are judged by the registry as it was when this started. */
    method CheckInactiveJobs(io: Io)
      modifies this`jobs, this`files, this`runners
      ensures State() == ApplyTo(old(State()), old(jobs).Keys, InactiveStep(old(State()), io))
    {
      ghost var w := State();
      ghost var step := InactiveStep(w, io);
      var deps := jobs;
      var todo := jobs.Keys;
      ghost var done: set<Name> := {};
      ApplyNone(w, step);
      while todo != {}
        invariant done + todo == w.jobs.Keys && done !! todo
        invariant State() == ApplyTo(w, done, step)
        decreases todo
      {
        var n :| n in todo;
        AppliedSlot(w, done, step, n);
        ApplyOneMore(w, done, step, n);
        CheckInactiveJob(n, deps, io(n));
        todo, done := todo - {n}, done + {n};
      }
      assert done == w.jobs.Keys;
    }

    method CheckInactiveJob(n: Name, deps: map<Name, Job>, io: JobIo)
      requires n in jobs
      modifies this`jobs, this`files, this`runners
      ensures State() ==
              Put(old(State()), n, CheckInactive(old(jobs)[n].config, deps, SlotOf(old(State()), n), io))
    {
      PutSame(State(), n);
      match jobs[n].state
      case Active(_) =>
      case Inactive(status) =>
        if status.Pending? {
          var finished := DepsFinished(deps, jobs[n].config);
          match finished
          case AllDone => StartJob(n, io);
          case NotYet =>
          case Broken(message) => var _ := SettleJob(n, Finished(None, message), io);
        } else if status.Running? {
          HandleStoppedJob(n, io);
        }
    }

    method UpdateJobs(ps: set<Pid>, first: Io, second: Io)
      modifies this`jobs, this`files, this`runners
      ensures State() == Pass(old(State()), ps, first, second)
    {
      UpdateActiveJobs(ps, first);
      CheckInactiveJobs(second);
    }

    // -- requests of clients ------------------------------------------------

    method FindState(n: Name, runner: Option<Pid>, io: JobIo) returns (state: JobState)
      ensures state == LoadedState(FileOf(State(), n), runner, io)
    {
      match runner
      case Some(pid) => state := Active(pid);
      case None => state := Inactive(if io.loads && n in files then files[n] else Pending([]));
    }

    method LoadJobs(found: Name -> Option<Pid>, io: Io)
      requires IsFound(State(), found)
      modifies this`jobs
      ensures State() == Load(old(State()), found, io)
    {
      ghost var w := State();
      var todo := configs.Keys;
      while todo != {}
        invariant todo <= configs.Keys
        invariant jobs.Keys == w.jobs.Keys + (configs.Keys - todo)
        invariant forall n :: n in jobs ==>
                    jobs[n] == if n in configs && n !in todo then LoadedJob(w, n, found(n), io(n)) else w.jobs[n]
        decreases todo
      {
        var n :| n in todo;
        var state := FindState(n, found(n), io(n));
        jobs := jobs[n := Job(configs[n], state)];
        todo := todo - {n};
      }
      assert jobs == Load(w, found, io).jobs;
    }

    method StartupManager(found: Name -> Option<Pid>, io: Io)
      requires IsFound(State(), found)
      modifies this`jobs, this`phase, this`loaded
      ensures State() == Load(old(State()), found, io).(phase := Ready, loaded := true)
    {
      LoadJobs(found, io);
      phase, loaded := Ready, true;
    }

    /** Stops at the first runner that would not terminate. */
    method ShutdownManager(force: bool, io: Io) returns (ok: bool, ghost done: set<Name>)
      modifies this`jobs, this`runners, this`phase
      ensures done <= old(jobs).Keys && (ok ==> done == old(jobs).Keys)
      ensures var w := old(State()).(phase := Shutdown);
              State() == ApplyTo(w, done, ShutdownStep(w, force, io))
      ensures force ==> ok
    {
      phase := Shutdown;
      ghost var w := State();
      ghost var step := ShutdownStep(w, force, io);
      ok, done := true, {};
      var todo := jobs.Keys;
      ApplyNone(w, step);
      while todo != {}
        invariant done + todo == w.jobs.Keys && done !! todo
        invariant State() == ApplyTo(w, done, step)
        decreases todo
      {
        var n :| n in todo;
        AppliedSlot(w, done, step, n);
        ApplyOneMore(w, done, step, n);
        ok := ShutdownOne(n, force, io(n));
        if !ok {
          return;
        }
        todo, done := todo - {n}, done + {n};
      }
      assert done == w.jobs.Keys;
    }

    method ShutdownOne(n: Name, force: bool, io: JobIo) returns (ok: bool)
      requires n in jobs
      modifies this`jobs, this`runners
      ensures (ok, State()) ==
              (Jobs.ShutdownJob(SlotOf(old(State()), n), force, io).1,
               Put(old(State()), n, Jobs.ShutdownJob(SlotOf(old(State()), n), force, io).0))
      ensures !ok ==> State() == old(State())
    {
      ghost var w := State();
      ghost var slot := SlotOf(w, n);
      PutSame(w, n);
      ok := true;
      if jobs[n].state.Active? {
        if force {
          SetRunners(n, {});
          Twice(w, n, slot.(runners := {}), slot.(state := Inactive(Running), runners := {}));
        } else if io.kills {
          SetRunners(n, (set r | r in runners && r.0 == n :: r.1) - {jobs[n].state.pid});
          Twice(w, n, Terminate(slot, io).0, Jobs.ShutdownJob(slot, force, io).0);
        } else {
          return false;
        }
        SetState(n, Inactive(Running));
      }
    }

    method CreateJob(n: Name, c: JobConfig, io: JobIo, configSaved: bool) returns (ok: bool)
      modifies this`jobs, this`configs, this`files, this`runners
      ensures (State(), ok) == Create(old(State()), n, c, io, configSaved)
    {
      ghost var w := State();
      if n in jobs {
        PutSame(w, n);
        if jobs[n].state.Active? {
          if !io.kills {
            return false;
          }
          SetRunners(n, (set r | r in runners && r.0 == n :: r.1) - {jobs[n].state.pid});
        }
      } else if |jobs| >= MAX_JOBS {
        return false;
      }
      if !io.saves {
        return false;
      }
      files := files[n := Stopped];
      if !configSaved {
        return false;
      }
      configs := configs[n := c];
      jobs := jobs[n := Job(c, Inactive(Stopped))];
      ok := true;
    }

    method StartRequest(n: Name, io: JobIo) returns (ok: bool)
      modifies this`jobs, this`files
      ensures (State(), ok) == Start(old(State()), n, io)
    {
      if n !in jobs {
        return false;
      }
      if jobs[n].state.Active? {
        return true;
      }
      ok := SettleJob(n, Pending(WaitingFor(jobs[n].config)), io);
    }

    method StopRequest(n: Name, io: JobIo) returns (ok: bool)
      modifies this`jobs, this`files, this`runners
      ensures (State(), ok) == End(old(State()), n, Stopped, io)
    {
      if n !in jobs {
        return false;
      }
      ok := StopJob(n, Stopped, io);
    }

    method SkipRequest(n: Name, io: JobIo) returns (ok: bool)
      modifies this`jobs, this`files, this`runners
      ensures (State(), ok) == End(old(State()), n, SKIPPED, io)
    {
      if n !in jobs {
        return false;
      }
      ok := StopJob(n, SKIPPED, io);
    }

    /** Stops the jobs one after the other, up to the first failure, which may
        still have changed its job. */
    method StopAll(io: Io) returns (ok: bool, ghost done: set<Name>)
      modifies this`jobs, this`files, this`runners
      ensures done <= old(jobs).Keys && (ok ==> done == old(jobs).Keys)
      ensures State() == ApplyTo(old(State()), done, StopStep(old(State()), io))
      ensures ok ==> forall n :: n in done ==> EndJob(SlotOf(old(State()), n), Stopped, io(n)).1
    {
      ghost var w := State();
      ghost var step := StopStep(w, io);
      ok, done := true, {};
      var todo := jobs.Keys;
      ApplyNone(w, step);
      while todo != {}
        invariant done + todo == w.jobs.Keys && done !! todo
        invariant State() == ApplyTo(w, done, step)
        invariant forall n :: n in done ==> EndJob(SlotOf(w, n), Stopped, io(n)).1
        decreases todo
      {
        var n :| n in todo;
        AppliedSlot(w, done, step, n);
        ApplyOneMore(w, done, step, n);
        ok := StopJob(n, Stopped, io(n));
        todo, done := todo - {n}, done + {n};
        if !ok {
          return;
        }
      }
      assert done == w.jobs.Keys;
    }
  }
}
