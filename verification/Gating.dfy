/** A plugin function at work on the registry, with the manager's passes and the
    runners in between; and what `default_init` guarantees: nothing is launched
    before all it needs has succeeded. */
module Gating {
  import opened Layout
  import opened Jobs
  import opened JobsManager
  import opened JobsSafety
  import opened Plugin

  // ---- a plugin function as a program -------------------------------------

  /** `done` calls were made; `ok` is false once one of them failed, which ends
      the function. */
  datatype Progress = Progress(w: World, done: nat, ok: bool)

  datatype Step = NextCall(io: JobIo, configSaved: bool) | Meanwhile(a: Action)

  function DoCall(w: World, call: Call, io: JobIo, configSaved: bool): (World, bool)
    requires !call.StopAllJobs?
  {
    match call
    case CreateJob(n, c) => Create(w, n, c, io, configSaved)
    case StartJob(n) => Start(w, n, io)
    case StopJob(n) => End(w, n, Stopped, io)
  }

  /** Passes and runners go on all the time, no other client does. */
  ghost predicate IsBackground(w: World, a: Action) {
    (a.ManagerPass? || a.RunnerWrites? || a.RunnerExits?) && Allowed(w, a)
  }

  ghost predicate IsStep(calls: seq<Call>, s: Progress, step: Step, later: Progress) {
    match step
    case NextCall(io, saved) =>
      && s.ok && s.done < |calls| && !calls[s.done].StopAllJobs?
      && var (w, ok) := DoCall(s.w, calls[s.done], io, saved);
         later == Progress(w, if ok then s.done + 1 else s.done, ok)
    case Meanwhile(a) => IsBackground(s.w, a) && later == s.(w := Next(s.w, a))
  }

  ghost predicate IsExecution(calls: seq<Call>, states: seq<Progress>, steps: seq<Step>) {
    && |states| == |steps| + 1 && states[0].done == 0 && states[0].ok
    && forall i :: 0 <= i < |steps| ==> IsStep(calls, states[i], steps[i], states[i + 1])
  }

  // ---- what a pass may launch ---------------------------------------------

  predicate Launched(s: JobState) {
    s.Active? || s.status.Running? || Succeeded(s)
  }

  lemma PassLaunches(w: World, ps: set<Pid>, first: Io, second: Io, n: Name)
    requires n in w.jobs
    ensures var later := Pass(w, ps, first, second).jobs;
            && later.Keys == w.jobs.Keys && later[n].config == w.jobs[n].config
            && (Ended(w.jobs[n].state) ==> later[n].state == w.jobs[n].state)
    ensures var mid := ApplyTo(w, w.jobs.Keys, ActiveStep(w, ps, first)).jobs;
            var later := Pass(w, ps, first, second).jobs;
            && mid.Keys == w.jobs.Keys
            && (Ended(mid[n].state) ==> later[n].state == mid[n].state)
            && (Launched(later[n].state) ==> Launched(w.jobs[n].state) || DepsOf(mid, w.jobs[n].config).AllDone?)
  {
  }

  /** Every launched job has all it needs. */
  ghost predicate IsGated(jobs: map<Name, Job>) {
    forall n :: n in jobs && Launched(jobs[n].state) ==> HasNeeds(jobs, jobs[n].config)
  }

  ghost predicate HasNeeds(jobs: map<Name, Job>, c: JobConfig) {
    forall m :: m in ListOf(c.needs) ==> m in jobs && Succeeded(jobs[m].state)
  }

  lemma PassKeepsGates(w: World, ps: set<Pid>, first: Io, second: Io)
    requires IsGated(w.jobs)
    ensures IsGated(Pass(w, ps, first, second).jobs)
  {
    var mid := ApplyTo(w, w.jobs.Keys, ActiveStep(w, ps, first)).jobs;
    var later := Pass(w, ps, first, second).jobs;
    forall n | n in later && Launched(later[n].state)
      ensures HasNeeds(later, later[n].config)
    {
      PassLaunches(w, ps, first, second, n);
      AllDoneIff(mid, w.jobs[n].config);
      forall m | m in ListOf(later[n].config.needs)
        ensures m in later && Succeeded(later[m].state)
      {
        assert m in w.jobs;
        PassLaunches(w, ps, first, second, m);
      }
    }
  }

  // ---- the invariant ------------------------------------------------------

  predicate IsStartedBy(plan: seq<Planned>, done: nat, n: Name) {
    exists j :: 0 <= j < |plan| && 2 * j + 1 < done && plan[j].name == n
  }

  ghost predicate DistinctNames(plan: seq<Planned>) {
    forall i, j :: 0 <= i < j < |plan| ==> plan[i].name != plan[j].name
  }

  /** Jobs not yet started are stopped, created ones are as planned. */
  ghost predicate GateInv(plan: seq<Planned>, s: Progress) {
    && s.done <= 2 * |plan|
    && IsGated(s.w.jobs)
    && (forall n :: n in s.w.jobs && !IsStartedBy(plan, if s.ok then s.done else s.done + 1, n) ==>
          s.w.jobs[n].state == Inactive(Stopped))
    && AsPlanned(plan, s)
  }

  ghost predicate AsPlanned(plan: seq<Planned>, s: Progress) {
    forall j :: 0 <= j < |plan| && 2 * j < s.done ==> IsPlanned(s.w.jobs, plan[j])
  }

  predicate IsPlanned(jobs: map<Name, Job>, p: Planned) {
    p.name in jobs && jobs[p.name].config == p.config
  }

  /** Changing a stopped job to another that is not launched opens no gate. */
  lemma ReplaceKeepsGates(jobs: map<Name, Job>, n: Name, job: Job)
    requires IsGated(jobs) && !Launched(job.state)
    requires n in jobs ==> jobs[n].state == Inactive(Stopped)
    ensures IsGated(jobs[n := job])
  {
    forall m | m in jobs && m != n && Launched(jobs[m].state)
      ensures HasNeeds(jobs[n := job], jobs[m].config)
    {
      assert HasNeeds(jobs, jobs[m].config);
    }
  }

  lemma NotYetStarted(plan: seq<Planned>, done: nat, j: nat)
    requires DistinctNames(plan) && j < |plan| && done <= 2 * j + 1
    ensures !IsStartedBy(plan, done, plan[j].name)
  {
  }

  lemma StoppedCreate(w: World, n: Name, c: JobConfig, io: JobIo, saved: bool)
    requires n in w.jobs ==> w.jobs[n].state == Inactive(Stopped)
    ensures var (v, ok) := Create(w, n, c, io, saved);
            v.jobs == if ok then w.jobs[n := Job(c, Inactive(Stopped))] else w.jobs
  {
    if n in w.jobs {
      PutSame(w, n);
    }
  }

  lemma CreateKeepsInv(plan: seq<Planned>, s: Progress, step: Step, later: Progress)
    requires DistinctNames(plan) && GateInv(plan, s) && step.NextCall? && IsStep(Calls(plan), s, step, later)
    requires s.done % 2 == 0
    ensures GateInv(plan, later)
  {
    var j := s.done / 2;
    var n := plan[j].name;
    NotYetStarted(plan, s.done, j);
    StoppedCreate(s.w, n, plan[j].config, step.io, step.configSaved);
    if later.ok {
      ReplaceKeepsGates(s.w.jobs, n, Job(plan[j].config, Inactive(Stopped)));
    }
    forall m | m in later.w.jobs && !IsStartedBy(plan, if later.ok then later.done else later.done + 1, m)
      ensures later.w.jobs[m].state == Inactive(Stopped)
    {
      if m != n {
        assert !IsStartedBy(plan, s.done, m);
      }
    }
    forall i | 0 <= i < |plan| && 2 * i < later.done
      ensures IsPlanned(later.w.jobs, plan[i])
    {
      if i != j {
        assert IsPlanned(s.w.jobs, plan[i]);
      }
    }
  }

  lemma StoppedStart(w: World, n: Name, io: JobIo)
    requires n in w.jobs && w.jobs[n].state == Inactive(Stopped)
    ensures var v := Start(w, n, io).0;
            v.jobs == w.jobs[n := w.jobs[n].(state := Inactive(Pending(WaitingFor(w.jobs[n].config))))]
  {
  }

  lemma StartKeepsInv(plan: seq<Planned>, s: Progress, step: Step, later: Progress)
    requires DistinctNames(plan) && GateInv(plan, s) && step.NextCall? && IsStep(Calls(plan), s, step, later)
    requires s.done % 2 == 1
    ensures GateInv(plan, later)
  {
    var j := s.done / 2;
    var n := plan[j].name;
    NotYetStarted(plan, s.done, j);
    assert IsPlanned(s.w.jobs, plan[j]);
    StoppedStart(s.w, n, step.io);
    ReplaceKeepsGates(s.w.jobs, n, s.w.jobs[n].(state := Inactive(Pending(WaitingFor(s.w.jobs[n].config)))));
    assert IsStartedBy(plan, s.done + 1, n);
    forall m | m in later.w.jobs && !IsStartedBy(plan, if later.ok then later.done else later.done + 1, m)
      ensures later.w.jobs[m].state == Inactive(Stopped)
    {
      assert !IsStartedBy(plan, s.done, m);
    }
    forall i | 0 <= i < |plan| && 2 * i < later.done
      ensures IsPlanned(later.w.jobs, plan[i])
    {
      assert IsPlanned(s.w.jobs, plan[i]);
    }
  }

  /** The same jobs, and those that were over still are as they were. */
  ghost predicate KeepsEnded(jobs: map<Name, Job>, later: map<Name, Job>) {
    && later.Keys == jobs.Keys
    && forall n :: n in jobs ==> later[n].config == jobs[n].config && (Ended(jobs[n].state) ==>
      later[n].state == jobs[n].state)
  }

  lemma BackgroundKeepsEnded(w: World, a: Action)
    requires IsBackground(w, a)
    ensures KeepsEnded(w.jobs, Next(w, a).jobs)
    ensures IsGated(w.jobs) ==> IsGated(Next(w, a).jobs)
  {
    if a.ManagerPass? {
      forall n | n in w.jobs
        ensures var later := Pass(w, a.ps, a.first, a.second).jobs;
                && later.Keys == w.jobs.Keys && later[n].config == w.jobs[n].config
                && (Ended(w.jobs[n].state) ==> later[n].state == w.jobs[n].state)
      {
        PassLaunches(w, a.ps, a.first, a.second, n);
      }
      if IsGated(w.jobs) {
        PassKeepsGates(w, a.ps, a.first, a.second);
      }
    }
  }

  lemma BackgroundKeepsInv(plan: seq<Planned>, s: Progress, a: Action, later: Progress)
    requires GateInv(plan, s) && IsBackground(s.w, a) && later == s.(w := Next(s.w, a))
    ensures GateInv(plan, later)
  {
    BackgroundKeepsEnded(s.w, a);
    forall i | 0 <= i < |plan| && 2 * i < later.done
      ensures IsPlanned(later.w.jobs, plan[i])
    {
      assert IsPlanned(s.w.jobs, plan[i]);
    }
  }

  // ---- main results -------------------------------------------------------

  ghost predicate AllStopped(jobs: map<Name, Job>) {
    forall n :: n in jobs ==> jobs[n].state == Inactive(Stopped)
  }

  /** This is what `stop_all` leaves when it succeeds. */
  lemma StopAllStops(w: World, io: Io)
    requires forall n :: n in w.jobs ==> EndJob(SlotOf(w, n), Stopped, io(n)).1
    ensures AllStopped(ApplyTo(w, w.jobs.Keys, StopStep(w, io)).jobs)
  {
    forall n | n in w.jobs
      ensures StopStep(w, io)(n).state == Inactive(Stopped)
    {
      assert EndJob(SlotOf(w, n), Stopped, io(n)).1;
    }
  }

  /** At every moment of an execution that starts with all jobs stopped, a job
      that is running or succeeded has all it needs. */
  lemma {:induction false} ExecutionIsGated(plan: seq<Planned>, states: seq<Progress>, steps: seq<Step>, i: nat)
    requires DistinctNames(plan) && IsExecution(Calls(plan), states, steps) && i <= |steps|
    requires AllStopped(states[0].w.jobs)
    ensures GateInv(plan, states[i])
  {
    if i > 0 {
      ExecutionIsGated(plan, states, steps, i - 1);
      var s := states[i - 1];
      assert IsStep(Calls(plan), s, steps[i - 1], states[i]);
      match steps[i - 1]
      case Meanwhile(a) => BackgroundKeepsInv(plan, s, a, states[i]);
      case NextCall(_, _) =>
        if s.done % 2 == 0 {
          CreateKeepsInv(plan, s, steps[i - 1], states[i]);
        } else {
          StartKeepsInv(plan, s, steps[i - 1], states[i]);
        }
    }
  }

  /** `path` goes from a job to one it needs, and so on. */
  ghost predicate IsPath(jobs: map<Name, Job>, path: seq<Name>) {
    && (forall i :: 0 <= i < |path| - 1 && path[i] in jobs ==> path[i + 1] in ListOf(jobs[path[i]].config.needs))
  }

  /** Needs are transitive: on every path of needs from a launched job all jobs
      have succeeded. */
  lemma {:induction false} NeedsAreTransitive(jobs: map<Name, Job>, path: seq<Name>, i: nat)
    requires IsGated(jobs) && IsPath(jobs, path) && 0 < i < |path|
    requires path[0] in jobs && Launched(jobs[path[0]].state)
    ensures path[i] in jobs && Succeeded(jobs[path[i]].state)
  {
    if i > 1 {
      NeedsAreTransitive(jobs, path, i - 1);
    }
    assert HasNeeds(jobs, jobs[path[i - 1]].config);
    assert path[i - 1 + 1] in ListOf(jobs[path[i - 1]].config.needs);
  }

  // ---- default_init -------------------------------------------------------

  function PlanNames(plan: seq<Planned>): seq<Name> {
    seq(|plan|, i requires 0 <= i < |plan| => plan[i].name)
  }

  lemma DropMiddle(a: seq<Name>, b: seq<Name>, c: seq<Name>)
    requires NoRepeats(a + b + c)
    ensures NoRepeats(a + c)
  {
    NoRepeatsConcat(a + b, c);
    NoRepeatsConcat(a, b);
    NoRepeatsConcat(a, c);
  }

  lemma SwapFront(a: seq<Name>, b: seq<Name>, c: seq<Name>)
    requires NoRepeats(a + b + c)
    ensures NoRepeats(b + a + c)
  {
    NoRepeatsConcat(a + b, c);
    NoRepeatsConcat(a, b);
    NoRepeatsConcat(b, a);
    NoRepeatsConcat(b + a, c);
  }

  /** The names of a valid configuration, in the order in which `init` uses them. */
  lemma InitNames(c: PluginConfig)
    requires IsValid(c)
    ensures var a, b := ListOf(c.auxServices), Names(JobsOf(c.init));
            var p, s := Names(ListOf(c.postDownload)), ServiceNames(c.services);
            NoRepeats(a + b + [DOWNLOAD] + p + s) && NoRepeats(a + b + [DOWNLOAD] + s) && NoRepeats(a + b + s)
  {
    var a, b := ListOf(c.auxServices), Names(JobsOf(c.init));
    var p, s := Names(ListOf(c.postDownload)), ServiceNames(c.services);
    var rest := Names(JobsOf(c.preUpload)) + Names(ListOf(c.postUpload));
    assert AllNames(c) == [UPLOAD] + ([DOWNLOAD] + (a + b) + (p + s)) + rest;
    NoRepeatsConcat([UPLOAD] + ([DOWNLOAD] + (a + b) + (p + s)), rest);
    NoRepeatsConcat([UPLOAD], [DOWNLOAD] + (a + b) + (p + s));
    SwapFront([DOWNLOAD], a + b, p + s);
    assert a + b + [DOWNLOAD] + (p + s) == a + b + [DOWNLOAD] + p + s;
    DropMiddle(a + b + [DOWNLOAD], p, s);
    DropMiddle(a + b, [DOWNLOAD], s);
  }

  lemma InitPlanNames(c: PluginConfig, stamped: bool)
    ensures var a, b := ListOf(c.auxServices), Names(JobsOf(c.init));
            var p, s := Names(ListOf(c.postDownload)), ServiceNames(c.services);
            PlanNames(InitPlan(c, stamped)) in {a + b + [DOWNLOAD] + p + s, a + b + [DOWNLOAD] + s, a + b + s}
  {
    var a, b := ListOf(c.auxServices), Names(JobsOf(c.init));
    var p, s := Names(ListOf(c.postDownload)), ServiceNames(c.services);
    var data := PlanData(c, stamped, NeedsAfter(JobsOf(c.init), []));
    NamesOfConcat(PlanAux(a) + PlanJobs(JobsOf(c.init), []) + data.0, PlanServices(c.services, data.1, []));
    NamesOfConcat(PlanAux(a) + PlanJobs(JobsOf(c.init), []), data.0);
    NamesOfConcat(PlanAux(a), PlanJobs(JobsOf(c.init), []));
    assert PlanNames(PlanAux(a)) == a && PlanNames(PlanJobs(JobsOf(c.init), [])) == b;
    assert PlanNames(PlanServices(c.services, data.1, [])) == s;
    DataNames(c, stamped, NeedsAfter(JobsOf(c.init), []));
    assert a + b + ([DOWNLOAD] + p) + s == a + b + [DOWNLOAD] + p + s;
    assert a + b + [] + s == a + b + s;
  }

  lemma NamesOfConcat(a: seq<Planned>, b: seq<Planned>)
    ensures PlanNames(a + b) == PlanNames(a) + PlanNames(b)
  {
  }

  lemma DataNames(c: PluginConfig, stamped: bool, needs: seq<Name>)
    ensures PlanNames(PlanData(c, stamped, needs).0) ==
            match DataJob(c, stamped)
            case None => []
            case Some((_, post)) => if post then [DOWNLOAD] + Names(ListOf(c.postDownload)) else [DOWNLOAD]
  {
    var posts := PlanJobs(ListOf(c.postDownload), [DOWNLOAD]);
    assert PlanNames(posts) == Names(ListOf(c.postDownload));
    if DataJob(c, stamped).Some? {
      var job := Planned(DOWNLOAD, JobConfig(Some(needs), None, DataJob(c, stamped).value.0));
      NamesOfConcat([job], posts);
      assert PlanNames([job]) == [DOWNLOAD];
    }
  }

  lemma DistinctIff(plan: seq<Planned>)
    ensures DistinctNames(plan) <==> NoRepeats(PlanNames(plan))
  {
    forall i, j | 0 <= i < j < |plan| && NoRepeats(PlanNames(plan))
      ensures plan[i].name != plan[j].name
    {
      assert PlanNames(plan)[i] != PlanNames(plan)[j];
    }
  }

  /** `default_init` gives no name to two jobs of a valid configuration. */
  lemma InitPlanIsDistinct(c: PluginConfig, stamped: bool)
    requires IsValid(c)
    ensures DistinctNames(InitPlan(c, stamped))
  {
    InitNames(c);
    InitPlanNames(c, stamped);
    DistinctIff(InitPlan(c, stamped));
  }

  lemma NotStoppedIsPlanned(plan: seq<Planned>, s: Progress, j: nat)
    requires DistinctNames(plan) && GateInv(plan, s) && j < |plan|
    requires plan[j].name in s.w.jobs && s.w.jobs[plan[j].name].state != Inactive(Stopped)
    ensures IsPlanned(s.w.jobs, plan[j])
  {
    assert IsStartedBy(plan, if s.ok then s.done else s.done + 1, plan[j].name);
  }

  /** The job of a plan, wherever it stands in it. */
  lemma LaunchedHasPlannedNeeds(plan: seq<Planned>, s: Progress, p: Planned)
    requires DistinctNames(plan) && GateInv(plan, s) && p in plan
    requires p.name in s.w.jobs && Launched(s.w.jobs[p.name].state)
    ensures HasNeeds(s.w.jobs, p.config)
  {
    var j :| 0 <= j < |plan| && plan[j] == p;
    NotStoppedIsPlanned(plan, s, j);
  }

  /** No service on protocol data is launched before the data job, and after it
      the post-download jobs, have succeeded. */
  lemma ServicesWaitForData(c: PluginConfig, stamped: bool, s: Progress, i: nat)
    requires IsValid(c) && GateInv(InitPlan(c, stamped), s)
    requires i < |c.services| && c.services[i].useProtocolData && DataJob(c, stamped).Some?
    requires c.services[i].name in s.w.jobs && Launched(s.w.jobs[c.services[i].name].state)
    ensures DOWNLOAD in s.w.jobs && Succeeded(s.w.jobs[DOWNLOAD].state)
    ensures DataJob(c, stamped).value.1 ==>
              forall n :: n in Names(ListOf(c.postDownload)) ==> n in s.w.jobs && Succeeded(s.w.jobs[n].state)
  {
    var plan := InitPlan(c, stamped);
    var data := PlanData(c, stamped, NeedsAfter(JobsOf(c.init), []));
    var posts := ListOf(c.postDownload);
    InitPlanIsDistinct(c, stamped);
    var service := PlanServices(c.services, data.1, [])[i];
    InPlan(PlanAux(ListOf(c.auxServices)) + PlanJobs(JobsOf(c.init), []), data.0, PlanServices(c.services, data.1,
      []), service);
    LaunchedHasPlannedNeeds(plan, s, service);
    assert data.1 == if DataJob(c, stamped).value.1 then NeedsAfter(posts, [DOWNLOAD]) else [DOWNLOAD];
    if DataJob(c, stamped).value.1 && posts != [] {
      var post := PlanJob(posts[0], [DOWNLOAD]);
      assert post == PlanJobs(posts, [DOWNLOAD])[0];
      assert post in data.0;
      InPlan(PlanAux(ListOf(c.auxServices)) + PlanJobs(JobsOf(c.init), []), data.0, PlanServices(c.services,
        data.1, []), post);
      assert Names(posts)[0] == post.name;
      LaunchedHasPlannedNeeds(plan, s, post);
      OwnThenStage(posts[0], [DOWNLOAD]);
    }
  }

  lemma InPlan(a: seq<Planned>, b: seq<Planned>, d: seq<Planned>, p: Planned)
    requires p in b || p in d
    ensures p in a + b + d
  {
  }

  lemma OwnThenStage(job: PlannedJob, needs: seq<Name>)
    ensures forall n :: n in needs ==> n in ListOf(PlanJob(job, needs).config.needs)
  {
  }
}
