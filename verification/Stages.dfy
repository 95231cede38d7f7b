/** The stages of `default_init` and `default_upload`: which jobs there are, under
    which policy, and that no stage is entered before the one it needs is over. */
module Stages {
  import opened Layout
  import opened Jobs
  import opened JobsManager
  import opened JobsSafety
  import opened Plugin
  import opened Gating
  import opened UploadExclusion

  // ---- the jobs of default_init -------------------------------------------

  /** The jobs of `init`, which all later stages need. */
  function InitJobs(c: PluginConfig): seq<Name> {
    Names(JobsOf(c.init))
  }

  /** Some service is archived in a store of its own. */
  predicate HasStore(services: seq<Service>) {
    exists s :: s in services && s.archive && s.storeKey.Some?
  }

  lemma HasStoreIff(services: seq<Service>)
    ensures HasStore(services) <==> IsMultiClient(services)
  {
    if s :| s in services && s.archive && s.storeKey.Some? {
      var i :| 0 <= i < |services| && services[i] == s;
    }
  }

  /** There is a job that brings the protocol data: always for services with
      stores of their own, and otherwise if there is no data yet and a way to get
      it is configured. */
  predicate BringsData(c: PluginConfig, stamped: bool) {
    HasStore(c.services) || (!stamped && (c.alternativeDownload.Some? || c.coldInit.Some?))
  }

  predicate HasPostDownload(c: PluginConfig, stamped: bool) {
    HasStore(c.services) || (!stamped && c.alternativeDownload.Some?)
  }

  function DataPolicy(c: PluginConfig): RestartPolicy
    requires BringsData(c, false)
  {
    if HasStore(c.services) then OnFailure
    else if c.alternativeDownload.Some? then c.alternativeDownload.value
    else c.coldInit.value
  }

  function DataPart(c: PluginConfig, stamped: bool): (seq<Planned>, seq<Name>) {
    PlanData(c, stamped, NeedsAfter(JobsOf(c.init), []))
  }

  lemma InitParts(c: PluginConfig, stamped: bool, p: Planned)
    ensures p in InitPlan(c, stamped) <==>
              p in PlanAux(ListOf(c.auxServices)) || p in PlanJobs(JobsOf(c.init), [])
              || p in DataPart(c, stamped).0 || p in PlanServices(c.services, DataPart(c, stamped).1, [])
  {
  }

  lemma NamesInParts(c: PluginConfig, stamped: bool, p: Planned)
    ensures p in PlanAux(ListOf(c.auxServices)) ==> p.name in ListOf(c.auxServices)
    ensures p in PlanJobs(JobsOf(c.init), []) ==> p.name in InitJobs(c)
    ensures p in PlanServices(c.services, DataPart(c, stamped).1, []) ==> p.name in ServiceNames(c.services)
    ensures p in PlanJobs(ListOf(c.postDownload), [DOWNLOAD]) ==> p.name in Names(ListOf(c.postDownload))
  {
    if p in PlanAux(ListOf(c.auxServices)) {
      var k :| 0 <= k < |ListOf(c.auxServices)| && PlanAux(ListOf(c.auxServices))[k] == p;
      assert ListOf(c.auxServices)[k] == p.name;
    }
    if p in PlanJobs(JobsOf(c.init), []) {
      var k :| 0 <= k < |JobsOf(c.init)| && PlanJobs(JobsOf(c.init), [])[k] == p;
      assert InitJobs(c)[k] == p.name;
    }
    if p in PlanServices(c.services, DataPart(c, stamped).1, []) {
      var k :| 0 <= k < |c.services| && PlanServices(c.services, DataPart(c, stamped).1, [])[k] == p;
      assert ServiceNames(c.services)[k] == p.name;
    }
    if p in PlanJobs(ListOf(c.postDownload), [DOWNLOAD]) {
      var k :| 0 <= k < |ListOf(c.postDownload)| && PlanJobs(ListOf(c.postDownload), [DOWNLOAD])[k] == p;
      assert Names(ListOf(c.postDownload))[k] == p.name;
    }
  }

  lemma DownloadIsReserved(c: PluginConfig)
    requires IsValid(c)
    ensures DOWNLOAD !in ListOf(c.auxServices) && DOWNLOAD !in InitJobs(c) && DOWNLOAD !in ServiceNames(c.services)
    ensures DOWNLOAD !in Names(ListOf(c.postDownload))
  {
    InitNames(c);
    var a, b := ListOf(c.auxServices), InitJobs(c);
    var p, s := Names(ListOf(c.postDownload)), ServiceNames(c.services);
    NoRepeatsConcat(a + b + [DOWNLOAD] + p, s);
    NoRepeatsConcat(a + b + [DOWNLOAD], p);
    NoRepeatsConcat(a + b, [DOWNLOAD]);
    assert DOWNLOAD in [DOWNLOAD];
    assert DOWNLOAD in a + b + [DOWNLOAD] && DOWNLOAD in a + b + [DOWNLOAD] + p;
    assert forall n :: n in a || n in b ==> n in a + b;
  }

  /** There is a data job exactly when one is called for; it needs all of `init`. */
  lemma DataJobIff(c: PluginConfig, stamped: bool, p: Planned)
    requires IsValid(c) && p.name == DOWNLOAD
    ensures p in InitPlan(c, stamped) <==>
              BringsData(c, stamped) && p.config == JobConfig(Some(InitJobs(c)), None, DataPolicy(c))
  {
    InitParts(c, stamped, p);
    NamesInParts(c, stamped, p);
    DownloadIsReserved(c);
    HasStoreIff(c.services);
    assert NeedsAfter(JobsOf(c.init), []) == InitJobs(c);
  }

  /** Post-download jobs follow a download, and not a cold init. */
  lemma PostDownloadIff(c: PluginConfig, stamped: bool, p: Planned)
    requires IsValid(c) && p.name in Names(ListOf(c.postDownload))
    ensures p in InitPlan(c, stamped) <==>
              HasPostDownload(c, stamped) && p in PlanJobs(ListOf(c.postDownload), [DOWNLOAD])
  {
    InitParts(c, stamped, p);
    NamesInParts(c, stamped, p);
    DownloadIsReserved(c);
    PostNamesApart(c, p.name);
    HasStoreIff(c.services);
  }

  lemma PostNamesApart(c: PluginConfig, n: Name)
    requires IsValid(c) && n in Names(ListOf(c.postDownload))
    ensures n !in ListOf(c.auxServices) && n !in InitJobs(c) && n !in ServiceNames(c.services)
  {
    InitNames(c);
    var a, b := ListOf(c.auxServices), InitJobs(c);
    var p, s := Names(ListOf(c.postDownload)), ServiceNames(c.services);
    NoRepeatsConcat(a + b + [DOWNLOAD] + p, s);
    NoRepeatsConcat(a + b + [DOWNLOAD], p);
    assert forall m :: m in a || m in b ==> m in a + b + [DOWNLOAD];
    assert n in a + b + [DOWNLOAD] + p;
  }

  // ---- the policies -------------------------------------------------------

  /** A plain job is restarted only if it says so; it needs what it says first,
      and then what its stage needs. */
  predicate IsPlainJob(config: JobConfig, job: PlannedJob, stage: seq<Name>) {
    && config.restart == (if job.restart.Some? then job.restart.value else Never)
    && config.needs == Some(ListOf(job.needs) + stage) && config.waitFor == None
  }

  /** A service is always restarted; only one on protocol data waits for others. */
  predicate IsServiceJob(config: JobConfig, onData: bool, needs: seq<Name>, waitFor: seq<Name>) {
    config == if onData then JobConfig(Some(needs), Some(waitFor), Always) else JobConfig(None, None, Always)
  }

  predicate HasJob(jobs: map<Name, Job>, n: Name, config: JobConfig) {
    n in jobs && jobs[n].config == config
  }

  lemma AllArePlanned(plan: seq<Planned>, s: Progress, p: Planned)
    requires GateInv(plan, s) && s.done == 2 * |plan| && p in plan
    ensures HasJob(s.w.jobs, p.name, p.config)
  {
    var j :| 0 <= j < |plan| && plan[j] == p;
    assert IsPlanned(s.w.jobs, plan[j]);
  }

  lemma PlainConfig(job: PlannedJob, stage: seq<Name>)
    ensures PlanJob(job, stage).name == job.name && IsPlainJob(PlanJob(job, stage).config, job, stage)
  {
    assert [] + stage == stage;
  }

  /** When all calls were made every auxiliary service and every job of `init` is
      in the registry under its policy. */
  lemma InitConfigs(c: PluginConfig, stamped: bool, s: Progress)
    requires GateInv(InitPlan(c, stamped), s) && s.done == 2 * |InitPlan(c, stamped)|
    ensures forall n :: n in ListOf(c.auxServices) ==> HasJob(s.w.jobs, n, JobConfig(None, None, Always))
    ensures forall job :: job in JobsOf(c.init) ==>
              job.name in s.w.jobs && IsPlainJob(s.w.jobs[job.name].config, job, [])
  {
    forall n | n in ListOf(c.auxServices)
      ensures HasJob(s.w.jobs, n, JobConfig(None, None, Always))
    {
      var k :| 0 <= k < |ListOf(c.auxServices)| && ListOf(c.auxServices)[k] == n;
      var p := PlanAux(ListOf(c.auxServices))[k];
      InitParts(c, stamped, p);
      AllArePlanned(InitPlan(c, stamped), s, p);
    }
    forall job | job in JobsOf(c.init)
      ensures job.name in s.w.jobs && IsPlainJob(s.w.jobs[job.name].config, job, [])
    {
      var k :| 0 <= k < |JobsOf(c.init)| && JobsOf(c.init)[k] == job;
      var p := PlanJobs(JobsOf(c.init), [])[k];
      InitParts(c, stamped, p);
      AllArePlanned(InitPlan(c, stamped), s, p);
      PlainConfig(job, []);
    }
  }

  /** What services on protocol data need: the post-download jobs if they follow
      and there are any, else the data job if there is one, else all of `init`. */
  function ServiceNeeds(c: PluginConfig, stamped: bool): seq<Name> {
    if HasPostDownload(c, stamped) && ListOf(c.postDownload) != [] then Names(ListOf(c.postDownload))
    else if BringsData(c, stamped) then [DOWNLOAD]
    else InitJobs(c)
  }

  lemma ServiceConfigs(c: PluginConfig, stamped: bool, s: Progress)
    requires GateInv(InitPlan(c, stamped), s) && s.done == 2 * |InitPlan(c, stamped)|
    ensures forall x :: x in c.services ==>
              && x.name in s.w.jobs
              && IsServiceJob(s.w.jobs[x.name].config, x.useProtocolData, ServiceNeeds(c, stamped), [])
  {
    HasStoreIff(c.services);
    assert DataPart(c, stamped).1 == ServiceNeeds(c, stamped);
    forall x | x in c.services
      ensures x.name in s.w.jobs
      ensures IsServiceJob(s.w.jobs[x.name].config, x.useProtocolData, ServiceNeeds(c, stamped), [])
    {
      var k :| 0 <= k < |c.services| && c.services[k] == x;
      var p := PlanServices(c.services, DataPart(c, stamped).1, [])[k];
      InitParts(c, stamped, p);
      AllArePlanned(InitPlan(c, stamped), s, p);
    }
  }

  // ---- init comes first ---------------------------------------------------

  /** All of `init` has succeeded. */
  ghost predicate InitIsDone(c: PluginConfig, jobs: map<Name, Job>) {
    forall m :: m in InitJobs(c) ==> m in jobs && Succeeded(jobs[m].state)
  }

  lemma NotPlannedNotLaunched(plan: seq<Planned>, s: Progress, n: Name)
    requires GateInv(plan, s) && (forall p :: p in plan ==> p.name != n)
    ensures n in s.w.jobs ==> !Launched(s.w.jobs[n].state)
  {
    assert !IsStartedBy(plan, if s.ok then s.done else s.done + 1, n);
  }

  /** The data job is not launched before all of `init` has succeeded. */
  lemma DataWaitsForInit(c: PluginConfig, stamped: bool, s: Progress)
    requires IsValid(c) && GateInv(InitPlan(c, stamped), s)
    requires DOWNLOAD in s.w.jobs && Launched(s.w.jobs[DOWNLOAD].state)
    ensures BringsData(c, stamped) && InitIsDone(c, s.w.jobs)
  {
    var plan := InitPlan(c, stamped);
    if !BringsData(c, stamped) {
      forall p | p in plan
        ensures p.name != DOWNLOAD
      {
        if p.name == DOWNLOAD {
          DataJobIff(c, stamped, p);
        }
      }
      NotPlannedNotLaunched(plan, s, DOWNLOAD);
    } else {
      var job := Planned(DOWNLOAD, JobConfig(Some(InitJobs(c)), None, DataPolicy(c)));
      DataJobIff(c, stamped, job);
      InitPlanIsDistinct(c, stamped);
      LaunchedHasPlannedNeeds(plan, s, job);
    }
  }

  /** Nor is any service on protocol data, whether or not there is a data job. */
  lemma ServicesWaitForInit(c: PluginConfig, stamped: bool, s: Progress, i: nat)
    requires IsValid(c) && GateInv(InitPlan(c, stamped), s)
    requires i < |c.services| && c.services[i].useProtocolData
    requires c.services[i].name in s.w.jobs && Launched(s.w.jobs[c.services[i].name].state)
    ensures InitIsDone(c, s.w.jobs)
  {
    if DataJob(c, stamped).Some? {
      ServicesWaitForData(c, stamped, s, i);
      DataWaitsForInit(c, stamped, s);
    } else {
      var service := PlanServices(c.services, DataPart(c, stamped).1, [])[i];
      InitParts(c, stamped, service);
      InitPlanIsDistinct(c, stamped);
      LaunchedHasPlannedNeeds(InitPlan(c, stamped), s, service);
      assert DataPart(c, stamped).1 == InitJobs(c);
    }
  }

  /** Nor is any post-download job, which also comes after the data job. */
  lemma PostsWaitForInit(c: PluginConfig, stamped: bool, s: Progress, n: Name)
    requires IsValid(c) && GateInv(InitPlan(c, stamped), s)
    requires n in Names(ListOf(c.postDownload)) && n in s.w.jobs && Launched(s.w.jobs[n].state)
    ensures HasPostDownload(c, stamped) && InitIsDone(c, s.w.jobs)
    ensures DOWNLOAD in s.w.jobs && Succeeded(s.w.jobs[DOWNLOAD].state)
  {
    var plan, posts := InitPlan(c, stamped), ListOf(c.postDownload);
    if !HasPostDownload(c, stamped) {
      forall p | p in plan
        ensures p.name != n
      {
        if p.name == n {
          PostDownloadIff(c, stamped, p);
        }
      }
      NotPlannedNotLaunched(plan, s, n);
    } else {
      var k :| 0 <= k < |posts| && Names(posts)[k] == n;
      var job := PlanJobs(posts, [DOWNLOAD])[k];
      PostDownloadIff(c, stamped, job);
      InitPlanIsDistinct(c, stamped);
      LaunchedHasPlannedNeeds(plan, s, job);
      OwnThenStage(posts[k], [DOWNLOAD]);
      DataWaitsForInit(c, stamped, s);
    }
  }

  // ---- one job of a plan behind another -----------------------------------

  /** Two jobs of the plan, by their places; nothing is said of a guard. */
  function Pair(stops: seq<Name>, plan: seq<Planned>, first: nat, second: nat): Places {
    Places(stops, plan, first, first, second, 0)
  }

  lemma CallKeepsCreated(x: Places, s: Progress, step: Step, later: Progress)
    requires DistinctNames(x.plan) && Created(x, s)
    requires step.NextCall? && IsStep(Program(x.stops, x.plan), s, step, later)
    ensures Created(x, later)
    ensures s.done >= |x.stops| ==> OthersSame(x, s.w.jobs, later.w.jobs, (s.done - |x.stops|) / 2)
  {
    if s.done >= |x.stops| {
      var j := (s.done - |x.stops|) / 2;
      var p := x.plan[j];
      ProgramAt(x, j);
      if s.done == CreateAt(x, j) {
        OthersAreSame(x, s.w, Call.CreateJob(p.name, p.config), step.io, step.configSaved, j);
        CreateEffect(s.w, p.name, p.config, step.io, step.configSaved);
      } else {
        assert IsPlanned(s.w.jobs, p) && IsStoppedJob(s.w.jobs, p.name);
        OthersAreSame(x, s.w, StartJob(p.name), step.io, step.configSaved, j);
        StoppedStart(s.w, p.name, step.io);
      }
      OthersStayCreated(x, s, later, j);
    }
  }

  lemma OthersStayCreated(x: Places, s: Progress, later: Progress, j: nat)
    requires DistinctNames(x.plan) && Created(x, s) && j < |x.plan| && OthersSame(x, s.w.jobs, later.w.jobs, j)
    requires s.done in {CreateAt(x, j), CreateAt(x, j) + 1}
    requires s.ok && later.done == if later.ok then s.done + 1 else s.done
    requires CreateAt(x, j) < later.done ==> IsPlanned(later.w.jobs, x.plan[j])
    requires CreateAt(x, j) < later.done && Begun(later) <= CreateAt(x, j) + 1 ==>
               IsStoppedJob(later.w.jobs, x.plan[j].name)
    ensures Created(x, later)
  {
    forall i | 0 <= i < |x.plan| && i != j && CreateAt(x, i) < later.done
      ensures IsPlanned(later.w.jobs, x.plan[i])
      ensures Begun(later) <= CreateAt(x, i) + 1 ==> IsStoppedJob(later.w.jobs, x.plan[i].name)
    {
      assert SameEntry(s.w.jobs, later.w.jobs, x.plan[i].name);
      assert IsPlanned(s.w.jobs, x.plan[i]);
    }
  }

  lemma BackgroundKeepsCreated(x: Places, s: Progress, a: Action, later: Progress)
    requires Created(x, s) && IsBackground(s.w, a) && later == s.(w := Next(s.w, a))
    ensures Created(x, later)
  {
    BackgroundKeepsEnded(s.w, a);
    forall j | 0 <= j < |x.plan| && CreateAt(x, j) < s.done
      ensures IsPlanned(later.w.jobs, x.plan[j])
    {
      assert IsPlanned(s.w.jobs, x.plan[j]);
    }
  }

  /** In any execution of a program a job that was created is in the registry as
      planned, and is stopped until it is started. */
  lemma {:induction false} ExecutionCreates(x: Places, states: seq<Progress>, steps: seq<Step>, k: nat)
    requires DistinctNames(x.plan) && IsExecution(Program(x.stops, x.plan), states, steps) && k <= |steps|
    ensures Created(x, states[k])
  {
    if k > 0 {
      ExecutionCreates(x, states, steps, k - 1);
      assert IsStep(Program(x.stops, x.plan), states[k - 1], steps[k - 1], states[k]);
      match steps[k - 1]
      case Meanwhile(a) => BackgroundKeepsCreated(x, states[k - 1], a, states[k]);
      case NextCall(_, _) => CallKeepsCreated(x, states[k - 1], steps[k - 1], states[k]);
    }
  }

  /** `b` is not launched before `a` has succeeded. */
  predicate Behind(jobs: map<Name, Job>, a: Name, b: Name) {
    && a in jobs && b in jobs
    && (Launched(jobs[b].state) ==> Succeeded(jobs[a].state))
  }

  lemma PassKeepsBehind(w: World, ps: set<Pid>, first: Io, second: Io, a: Name, b: Name)
    requires Behind(w.jobs, a, b) && a in ListOf(w.jobs[b].config.needs)
    ensures Behind(Pass(w, ps, first, second).jobs, a, b)
  {
    var mid := ApplyTo(w, w.jobs.Keys, ActiveStep(w, ps, first)).jobs;
    PassLaunches(w, ps, first, second, a);
    PassLaunches(w, ps, first, second, b);
    AllDoneIff(mid, w.jobs[b].config);
  }

  /** Once its job is created. */
  ghost predicate BehindOnce(x: Places, s: Progress)
    requires x.upload < x.service < |x.plan|
  {
    CreateAt(x, x.service) < s.done ==> Behind(s.w.jobs, x.plan[x.upload].name, x.plan[x.service].name)
  }

  lemma CallKeepsBehind(x: Places, s: Progress, step: Step, later: Progress)
    requires DistinctNames(x.plan) && x.upload < x.service < |x.plan| && Created(x, s) && BehindOnce(x, s)
    requires step.NextCall? && IsStep(Program(x.stops, x.plan), s, step, later)
    ensures BehindOnce(x, later)
  {
    CallKeepsCreated(x, s, step, later);
    if CreateAt(x, x.service) < later.done {
      var j := (s.done - |x.stops|) / 2;
      assert j >= x.service > x.upload;
      assert SameEntry(s.w.jobs, later.w.jobs, x.plan[x.upload].name);
      assert IsPlanned(s.w.jobs, x.plan[x.upload]);
      if j == x.service {
        StartedIsNotLaunched(x, s, step, later);
      } else {
        assert SameEntry(s.w.jobs, later.w.jobs, x.plan[x.service].name);
      }
    }
  }

  /** A job that was just created or started has not been launched. */
  lemma StartedIsNotLaunched(x: Places, s: Progress, step: Step, later: Progress)
    requires DistinctNames(x.plan) && x.service < |x.plan| && Created(x, s)
    requires s.done in {CreateAt(x, x.service), CreateAt(x, x.service) + 1} && CreateAt(x, x.service) < later.done
    requires step.NextCall? && IsStep(Program(x.stops, x.plan), s, step, later)
    ensures var n := x.plan[x.service].name;
            n in later.w.jobs && !Launched(later.w.jobs[n].state)
  {
    var p := x.plan[x.service];
    ProgramAt(x, x.service);
    if s.done == CreateAt(x, x.service) {
      CreateEffect(s.w, p.name, p.config, step.io, step.configSaved);
    } else {
      assert IsPlanned(s.w.jobs, p) && IsStoppedJob(s.w.jobs, p.name);
      StoppedStart(s.w, p.name, step.io);
    }
  }

  lemma BackgroundKeepsBehind(x: Places, s: Progress, a: Action, later: Progress)
    requires x.upload < x.service < |x.plan| && Created(x, s) && BehindOnce(x, s)
    requires x.plan[x.upload].name in ListOf(x.plan[x.service].config.needs)
    requires IsBackground(s.w, a) && later == s.(w := Next(s.w, a))
    ensures BehindOnce(x, later)
  {
    if CreateAt(x, x.service) < s.done {
      assert IsPlanned(s.w.jobs, x.plan[x.service]);
      if a.ManagerPass? {
        PassKeepsBehind(s.w, a.ps, a.first, a.second, x.plan[x.upload].name, x.plan[x.service].name);
      }
    }
  }

  /** In any execution of a program, from any state of the registry, a job that
      needs an earlier one of the plan is not launched before that succeeded. */
  lemma {:induction false} ExecutionKeepsBehind(x: Places, states: seq<Progress>, steps: seq<Step>, k: nat)
    requires DistinctNames(x.plan) && x.upload < x.service < |x.plan|
    requires x.plan[x.upload].name in ListOf(x.plan[x.service].config.needs)
    requires IsExecution(Program(x.stops, x.plan), states, steps) && k <= |steps|
    ensures BehindOnce(x, states[k])
  {
    if k > 0 {
      ExecutionKeepsBehind(x, states, steps, k - 1);
      ExecutionCreates(x, states, steps, k - 1);
      assert IsStep(Program(x.stops, x.plan), states[k - 1], steps[k - 1], states[k]);
      match steps[k - 1]
      case Meanwhile(a) => BackgroundKeepsBehind(x, states[k - 1], a, states[k]);
      case NextCall(_, _) => CallKeepsBehind(x, states[k - 1], steps[k - 1], states[k]);
    }
  }

  // ---- the jobs of default_upload -----------------------------------------

  /** There is an upload job exactly when a service on protocol data is archived
      in a store of its own. */
  lemma HasUploadIff(c: PluginConfig)
    ensures HasUpload(c) <==>
              exists s :: s in c.services && s.useProtocolData && s.archive && s.storeKey.Some?
  {
    HasStoreIff(OnProtocolData(c.services));
  }

  lemma NamesWithoutUpload(c: PluginConfig)
    requires !HasUpload(c)
    ensures PlanNames(UploadPlan(c)) ==
            PreJobs(c) + Names(ListOf(c.postUpload)) + ServiceNames(OnProtocolData(c.services))
  {
    UploadPlanParts(c);
    var b, p := PlanJobs(JobsOf(c.preUpload), []), PlanJobs(ListOf(c.postUpload), PostNeeds(c));
    var t := PlanServices(OnProtocolData(c.services), [], Awaited(c));
    assert b + [] == b;
    NamesOfConcat(b + p, t);
    NamesOfConcat(b, p);
    assert PlanNames(b) == PreJobs(c) && PlanNames(p) == Names(ListOf(c.postUpload));
    assert PlanNames(t) == ServiceNames(OnProtocolData(c.services));
  }

  lemma UploadNames(c: PluginConfig)
    requires IsValid(c)
    ensures DistinctNames(UploadPlan(c))
  {
    if HasUpload(c) {
      UploadPlanIsDistinct(c);
    } else {
      var s, b, p := ServiceNames(c.services), PreJobs(c), Names(ListOf(c.postUpload));
      NamesWithoutUpload(c);
      UploadSections(c);
      WithoutUpload(s, b, p);
      SomeServices(c.services);
      Regroup([], s, b, p, ServiceNames(OnProtocolData(c.services)));
      assert b + [] == b;
      DistinctIff(UploadPlan(c));
    }
  }

  lemma WithoutUpload(s: seq<Name>, b: seq<Name>, p: seq<Name>)
    requires NoRepeats([UPLOAD] + s + b + p)
    ensures NoRepeats(s) && NoRepeats([] + s + b + p)
  {
    NoRepeatsConcat([UPLOAD] + s + b, p);
    NoRepeatsConcat([UPLOAD] + s, b);
    NoRepeatsConcat([UPLOAD], s);
    assert [] + s == s;
    NoRepeatsConcat(s, b);
    NoRepeatsConcat(s + b, p);
  }

  function UploadStops(c: PluginConfig): seq<Name> {
    ServiceNames(OnProtocolData(c.services))
  }

  /** The `j`-th job of the plan of `default_upload` has been created. */
  predicate CreatedInUpload(c: PluginConfig, s: Progress, j: nat) {
    |UploadStops(c)| + 2 * j < s.done
  }

  /** The upload is not launched before all pre-upload jobs have succeeded. */
  lemma UploadWaitsForPre(c: PluginConfig, states: seq<Progress>, steps: seq<Step>, k: nat, m: Name)
    requires IsValid(c) && HasUpload(c) && IsExecution(UploadCalls(c), states, steps) && k <= |steps|
    requires CreatedInUpload(c, states[k], |JobsOf(c.preUpload)|) && m in PreJobs(c)
    ensures Behind(states[k].w.jobs, m, UPLOAD)
  {
    var pre := JobsOf(c.preUpload);
    var i :| 0 <= i < |pre| && PreJobs(c)[i] == m;
    UploadNames(c);
    PreAt(c, i);
    UploadAt(c);
    ExecutionKeepsBehind(Pair(UploadStops(c), UploadPlan(c), i, |pre|), states, steps, k);
  }

  /** No post-upload job is launched before the upload has succeeded, or, if there
      is none, before all pre-upload jobs have. */
  lemma PostsWaitForUpload(c: PluginConfig, states: seq<Progress>, steps: seq<Step>, k: nat, q: nat, m: Name)
    requires IsValid(c) && IsExecution(UploadCalls(c), states, steps) && k <= |steps|
    requires q < |ListOf(c.postUpload)| && CreatedInUpload(c, states[k], PostIndex(c) + q) && m in PostNeeds(c)
    ensures Behind(states[k].w.jobs, m, ListOf(c.postUpload)[q].name)
  {
    var i := NeedAt(c, m);
    UploadNames(c);
    PostAt(c, q);
    PlainConfig(ListOf(c.postUpload)[q], PostNeeds(c));
    ExecutionKeepsBehind(Pair(UploadStops(c), UploadPlan(c), i, PostIndex(c) + q), states, steps, k);
  }

  lemma NeedAt(c: PluginConfig, m: Name) returns (i: nat)
    requires m in PostNeeds(c)
    ensures i < PostIndex(c) && i < |UploadPlan(c)| && UploadPlan(c)[i].name == m
  {
    if HasUpload(c) {
      i := |JobsOf(c.preUpload)|;
      UploadAt(c);
    } else {
      i :| 0 <= i < |JobsOf(c.preUpload)| && PreJobs(c)[i] == m;
      PreAt(c, i);
    }
  }

  /** All calls were made in an execution that led to these jobs. */
  ghost predicate AllMade(c: PluginConfig, jobs: map<Name, Job>) {
    forall j :: 0 <= j < |UploadPlan(c)| ==> IsPlanned(jobs, UploadPlan(c)[j])
  }

  lemma AllAreCreated(c: PluginConfig, states: seq<Progress>, steps: seq<Step>, k: nat)
    requires IsValid(c) && IsExecution(UploadCalls(c), states, steps) && k <= |steps|
    requires states[k].done == |UploadCalls(c)|
    ensures AllMade(c, states[k].w.jobs)
  {
    UploadNames(c);
    var x := Pair(UploadStops(c), UploadPlan(c), 0, 0);
    ExecutionCreates(x, states, steps, k);
    forall j | 0 <= j < |UploadPlan(c)|
      ensures IsPlanned(states[k].w.jobs, UploadPlan(c)[j])
    {
      assert CreateAt(x, j) < states[k].done;
    }
  }

  predicate HasPlain(jobs: map<Name, Job>, job: PlannedJob, stage: seq<Name>) {
    job.name in jobs && IsPlainJob(jobs[job.name].config, job, stage)
  }

  lemma PlainJobsMade(c: PluginConfig, jobs: map<Name, Job>)
    requires AllMade(c, jobs)
    ensures forall i :: 0 <= i < |JobsOf(c.preUpload)| ==> HasPlain(jobs, JobsOf(c.preUpload)[i], [])
    ensures forall i :: 0 <= i < |ListOf(c.postUpload)| ==> HasPlain(jobs, ListOf(c.postUpload)[i], PostNeeds(c))
  {
    forall i | 0 <= i < |JobsOf(c.preUpload)|
      ensures HasPlain(jobs, JobsOf(c.preUpload)[i], [])
    {
      PreAt(c, i);
      PlainConfig(JobsOf(c.preUpload)[i], []);
      assert IsPlanned(jobs, UploadPlan(c)[i]);
    }
    forall i | 0 <= i < |ListOf(c.postUpload)|
      ensures HasPlain(jobs, ListOf(c.postUpload)[i], PostNeeds(c))
    {
      PostAt(c, i);
      PlainConfig(ListOf(c.postUpload)[i], PostNeeds(c));
      assert IsPlanned(jobs, UploadPlan(c)[PostIndex(c) + i]);
    }
  }

  predicate HasService(jobs: map<Name, Job>, service: Service, waitFor: seq<Name>) {
    service.name in jobs && IsServiceJob(jobs[service.name].config, true, [], waitFor)
  }

  /** When all calls were made every job is in the registry under its policy. */
  lemma UploadConfigs(c: PluginConfig, states: seq<Progress>, steps: seq<Step>, k: nat)
    requires IsValid(c) && IsExecution(UploadCalls(c), states, steps) && k <= |steps|
    requires states[k].done == |UploadCalls(c)|
    ensures var jobs := states[k].w.jobs;
            && (HasUpload(c) ==> HasJob(jobs, UPLOAD, JobConfig(Some(PreJobs(c)), None, OnFailure)))
            && (forall i :: 0 <= i < |JobsOf(c.preUpload)| ==> HasPlain(jobs, JobsOf(c.preUpload)[i], []))
            && (forall i :: 0 <= i < |ListOf(c.postUpload)| ==> HasPlain(jobs, ListOf(c.postUpload)[i], PostNeeds(c)))
            && (forall i :: 0 <= i < |OnProtocolData(c.services)| ==>
                  HasService(jobs, OnProtocolData(c.services)[i], Awaited(c)))
  {
    var jobs := states[k].w.jobs;
    AllAreCreated(c, states, steps, k);
    PlainJobsMade(c, jobs);
    if HasUpload(c) {
      UploadAt(c);
      assert IsPlanned(jobs, UploadPlan(c)[|JobsOf(c.preUpload)|]);
    }
    forall i | 0 <= i < |OnProtocolData(c.services)|
      ensures HasService(jobs, OnProtocolData(c.services)[i], Awaited(c))
    {
      ServiceAt(c, i);
      assert OnProtocolData(c.services)[i] in OnProtocolData(c.services);
      assert IsPlanned(jobs, UploadPlan(c)[PostIndex(c) + |ListOf(c.postUpload)| + i]);
    }
  }
}
