/** The condition of `UploadExclusion` cannot be dropped: without a guard there is
    an execution of `default_upload` that launches a service beside the upload. */
module UploadRace {
  import opened Layout
  import opened Jobs
  import opened JobsManager
  import opened JobsSafety
  import opened JobsLiveness
  import opened Plugin
  import opened Gating
  import opened UploadExclusion

  // ---- the configurations -------------------------------------------------

  /** The plan fits into the registry and its pre-upload jobs depend on nothing. */
  predicate IsPlain(c: PluginConfig) {
    && HasUpload(c) && |UploadPlan(c)| <= MAX_JOBS
    && forall i :: 0 <= i < |JobsOf(c.preUpload)| ==> ListOf(JobsOf(c.preUpload)[i].needs) == []
  }

  /** The first need is a job that this plan does not create. */
  predicate StartsForeign(c: PluginConfig, job: PlannedJob) {
    ListOf(job.needs) != [] && ListOf(job.needs)[0] !in PlanNames(UploadPlan(c))
  }

  /** The first need is the upload job, named or added. */
  predicate StartsWithUpload(job: PlannedJob) {
    (ListOf(job.needs) + [UPLOAD])[0] == UPLOAD
  }

  predicate IsSimple(c: PluginConfig) {
    forall q :: 0 <= q < |ListOf(c.postUpload)| ==>
      StartsWithUpload(ListOf(c.postUpload)[q]) || StartsForeign(c, ListOf(c.postUpload)[q])
  }

  // ---- the calls, one after the other -------------------------------------

  function PlaceOf(plan: seq<Planned>, n: Name): nat {
    if plan == [] || plan[0].name == n then 0 else 1 + PlaceOf(plan[1..], n)
  }

  /** Everything succeeds; a runner's process id is the place of its job. */
  function Smooth(plan: seq<Planned>): Io {
    (n: Name) => JobIo(true, true, true, true, Some(PlaceOf(plan, n)))
  }

  const GOOD: JobIo := JobIo(true, true, true, true, None)

  /** The services are registered and stopped, nothing runs. */
  function Stillness(stops: seq<Name>): World {
    World(map n | n in stops :: Job(JobConfig(None, None, Always), Inactive(Stopped)),
          map n | n in stops :: JobConfig(None, None, Always), map[], {}, Ready, true)
  }

  /** After `done` calls without a pass in between. */
  ghost predicate Called(stops: seq<Name>, plan: seq<Planned>, s: Progress) {
    && s.ok && s.done <= |stops| + 2 * |plan| && s.w.loaded && s.w.runners == {}
    && (forall n :: n in stops ==> n in s.w.jobs)
    && (forall n :: n in s.w.jobs ==> n in PlanNames(plan) && IsWaitingOrStopped(s.w.jobs[n].state))
    && (s.done <= |stops| ==> forall n :: n in s.w.jobs ==> s.w.jobs[n].state == Inactive(Stopped))
    && (forall j :: 0 <= j < |plan| && |stops| + 2 * j < s.done ==>
      IsAsCalled(s.w.jobs, plan[j], |stops| + 2 * j + 1 < s.done))
  }

  predicate IsWaitingOrStopped(s: JobState) {
    IsPending(s) || s == Inactive(Stopped)
  }

  predicate IsAsCalled(jobs: map<Name, Job>, p: Planned, started: bool) {
    IsPlanned(jobs, p) && (if started then IsPending(jobs[p.name].state) else jobs[p.name].state == Inactive(Stopped))
  }

  lemma CalledAtStart(stops: seq<Name>, plan: seq<Planned>)
    requires forall n :: n in stops ==> n in PlanNames(plan)
    ensures Called(stops, plan, Progress(Stillness(stops), 0, true))
  {
  }

  lemma RoomForOneMore(jobs: map<Name, Job>, plan: seq<Planned>, n: Name)
    requires forall m :: m in jobs ==> m in PlanNames(plan)
    requires n in PlanNames(plan) && n !in jobs && |plan| <= MAX_JOBS
    ensures |jobs| < MAX_JOBS
  {
    var names := set m | m in PlanNames(plan);
    assert jobs.Keys + {n} <= names;
    SubsetCount(jobs.Keys + {n}, names);
    NameCount(PlanNames(plan));
  }

  lemma {:induction false} NameCount(s: seq<Name>)
    ensures |set m | m in s| <= |s|
  {
    if s != [] {
      var front := s[..|s| - 1];
      NameCount(front);
      assert (set m | m in s) == (set m | m in front) + {s[|s| - 1]};
    }
  }

  lemma StopNext(stops: seq<Name>, plan: seq<Planned>, s: Progress)
    requires Called(stops, plan, s) && s.done < |stops|
    ensures Succeeds(stops, plan, s, StopJob(stops[s.done]))
  {
    var n := stops[s.done];
    assert n in s.w.jobs && s.w.jobs[n].state == Inactive(Stopped);
    RunnersAfter(s.w, {n}, _ => EndJob(SlotOf(s.w, n), Stopped, GOOD).0, n);
  }

  lemma CreateRegisters(w: World, n: Name, c: JobConfig)
    requires if n in w.jobs then w.jobs[n].state.Inactive? else |w.jobs| < MAX_JOBS
    ensures Create(w, n, c, GOOD, true) == (Register(w, n, c), true)
  {
    if n in w.jobs {
      PutSame(w, n);
    }
  }

  lemma CreateNext(stops: seq<Name>, plan: seq<Planned>, s: Progress, j: nat)
    requires DistinctNames(plan) && |plan| <= MAX_JOBS
    requires Called(stops, plan, s) && j < |plan| && s.done == |stops| + 2 * j
    ensures Succeeds(stops, plan, s, Call.CreateJob(plan[j].name, plan[j].config))
  {
    var n := plan[j].name;
    assert PlanNames(plan)[j] == n;
    if n !in s.w.jobs {
      RoomForOneMore(s.w.jobs, plan, n);
    }
    CreateRegisters(s.w, n, plan[j].config);
    CalledMore(stops, plan, s, Register(s.w, n, plan[j].config), j, false);
  }

  /** The next call for job `j` puts it where it belongs and leaves the others. */
  lemma CalledMore(stops: seq<Name>, plan: seq<Planned>, s: Progress, w: World, j: nat, started: bool)
    requires DistinctNames(plan) && Called(stops, plan, s) && j < |plan|
    requires s.done == |stops| + 2 * j + (if started then 1 else 0)
    requires w.loaded && w.runners == {} && IsAsCalled(w.jobs, plan[j], started)
    requires w.jobs == s.w.jobs[plan[j].name := w.jobs[plan[j].name]]
    ensures Called(stops, plan, Progress(w, s.done + 1, true))
  {
    assert PlanNames(plan)[j] == plan[j].name;
    forall i | 0 <= i < j
      ensures IsAsCalled(w.jobs, plan[i], true)
    {
      assert IsAsCalled(s.w.jobs, plan[i], true);
    }
  }

  lemma StartNext(stops: seq<Name>, plan: seq<Planned>, s: Progress, j: nat)
    requires DistinctNames(plan) && Called(stops, plan, s) && j < |plan| && s.done == |stops| + 2 * j + 1
    ensures Succeeds(stops, plan, s, StartJob(plan[j].name))
  {
    var n := plan[j].name;
    assert IsAsCalled(s.w.jobs, plan[j], false);
    StoppedStart(s.w, n, GOOD);
    StartRunsNothing(s.w, n);
    CalledMore(stops, plan, s, Start(s.w, n, GOOD).0, j, true);
  }

  lemma StartRunsNothing(w: World, n: Name)
    requires n in w.jobs && w.jobs[n].state == Inactive(Stopped) && w.runners == {}
    ensures var (v, ok) := Start(w, n, GOOD);
            ok && v.runners == {} && v.loaded == w.loaded
  {
    RunnersAfter(w, {n}, _ => Settle(SlotOf(w, n), Pending(WaitingFor(w.jobs[n].config)), GOOD), n);
  }

  lemma ProgramStops(stops: seq<Name>, plan: seq<Planned>, k: nat)
    requires k < |stops|
    ensures Program(stops, plan)[k] == StopJob(stops[k])
  {
    assert Program(stops, plan)[k] == Stops(stops)[k];
  }

  lemma ProgramStarts(stops: seq<Name>, plan: seq<Planned>, j: nat)
    requires j < |plan|
    ensures Program(stops, plan)[|stops| + 2 * j] == Call.CreateJob(plan[j].name, plan[j].config)
    ensures Program(stops, plan)[|stops| + 2 * j + 1] == StartJob(plan[j].name)
  {
    assert Program(stops, plan)[|stops| + 2 * j] == Calls(plan)[2 * j];
    assert Program(stops, plan)[|stops| + 2 * j + 1] == Calls(plan)[2 * j + 1];
  }

  /** The call succeeds and leaves what is expected. */
  ghost predicate Succeeds(stops: seq<Name>, plan: seq<Planned>, s: Progress, call: Call) {
    !call.StopAllJobs? &&
    var (w, ok) := DoCall(s.w, call, GOOD, true);
    ok && Called(stops, plan, Progress(w, s.done + 1, true))
  }

  lemma PlannedCallNext(stops: seq<Name>, plan: seq<Planned>, s: Progress, j: nat)
    requires DistinctNames(plan) && |plan| <= MAX_JOBS && Called(stops, plan, s) && j < |plan|
    requires |stops| + 2 * j <= s.done <= |stops| + 2 * j + 1
    ensures Succeeds(stops, plan, s, Program(stops, plan)[s.done])
  {
    ProgramStarts(stops, plan, j);
    if s.done == |stops| + 2 * j {
      CreateNext(stops, plan, s, j);
    } else {
      StartNext(stops, plan, s, j);
    }
  }

  lemma CallNext(stops: seq<Name>, plan: seq<Planned>, s: Progress)
    requires DistinctNames(plan) && |plan| <= MAX_JOBS && Called(stops, plan, s) && s.done < |stops| + 2 * |plan|
    ensures Succeeds(stops, plan, s, Program(stops, plan)[s.done])
  {
    if s.done < |stops| {
      ProgramStops(stops, plan, s.done);
      StopNext(stops, plan, s);
    } else {
      PlannedCallNext(stops, plan, s, (s.done - |stops|) / 2);
    }
  }

  /** All calls can be made with no pass in between. */
  lemma {:induction false} MakeCalls(stops: seq<Name>, plan: seq<Planned>, k: nat)
    returns (states: seq<Progress>, steps: seq<Step>)
    requires DistinctNames(plan) && |plan| <= MAX_JOBS && k <= |stops| + 2 * |plan|
    requires forall n :: n in stops ==> n in PlanNames(plan)
    ensures |steps| == k && IsExecution(Program(stops, plan), states, steps)
    ensures states[k].done == k && Called(stops, plan, states[k])
  {
    if k == 0 {
      CalledAtStart(stops, plan);
      states, steps := [Progress(Stillness(stops), 0, true)], [];
    } else {
      states, steps := MakeCalls(stops, plan, k - 1);
      CallNext(stops, plan, states[k - 1]);
      var w := DoCall(states[k - 1].w, Program(stops, plan)[k - 1], GOOD, true).0;
      var next := Progress(w, k, true);
      assert IsStep(Program(stops, plan), states[k - 1], NextCall(GOOD, true), next);
      states, steps := OneMore(Program(stops, plan), states, steps, NextCall(GOOD, true), next);
    }
  }

  lemma OneMore(calls: seq<Call>, states: seq<Progress>, steps: seq<Step>, step: Step, next: Progress)
    returns (states': seq<Progress>, steps': seq<Step>)
    requires IsExecution(calls, states, steps) && IsStep(calls, states[|steps|], step, next)
    ensures states' == states + [next] && steps' == steps + [step] && IsExecution(calls, states', steps')
  {
    states', steps' := states + [next], steps + [step];
    forall i | 0 <= i < |steps'|
      ensures IsStep(calls, states'[i], steps'[i], states'[i + 1])
    {
      if i < |steps| {
        assert IsStep(calls, states[i], steps[i], states[i + 1]);
      }
    }
  }

  // ---- two passes ---------------------------------------------------------

  /** All jobs of the plan are pending and nothing else is registered. */
  ghost predicate AllPending(plan: seq<Planned>, w: World) {
    && w.loaded && w.runners == {}
    && (forall n :: n in w.jobs ==> n in PlanNames(plan))
    && forall j :: 0 <= j < |plan| ==> IsAsCalled(w.jobs, plan[j], true)
  }

  lemma AllCalled(stops: seq<Name>, plan: seq<Planned>, s: Progress)
    requires Called(stops, plan, s) && s.done == |stops| + 2 * |plan|
    ensures AllPending(plan, s.w)
  {
  }

  /** One pass, that sees all processes. */
  function SmoothPass(plan: seq<Planned>, w: World): World {
    QuickPass(w, Smooth(plan), Smooth(plan))
  }

  lemma PassOfPending(plan: seq<Planned>, w: World, p: Planned)
    requires AllPending(plan, w) && p in plan
    ensures var later := SmoothPass(plan, w);
            && IsPlanned(later.jobs, p)
            && match DepsOf(w.jobs, p.config)
               case AllDone => later.jobs[p.name].state.Active? &&
                 later.jobs[p.name].state.pid in RunnersOf(later, p.name)
               case NotYet => later.jobs[p.name].state == w.jobs[p.name].state
               case Broken(_) => Ended(later.jobs[p.name].state)
  {
    var j :| 0 <= j < |plan| && plan[j] == p;
    assert IsAsCalled(w.jobs, plan[j], true);
    var io := Smooth(plan);
    PendingMid(plan, w);
    AppliedSlot(w, w.jobs.Keys, InactiveStep(w, io), p.name);
    PendingSlot(p.config, w.jobs, SlotOf(w, p.name), io(p.name));
  }

  lemma PendingSlot(c: JobConfig, deps: map<Name, Job>, slot: Slot, io: JobIo)
    requires IsPending(slot.state) && IsGood(io) && io.spawns.Some?
    ensures var s := CheckInactive(c, deps, slot, io);
            match DepsOf(deps, c)
            case AllDone => s.state.Active? && s.state.pid in s.runners
            case NotYet => s == slot
            case Broken(_) => Ended(s.state)
  {
  }

  lemma PendingMid(plan: seq<Planned>, w: World)
    requires AllPending(plan, w)
    ensures Mid(w, Smooth(plan)) == w
  {
    var step := ActiveStep(w, Pids(w), Smooth(plan));
    forall n | n in w.jobs
      ensures step(n) == SlotOf(w, n)
    {
      var j :| 0 <= j < |PlanNames(plan)| && PlanNames(plan)[j] == n;
      assert IsAsCalled(w.jobs, plan[j], true);
    }
    forall n
      ensures RunnersOf(Mid(w, Smooth(plan)), n) == RunnersOf(w, n)
    {
      RunnersAfter(w, w.jobs.Keys, step, n);
    }
    SameWorld(Mid(w, Smooth(plan)), w);
  }

  /** A pending job whose dependencies are met starts. */
  lemma PassStarts(plan: seq<Planned>, w: World, n: Name)
    requires n in w.jobs && IsPending(w.jobs[n].state) && DepsOf(w.jobs, w.jobs[n].config).AllDone?
    ensures var later := SmoothPass(plan, w);
            n in later.jobs && later.jobs[n].state.Active?
  {
    var io := Smooth(plan);
    var mid := Mid(w, io);
    MidSlot(w, io, n);
    MidKeepsEnded(w, io);
    DepsStable(w.jobs, mid.jobs, w.jobs[n].config);
    AppliedSlot(mid, mid.jobs.Keys, InactiveStep(mid, io), n);
    assert mid.jobs[n].state == SlotOf(mid, n).state;
  }

  /** A pending job whose first need runs stays pending. */
  lemma PassKeepsWaiting(plan: seq<Planned>, w: World, n: Name, m: Name)
    requires n in w.jobs && IsPending(w.jobs[n].state)
    requires ListOf(w.jobs[n].config.needs) != [] && ListOf(w.jobs[n].config.needs)[0] == m
    requires m in w.jobs && IsRunningNow(w, w.jobs[m].state)
    ensures var later := SmoothPass(plan, w);
            n in later.jobs && later.jobs[n].state == w.jobs[n].state
  {
    var io := Smooth(plan);
    var mid := Mid(w, io);
    MidSlot(w, io, n);
    MidSlot(w, io, m);
    assert mid.jobs[m].state == SlotOf(mid, m).state == w.jobs[m].state;
    assert mid.jobs[n].state == SlotOf(mid, n).state == w.jobs[n].state;
    FirstNeedDecides(mid.jobs, w.jobs[n].config, 0);
    AppliedSlot(mid, mid.jobs.Keys, InactiveStep(mid, io), n);
  }

  // ---- the race -----------------------------------------------------------

  /** Every post-upload job starts with a job that nobody creates. */
  ghost predicate AllForeign(c: PluginConfig) {
    && ListOf(c.postUpload) != []
    && forall q :: 0 <= q < |ListOf(c.postUpload)| ==> StartsForeign(c, ListOf(c.postUpload)[q])
  }

  lemma NoGuardMeansForeign(c: PluginConfig)
    requires IsSimple(c) && !HasGuard(c)
    ensures AllForeign(c)
  {
    forall q | 0 <= q < |ListOf(c.postUpload)|
      ensures StartsForeign(c, ListOf(c.postUpload)[q])
    {
      var job := ListOf(c.postUpload)[q];
      assert !ComesToUpload(c, job);
      var needs := ListOf(job.needs) + [UPLOAD];
      assert needs[..0] == NeedsAfter(JobsOf(c.preUpload), [])[..0];
      assert StartsWithUpload(job) || StartsForeign(c, job);
    }
  }

  /** The first pass leaves the upload running or waiting for a job that runs. */
  ghost predicate UploadGoesOn(w: World) {
    UPLOAD in w.jobs &&
    (IsRunningNow(w, w.jobs[UPLOAD].state)
     || (IsPending(w.jobs[UPLOAD].state) &&
         var needs := ListOf(w.jobs[UPLOAD].config.needs);
         needs != [] && needs[0] in w.jobs && IsRunningNow(w, w.jobs[needs[0]].state)))
  }

  lemma RunsNow(w: World, n: Name)
    requires n in w.jobs && w.jobs[n].state.Active? && w.jobs[n].state.pid in RunnersOf(w, n)
    ensures IsRunningNow(w, w.jobs[n].state)
  {
    PidsOf(w, n);
  }

  lemma FirstPassUpload(c: PluginConfig, w: World)
    requires IsPlain(c) && AllPending(UploadPlan(c), w)
    ensures UploadGoesOn(SmoothPass(UploadPlan(c), w))
  {
    var plan := UploadPlan(c);
    UploadPlanAt(c, 0);
    var u := plan[UploadIndex(c)];
    PassOfPending(plan, w, u);
    if JobsOf(c.preUpload) == [] {
      AllDoneIff(w.jobs, u.config);
      RunsNow(SmoothPass(plan, w), UPLOAD);
    } else {
      FirstPassPre(c, w);
      assert IsAsCalled(w.jobs, u, true);
      FirstNeedDecides(w.jobs, u.config, 0);
    }
  }

  /** The first pre-upload job runs after the first pass. */
  lemma FirstPassPre(c: PluginConfig, w: World)
    requires IsPlain(c) && AllPending(UploadPlan(c), w) && JobsOf(c.preUpload) != []
    ensures var n := Names(JobsOf(c.preUpload))[0];
            && n in w.jobs && IsPending(w.jobs[n].state)
            && var later := SmoothPass(UploadPlan(c), w);
               n in later.jobs && IsRunningNow(later, later.jobs[n].state)
  {
    var plan, pre := UploadPlan(c), JobsOf(c.preUpload);
    PreAt(c, 0);
    var b := plan[0];
    assert IsAsCalled(w.jobs, b, true);
    PlannedNeeds(pre[0], []);
    AllDoneIff(w.jobs, b.config);
    PassOfPending(plan, w, b);
    RunsNow(SmoothPass(plan, w), b.name);
  }

  lemma FirstPassPosts(c: PluginConfig, w: World, q: nat)
    requires IsPlain(c) && AllForeign(c) && AllPending(UploadPlan(c), w) && q < |ListOf(c.postUpload)|
    ensures var later := SmoothPass(UploadPlan(c), w);
            var n := Names(ListOf(c.postUpload))[q];
            n in later.jobs && Ended(later.jobs[n].state)
  {
    var plan, job := UploadPlan(c), ListOf(c.postUpload)[q];
    UploadPlanAt(c, q);
    var p := plan[UploadIndex(c) + 1 + q];
    PlannedNeeds(job, [UPLOAD]);
    OwnNeedEndsAtOnce(w.jobs, job, ListOf(job.needs)[0]);
    PassOfPending(plan, w, p);
  }

  lemma FirstPassService(c: PluginConfig, w: World, i: nat)
    requires IsPlain(c) && AllForeign(c) && AllPending(UploadPlan(c), w) && i < |OnProtocolData(c.services)|
    ensures var later := SmoothPass(UploadPlan(c), w);
            var p := UploadPlan(c)[ServiceIndex(c, i)];
            ServiceIndex(c, i) < |UploadPlan(c)| && IsPlanned(later.jobs, p) && IsPending(later.jobs[p.name].state)
  {
    var plan, posts := UploadPlan(c), ListOf(c.postUpload);
    UploadPlanAt(c, i);
    UploadPlanAt(c, 0);
    var p := plan[ServiceIndex(c, i)];
    var first := plan[UploadIndex(c) + 1];
    assert OnProtocolData(c.services)[i] in OnProtocolData(c.services);
    assert first.name == Names(posts)[0];
    assert IsAsCalled(w.jobs, first, true) && IsAsCalled(w.jobs, p, true);
    FirstAwaitedDecides(w.jobs, p.config, 0);
    PassOfPending(plan, w, p);
  }

  lemma PostsAreOver(c: PluginConfig, w: World)
    requires IsPlain(c) && AllForeign(c) && AllPending(UploadPlan(c), w)
    ensures var once := SmoothPass(UploadPlan(c), w);
            forall m :: m in Names(ListOf(c.postUpload)) ==> m in once.jobs && Ended(once.jobs[m].state)
  {
    var posts := ListOf(c.postUpload);
    forall m | m in Names(posts)
      ensures var once := SmoothPass(UploadPlan(c), w);
              m in once.jobs && Ended(once.jobs[m].state)
    {
      var q :| 0 <= q < |Names(posts)| && Names(posts)[q] == m;
      FirstPassPosts(c, w, q);
    }
  }

  /** After the second pass the service runs, and the upload is not over. */
  lemma SecondPass(c: PluginConfig, w: World, i: nat)
    requires IsPlain(c) && AllForeign(c) && AllPending(UploadPlan(c), w) && i < |OnProtocolData(c.services)|
    ensures var twice := SmoothPass(UploadPlan(c), SmoothPass(UploadPlan(c), w));
            !HeldOrStopped(twice.jobs, UPLOAD, OnProtocolData(c.services)[i].name)
  {
    var plan, posts := UploadPlan(c), ListOf(c.postUpload);
    var once := SmoothPass(plan, w);
    FirstPassUpload(c, w);
    FirstPassService(c, w, i);
    UploadPlanAt(c, i);
    var p := plan[ServiceIndex(c, i)];
    assert OnProtocolData(c.services)[i] in OnProtocolData(c.services);
    PostsAreOver(c, w);
    ServicesDoNotWaitForUpload(once.jobs, posts, OnProtocolData(c.services)[i]);
    PassStarts(plan, once, p.name);
    UploadStaysUp(plan, once);
  }

  lemma UploadStaysUp(plan: seq<Planned>, w: World)
    requires UploadGoesOn(w)
    ensures var later := SmoothPass(plan, w);
            UPLOAD in later.jobs && !Ended(later.jobs[UPLOAD].state)
  {
    if IsRunningNow(w, w.jobs[UPLOAD].state) {
      PassSlot(w, Smooth(plan), Smooth(plan), UPLOAD);
      assert SlotOf(SmoothPass(plan, w), UPLOAD).state == w.jobs[UPLOAD].state;
    } else {
      PassKeepsWaiting(plan, w, UPLOAD, ListOf(w.jobs[UPLOAD].config.needs)[0]);
    }
  }

  lemma PassStep(plan: seq<Planned>, calls: seq<Call>, s: Progress)
    requires s.w.loaded
    ensures var a := ManagerPass(Pids(s.w), Smooth(plan), Smooth(plan));
            var later := s.(w := SmoothPass(plan, s.w));
            IsStep(calls, s, Meanwhile(a), later) && later.w.loaded
  {
  }

  lemma StopsArePlanned(c: PluginConfig)
    requires HasUpload(c)
    ensures forall n :: n in ServiceNames(OnProtocolData(c.services)) ==> n in PlanNames(UploadPlan(c))
    ensures |OnProtocolData(c.services)| > 0
  {
    UploadPlanNames(c);
  }

  /** When every post-upload job starts with a job that nobody creates, a service
      may be launched while the upload is pending or running. */
  lemma ServiceRunsBesideUpload(c: PluginConfig)
    returns (states: seq<Progress>, steps: seq<Step>, k: nat)
    requires IsValid(c) && IsPlain(c) && AllForeign(c)
    ensures IsExecution(UploadCalls(c), states, steps) && k <= |steps| && UploadStarted(c, states[k])
    ensures |OnProtocolData(c.services)| > 0
    ensures !HeldOrStopped(states[k].w.jobs, UPLOAD, OnProtocolData(c.services)[0].name)
  {
    var plan, stops := UploadPlan(c), ServiceNames(OnProtocolData(c.services));
    UploadPlanIsDistinct(c);
    StopsArePlanned(c);
    UploadPlanAt(c, 0);
    var n := |stops| + 2 * |plan|;
    states, steps := MakeCalls(stops, plan, n);
    var s := states[n];
    AllCalled(stops, plan, s);
    SecondPass(c, s.w, 0);
    var once := s.(w := SmoothPass(plan, s.w));
    var twice := once.(w := SmoothPass(plan, once.w));
    PassStep(plan, UploadCalls(c), s);
    states, steps := OneMore(UploadCalls(c), states, steps, Meanwhile(ManagerPass(Pids(s.w), Smooth(plan),
      Smooth(plan))), once);
    PassStep(plan, UploadCalls(c), once);
    states, steps := OneMore(UploadCalls(c), states, steps, Meanwhile(ManagerPass(Pids(once.w), Smooth(plan),
      Smooth(plan))), twice);
    k := n + 2;
  }

  // ---- exactly when -------------------------------------------------------

  /** In no execution is a restarted service launched while the upload is
      pending or running. */
  ghost predicate AlwaysExcludes(c: PluginConfig) {
    forall states: seq<Progress>, steps: seq<Step>, k: nat, i: nat ::
      IsExecution(UploadCalls(c), states, steps) && k <= |steps| && UploadStarted(c, states[k])
      && i < |OnProtocolData(c.services)| ==>
        HeldOrStopped(states[k].w.jobs, UPLOAD, OnProtocolData(c.services)[i].name)
  }

  /** If the first need of each post-upload job is the upload or a job that the
      plan does not create, the exclusion holds if and only if there is a guard. */
  lemma ExclusionIffGuard(c: PluginConfig)
    requires IsValid(c) && IsPlain(c) && IsSimple(c)
    ensures AlwaysExcludes(c) <==> HasGuard(c)
  {
    if HasGuard(c) {
      forall states: seq<Progress>, steps: seq<Step>, k: nat, i: nat |
        IsExecution(UploadCalls(c), states, steps) && k <= |steps| && UploadStarted(c, states[k])
        && i < |OnProtocolData(c.services)|
        ensures HeldOrStopped(states[k].w.jobs, UPLOAD, OnProtocolData(c.services)[i].name)
      {
        UploadExcludesServices(c, states, steps, k, i);
      }
    } else {
      NoGuardMeansForeign(c);
      var states, steps, k := ServiceRunsBesideUpload(c);
      assert !HeldOrStopped(states[k].w.jobs, UPLOAD, OnProtocolData(c.services)[0].name);
    }
  }
}
